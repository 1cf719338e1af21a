/** The two batch inserts of the SQLite driver. Each runs in one database transaction:
    it inserts the transactions, noting the accounts and envelopes they touch and the
    oldest month they reach back to; then it runs the envelope rollups, the account
    rollups and one overall rollup, all from that oldest month; then it commits. Any
    failure returns an error before the commit, and the deferred rollback puts the
    store back as it was. The store's own failures (Begin, the insert's Scan, Commit)
    are given as a Faults value; the rollups fail as the store's rollup functions say. */
module Batch {
  import opened Wrappers
  import opened BCDate
  import opened Model
  import opened SQLiteDriver

  /** Which store operations fail: Begin, the Scan of the insert at a given position,
      and Commit. */
  datatype Faults = Faults(begin: bool, insertAt: Option<nat>, commit: bool)

  /** The oldest month a batch reaches back to: starting from the current month, each
      post-date in turn is folded in with Oldest. */
  function BatchOldest(now: BCDate, dates: seq<BCDate>): (o: BCDate)
    ensures o <= now && forall k :: 0 <= k < |dates| ==> o <= dates[k]
    ensures o == now || o in dates
  {
    if dates == [] then now
    else
      var prefix := dates[..|dates| - 1];
      var o := Oldest(BatchOldest(now, prefix), dates[|dates| - 1]);
      assert forall k :: 0 <= k < |dates| - 1 ==> dates[k] == prefix[k];
      assert forall x :: x in prefix ==> x in dates;
      o
  }

  function AccountPostDates(ats: seq<AccountTransaction>): seq<BCDate>
  {
    seq(|ats|, k requires 0 <= k < |ats| => ats[k].postDate)
  }

  function EnvelopePostDates(ets: seq<EnvelopeTransaction>): seq<BCDate>
  {
    seq(|ets|, k requires 0 <= k < |ets| => ets[k].postDate)
  }

  /** aids: the account of every transaction, in order, repeats kept. */
  function AccountIDs(ats: seq<AccountTransaction>): seq<PKEY>
  {
    seq(|ats|, k requires 0 <= k < |ats| => ats[k].accountID)
  }

  /** eids of the account batch: the envelope of every tagged transaction, in order. */
  function TaggedEnvelopes(ats: seq<AccountTransaction>): (eids: seq<PKEY>)
    ensures |eids| <= |ats|
  {
    if ats == [] then []
    else
      var prefix, last := ats[..|ats| - 1], ats[|ats| - 1];
      TaggedEnvelopes(prefix) + (if last.envelopeID.Some? then [last.envelopeID.value] else [])
  }

  /** The envelopes named are exactly those some transaction is tagged with. */
  lemma {:induction false} TaggedEnvelopesExactly(ats: seq<AccountTransaction>)
    ensures forall x :: x in TaggedEnvelopes(ats) <==> exists k :: 0 <= k < |ats| && ats[k].envelopeID == Some(x)
    decreases |ats|
  {
    if ats != [] {
      var prefix := ats[..|ats| - 1];
      TaggedEnvelopesExactly(prefix);
      assert forall k :: 0 <= k < |ats| - 1 ==> ats[k] == prefix[k];
    }
  }

  /** eids of the envelope batch: the envelope of every transaction, in order. */
  function EnvelopeIDs(ets: seq<EnvelopeTransaction>): seq<PKEY>
  {
    seq(|ets|, k requires 0 <= k < |ets| => ets[k].envelopeID)
  }

  /** The rows the inserts add: the given transactions with consecutive ids from first. */
  function Numbered<T>(ts: seq<T>, first: PKEY, withID: (T, PKEY) -> T): seq<T>
  {
    seq(|ts|, k requires 0 <= k < |ts| => withID(ts[k], first + k))
  }

  function WithAccountTxnID(at: AccountTransaction, id: PKEY): AccountTransaction { at.(id := id) }
  function WithEnvelopeTxnID(et: EnvelopeTransaction, id: PKEY): EnvelopeTransaction { et.(id := id) }

  /** The store after the insert loop of the account batch. */
  function InsertAccountTxns(st: State, ats: seq<AccountTransaction>): State
  {
    st.(accountTxns := st.accountTxns + Numbered(ats, st.nextAccountTxnID, WithAccountTxnID),
        nextAccountTxnID := st.nextAccountTxnID + |ats|)
  }

  function InsertEnvelopeTxns(st: State, ets: seq<EnvelopeTransaction>): State
  {
    st.(envelopeTxns := st.envelopeTxns + Numbered(ets, st.nextEnvelopeTxnID, WithEnvelopeTxnID),
        nextEnvelopeTxnID := st.nextEnvelopeTxnID + |ets|)
  }

  /** One call of a rollup routine. */
  datatype Call = EnvelopeRollup(from: BCDate, id: PKEY) | AccountRollup(from: BCDate, id: PKEY) | OverallRollup(from: BCDate)

  function Apply(r: Rollups, st: State, c: Call): RollupResult
  {
    match c
    case EnvelopeRollup(from, id) => r.envelope(st, from, id)
    case AccountRollup(from, id) => r.account(st, from, id)
    case OverallRollup(from) => r.overall(st, from)
  }

  /** Running the calls in order: all of them, or up to the first that fails. */
  datatype RunOutcome = Completed(chk: Checkpoints) | Stopped(at: Call, err: Error)

  function RunCalls(r: Rollups, st: State, calls: seq<Call>): RunOutcome
    decreases |calls|
  {
    if calls == [] then Completed(st.chk)
    else
      match Apply(r, st, calls[0])
      case Failed(e, _) => Stopped(calls[0], e)
      case Done(chk) => RunCalls(r, st.(chk := chk), calls[1..])
  }

  function EnvelopeCalls(from: BCDate, eids: seq<PKEY>): seq<Call>
  {
    seq(|eids|, k requires 0 <= k < |eids| => EnvelopeRollup(from, eids[k]))
  }

  function AccountCalls(from: BCDate, aids: seq<PKEY>): seq<Call>
  {
    seq(|aids|, k requires 0 <= k < |aids| => AccountRollup(from, aids[k]))
  }

  /** The rollups the account batch runs: envelopes, then accounts, then the overall pass. */
  function AccountBatchCalls(ats: seq<AccountTransaction>, oldest: BCDate): seq<Call>
  {
    EnvelopeCalls(oldest, TaggedEnvelopes(ats)) + AccountCalls(oldest, AccountIDs(ats)) + [OverallRollup(oldest)]
  }

  /** The rollups the envelope batch runs: envelopes, then the overall pass. */
  function EnvelopeBatchCalls(ets: seq<EnvelopeTransaction>, oldest: BCDate): seq<Call>
  {
    EnvelopeCalls(oldest, EnvelopeIDs(ets)) + [OverallRollup(oldest)]
  }

  /** The error context the batch wraps a rollup failure in. */
  function RollupContext(op: string, c: Call): string
  {
    match c
    case EnvelopeRollup(_, _) => op + ".updateEnvelopeSummaries"
    case AccountRollup(_, _) => op + ".updateAccountSummaries"
    case OverallRollup(_) => op + ".updateSummaries"
  }

  const AccountOp: string := "Batch_NewAccountTransaction"
  const EnvelopeOp: string := "Batch_NewEnvelopeTransaction"

  /** Batch_NewAccountTransaction, as the store it leaves and the error it returns.
      On any error the store is as it was; on success exactly the given transactions
      are appended, numbered, the checkpoints are those the completed rollup run
      computed over the inserted rows, and nothing else changes. */
  function AccountBatch(r: Rollups, st: State, ats: seq<AccountTransaction>, now: BCDate, f: Faults): (res: (State, Option<Error>))
    ensures res.1.Some? ==> res.0 == st
    ensures res.1.None? ==>
      res.0.accountTxns == st.accountTxns + Numbered(ats, st.nextAccountTxnID, WithAccountTxnID) &&
      res.0.nextAccountTxnID == st.nextAccountTxnID + |ats| &&
      res.0.envelopeTxns == st.envelopeTxns && res.0.nextEnvelopeTxnID == st.nextEnvelopeTxnID &&
      res.0.accounts == st.accounts && res.0.groups == st.groups && res.0.envelopes == st.envelopes
    ensures res.1.None? <==> (!f.begin && !f.commit && !(f.insertAt.Some? && f.insertAt.value < |ats|) &&
      RunCalls(r, InsertAccountTxns(st, ats), AccountBatchCalls(ats, BatchOldest(now, AccountPostDates(ats)))).Completed?)
    ensures res.1.None? ==>
      res.0.chk == RunCalls(r, InsertAccountTxns(st, ats), AccountBatchCalls(ats, BatchOldest(now, AccountPostDates(ats)))).chk
  {
    if f.begin then (st, Some(Wrapped(AccountOp + ".Begin", StoreFailure)))
    else if f.insertAt.Some? && f.insertAt.value < |ats| then
      (st, Some(Wrapped(AccountOp + ".Insert.a_t.Scan", StoreFailure)))
    else
      var inserted := InsertAccountTxns(st, ats);
      var oldest := BatchOldest(now, AccountPostDates(ats));
      match RunCalls(r, inserted, AccountBatchCalls(ats, oldest))
      case Stopped(c, e) => (st, Some(Wrapped(RollupContext(AccountOp, c), e)))
      case Completed(chk) =>
        if f.commit then (st, Some(Wrapped(AccountOp + ".Commit", StoreFailure)))
        else (inserted.(chk := chk), None)
  }

  /** Batch_NewEnvelopeTransaction. Its insert failure carries the a_t label, as the
      driver writes it. */
  function EnvelopeBatch(r: Rollups, st: State, ets: seq<EnvelopeTransaction>, now: BCDate, f: Faults): (res: (State, Option<Error>))
    ensures res.1.Some? ==> res.0 == st
    ensures res.1.None? ==>
      res.0.envelopeTxns == st.envelopeTxns + Numbered(ets, st.nextEnvelopeTxnID, WithEnvelopeTxnID) &&
      res.0.nextEnvelopeTxnID == st.nextEnvelopeTxnID + |ets| &&
      res.0.accountTxns == st.accountTxns && res.0.nextAccountTxnID == st.nextAccountTxnID &&
      res.0.accounts == st.accounts && res.0.groups == st.groups && res.0.envelopes == st.envelopes
    ensures res.1.None? <==> (!f.begin && !f.commit && !(f.insertAt.Some? && f.insertAt.value < |ets|) &&
      RunCalls(r, InsertEnvelopeTxns(st, ets), EnvelopeBatchCalls(ets, BatchOldest(now, EnvelopePostDates(ets)))).Completed?)
    ensures res.1.None? ==>
      res.0.chk == RunCalls(r, InsertEnvelopeTxns(st, ets), EnvelopeBatchCalls(ets, BatchOldest(now, EnvelopePostDates(ets)))).chk
  {
    if f.begin then (st, Some(Wrapped(EnvelopeOp + ".Begin", StoreFailure)))
    else if f.insertAt.Some? && f.insertAt.value < |ets| then
      (st, Some(Wrapped(EnvelopeOp + ".Insert.a_t.Scan", StoreFailure)))
    else
      var inserted := InsertEnvelopeTxns(st, ets);
      var oldest := BatchOldest(now, EnvelopePostDates(ets));
      match RunCalls(r, inserted, EnvelopeBatchCalls(ets, oldest))
      case Stopped(c, e) => (st, Some(Wrapped(RollupContext(EnvelopeOp, c), e)))
      case Completed(chk) =>
        if f.commit then (st, Some(Wrapped(EnvelopeOp + ".Commit", StoreFailure)))
        else (inserted.(chk := chk), None)
  }

  /** The rollup schedule of the account batch: one envelope rollup per tagged
      transaction, then one account rollup per transaction, then the overall pass,
      all from the same month. */
  lemma AccountBatchSchedule(ats: seq<AccountTransaction>, oldest: BCDate)
    ensures var calls, t := AccountBatchCalls(ats, oldest), |TaggedEnvelopes(ats)|;
      |calls| == t + |ats| + 1 &&
      (forall k :: 0 <= k < t ==> calls[k] == EnvelopeRollup(oldest, TaggedEnvelopes(ats)[k])) &&
      (forall k :: 0 <= k < |ats| ==> calls[t + k] == AccountRollup(oldest, ats[k].accountID)) &&
      calls[t + |ats|] == OverallRollup(oldest)
  {
  }

  /** The rollup schedule of the envelope batch: one envelope rollup per transaction,
      then the overall pass, and no account rollup at all. */
  lemma EnvelopeBatchSchedule(ets: seq<EnvelopeTransaction>, oldest: BCDate)
    ensures var calls := EnvelopeBatchCalls(ets, oldest);
      |calls| == |ets| + 1 &&
      (forall k :: 0 <= k < |ets| ==> calls[k] == EnvelopeRollup(oldest, ets[k].envelopeID)) &&
      calls[|ets|] == OverallRollup(oldest) &&
      forall k :: 0 <= k < |calls| ==> !calls[k].AccountRollup?
  {
  }

  /** A run of calls none of which is an account rollup does not depend on the account
      rollup routine. */
  lemma {:induction false} RunIgnoresAccountRollup(r1: Rollups, r2: Rollups, st: State, calls: seq<Call>)
    requires r1.envelope == r2.envelope && r1.overall == r2.overall
    requires forall k :: 0 <= k < |calls| ==> !calls[k].AccountRollup?
    ensures RunCalls(r1, st, calls) == RunCalls(r2, st, calls)
    decreases |calls|
  {
    if calls != [] {
      assert Apply(r1, st, calls[0]) == Apply(r2, st, calls[0]);
      match Apply(r1, st, calls[0])
      case Failed(_, _) =>
      case Done(chk) =>
        assert forall k :: 0 <= k < |calls[1..]| ==> calls[1..][k] == calls[k + 1];
        RunIgnoresAccountRollup(r1, r2, st.(chk := chk), calls[1..]);
    }
  }

  /** Batch_NewEnvelopeTransaction never runs an account rollup: its outcome is the
      same whatever the account rollup routine does. */
  lemma EnvelopeBatchIgnoresAccountRollup(r1: Rollups, r2: Rollups, st: State, ets: seq<EnvelopeTransaction>, now: BCDate, f: Faults)
    requires r1.envelope == r2.envelope && r1.overall == r2.overall
    ensures EnvelopeBatch(r1, st, ets, now, f) == EnvelopeBatch(r2, st, ets, now, f)
  {
    var oldest := BatchOldest(now, EnvelopePostDates(ets));
    EnvelopeBatchSchedule(ets, oldest);
    RunIgnoresAccountRollup(r1, r2, InsertEnvelopeTxns(st, ets), EnvelopeBatchCalls(ets, oldest));
  }

  /** An empty batch reaches back only to the current month, runs no per-entity
      rollup, and still runs the overall pass once. */
  lemma EmptyAccountBatch(r: Rollups, st: State, now: BCDate)
    ensures BatchOldest(now, AccountPostDates([])) == now
    ensures AccountBatchCalls([], now) == [OverallRollup(now)]
    ensures AccountBatch(r, st, [], now, Faults(false, None, false)) ==
      match r.overall(st, now)
      case Done(chk) => (st.(chk := chk), None)
      case Failed(e, _) => (st, Some(Wrapped(AccountOp + ".updateSummaries", e)))
  {
    assert AccountBatchCalls([], now) == [] + [] + [OverallRollup(now)];
    assert InsertAccountTxns(st, []) == st;
    assert RunCalls(r, st, [OverallRollup(now)]) ==
      match r.overall(st, now)
      case Done(chk) => Completed(chk)
      case Failed(e, _) => Stopped(OverallRollup(now), e);
  }

  /** Running one call more. */
  lemma RunCallsStep(r: Rollups, st: State, calls: seq<Call>, j: nat)
    requires j < |calls|
    ensures RunCalls(r, st, calls[j..]) ==
      match Apply(r, st, calls[j])
      case Failed(e, _) => Stopped(calls[j], e)
      case Done(chk) => RunCalls(r, st.(chk := chk), calls[j + 1..])
  {
    assert calls[j..][0] == calls[j];
    assert calls[j..][1..] == calls[j + 1..];
  }

  /** Running two runs of calls one after the other. */
  lemma {:induction false} RunCallsAppend(r: Rollups, st: State, xs: seq<Call>, ys: seq<Call>)
    ensures RunCalls(r, st, xs + ys) ==
      match RunCalls(r, st, xs)
      case Completed(chk) => RunCalls(r, st.(chk := chk), ys)
      case Stopped(c, e) => Stopped(c, e)
    decreases |xs|
  {
    if xs == [] {
      assert xs + ys == ys;
      assert st.(chk := st.chk) == st;
    } else {
      assert (xs + ys)[0] == xs[0];
      assert (xs + ys)[1..] == xs[1..] + ys;
      match Apply(r, st, xs[0])
      case Failed(_, _) =>
      case Done(chk) => RunCallsAppend(r, st.(chk := chk), xs[1..], ys);
    }
  }

  /** What one more transaction adds to each thing the account insert loop tracks. */
  lemma AccountPrefixStep(st: State, ats: seq<AccountTransaction>, now: BCDate, i: nat)
    requires i < |ats|
    ensures var at, n := ats[i], InsertAccountTxns(st, ats[..i]);
      InsertAccountTxns(st, ats[..i + 1]) == AddAccountTxn(n, at) &&
      AccountIDs(ats[..i + 1]) == AccountIDs(ats[..i]) + [at.accountID] &&
      TaggedEnvelopes(ats[..i + 1]) == TaggedEnvelopes(ats[..i]) + (if at.envelopeID.Some? then [at.envelopeID.value] else []) &&
      BatchOldest(now, AccountPostDates(ats[..i + 1])) == Oldest(BatchOldest(now, AccountPostDates(ats[..i])), at.postDate)
  {
    var pre, next := ats[..i], ats[..i + 1];
    assert next[..i] == pre;
    assert AccountPostDates(next)[..i] == AccountPostDates(pre);
    assert Numbered(next, st.nextAccountTxnID, WithAccountTxnID) ==
      Numbered(pre, st.nextAccountTxnID, WithAccountTxnID) + [ats[i].(id := st.nextAccountTxnID + i)];
  }

  lemma EnvelopePrefixStep(st: State, ets: seq<EnvelopeTransaction>, now: BCDate, i: nat)
    requires i < |ets|
    ensures var et, n := ets[i], InsertEnvelopeTxns(st, ets[..i]);
      InsertEnvelopeTxns(st, ets[..i + 1]) == AddEnvelopeTxn(n, et) &&
      EnvelopeIDs(ets[..i + 1]) == EnvelopeIDs(ets[..i]) + [et.envelopeID] &&
      BatchOldest(now, EnvelopePostDates(ets[..i + 1])) == Oldest(BatchOldest(now, EnvelopePostDates(ets[..i])), et.postDate)
  {
    var pre, next := ets[..i], ets[..i + 1];
    assert next[..i] == pre;
    assert EnvelopePostDates(next)[..i] == EnvelopePostDates(pre);
    assert Numbered(next, st.nextEnvelopeTxnID, WithEnvelopeTxnID) ==
      Numbered(pre, st.nextEnvelopeTxnID, WithEnvelopeTxnID) + [ets[i].(id := st.nextEnvelopeTxnID + i)];
  }

  /** The insert loop of Batch_NewAccountTransaction. On success the store holds the
      inserted rows, and aids, eids and oldest are what the batch spec names. */
  method InsertAccountLoop(s: SQLite, ats: seq<AccountTransaction>, now: BCDate, insertAt: Option<nat>)
    returns (ok: bool, aids: seq<PKEY>, eids: seq<PKEY>, oldest: BCDate)
    modifies s
    ensures ok <==> !(insertAt.Some? && insertAt.value < |ats|)
    ensures ok ==> s.Snapshot() == InsertAccountTxns(old(s.Snapshot()), ats)
    ensures ok ==> aids == AccountIDs(ats) && eids == TaggedEnvelopes(ats) && oldest == BatchOldest(now, AccountPostDates(ats))
  {
    var before := s.Snapshot();
    aids, eids, oldest := [], [], now;
    var i := 0;
    while i < |ats|
      invariant 0 <= i <= |ats|
      invariant insertAt.Some? ==> insertAt.value >= i
      invariant s.Snapshot() == InsertAccountTxns(before, ats[..i])
      invariant aids == AccountIDs(ats[..i])
      invariant eids == TaggedEnvelopes(ats[..i])
      invariant oldest == BatchOldest(now, AccountPostDates(ats[..i]))
    {
      if insertAt.Some? && insertAt.value == i {
        return false, aids, eids, oldest;
      }
      AccountPrefixStep(before, ats, now, i);
      var _ := s.InsertAccountTransaction(ats[i]);
      aids := aids + [ats[i].accountID];
      eids := eids + if ats[i].envelopeID.Some? then [ats[i].envelopeID.value] else [];
      oldest := Oldest(oldest, ats[i].postDate);
      i := i + 1;
    }
    assert ats[..i] == ats;
    ok := true;
  }

  /** The insert loop of Batch_NewEnvelopeTransaction. */
  method InsertEnvelopeLoop(s: SQLite, ets: seq<EnvelopeTransaction>, now: BCDate, insertAt: Option<nat>)
    returns (ok: bool, eids: seq<PKEY>, oldest: BCDate)
    modifies s
    ensures ok <==> !(insertAt.Some? && insertAt.value < |ets|)
    ensures ok ==> s.Snapshot() == InsertEnvelopeTxns(old(s.Snapshot()), ets)
    ensures ok ==> eids == EnvelopeIDs(ets) && oldest == BatchOldest(now, EnvelopePostDates(ets))
  {
    var before := s.Snapshot();
    eids, oldest := [], now;
    var i := 0;
    while i < |ets|
      invariant 0 <= i <= |ets|
      invariant insertAt.Some? ==> insertAt.value >= i
      invariant s.Snapshot() == InsertEnvelopeTxns(before, ets[..i])
      invariant eids == EnvelopeIDs(ets[..i])
      invariant oldest == BatchOldest(now, EnvelopePostDates(ets[..i]))
    {
      if insertAt.Some? && insertAt.value == i {
        return false, eids, oldest;
      }
      EnvelopePrefixStep(before, ets, now, i);
      var _ := s.InsertEnvelopeTransaction(ets[i]);
      eids := eids + [ets[i].envelopeID];
      oldest := Oldest(oldest, ets[i].postDate);
      i := i + 1;
    }
    assert ets[..i] == ets;
    ok := true;
  }

  /** The loop over eids calling updateEnvelopeSummaries, up to the first failure. */
  method EnvelopeRollupLoop(s: SQLite, oldest: BCDate, eids: seq<PKEY>) returns (err: Option<Error>)
    modifies s
    ensures var out := RunCalls(s.rollups, old(s.Snapshot()), EnvelopeCalls(oldest, eids));
      (err.None? ==> out == Completed(s.chk) && s.Snapshot() == old(s.Snapshot()).(chk := s.chk)) &&
      (err.Some? ==> out.Stopped? && out.at.EnvelopeRollup? && out.err == err.value)
  {
    var start := s.Snapshot();
    var calls := EnvelopeCalls(oldest, eids);
    var j := 0;
    while j < |eids|
      invariant 0 <= j <= |eids|
      invariant s.Snapshot() == start.(chk := s.chk)
      invariant RunCalls(s.rollups, start, calls) == RunCalls(s.rollups, s.Snapshot(), calls[j..])
    {
      RunCallsStep(s.rollups, s.Snapshot(), calls, j);
      var e := s.UpdateEnvelopeSummaries(oldest, eids[j]);
      if e.Some? {
        return e;
      }
      j := j + 1;
    }
    err := None;
  }

  /** The loop over aids calling updateAccountSummaries, up to the first failure. */
  method AccountRollupLoop(s: SQLite, oldest: BCDate, aids: seq<PKEY>) returns (err: Option<Error>)
    modifies s
    ensures var out := RunCalls(s.rollups, old(s.Snapshot()), AccountCalls(oldest, aids));
      (err.None? ==> out == Completed(s.chk) && s.Snapshot() == old(s.Snapshot()).(chk := s.chk)) &&
      (err.Some? ==> out.Stopped? && out.at.AccountRollup? && out.err == err.value)
  {
    var start := s.Snapshot();
    var calls := AccountCalls(oldest, aids);
    var j := 0;
    while j < |aids|
      invariant 0 <= j <= |aids|
      invariant s.Snapshot() == start.(chk := s.chk)
      invariant RunCalls(s.rollups, start, calls) == RunCalls(s.rollups, s.Snapshot(), calls[j..])
    {
      RunCallsStep(s.rollups, s.Snapshot(), calls, j);
      var e := s.UpdateAccountSummaries(oldest, aids[j]);
      if e.Some? {
        return e;
      }
      j := j + 1;
    }
    err := None;
  }

  /** The single updateSummaries call. */
  method OverallRollupStep(s: SQLite, oldest: BCDate) returns (err: Option<Error>)
    modifies s
    ensures var out := RunCalls(s.rollups, old(s.Snapshot()), [OverallRollup(oldest)]);
      (err.None? ==> out == Completed(s.chk) && s.Snapshot() == old(s.Snapshot()).(chk := s.chk)) &&
      (err.Some? ==> out.Stopped? && out.at.OverallRollup? && out.err == err.value)
  {
    RunCallsStep(s.rollups, s.Snapshot(), [OverallRollup(oldest)], 0);
    err := s.UpdateSummaries(oldest);
  }

  /** Batch_NewAccountTransaction over the store s. */
  method BatchNewAccountTransaction(s: SQLite, ats: seq<AccountTransaction>, year: nat, month: nat, faults: Faults)
    returns (err: Option<Error>)
    requires 1 <= month <= 12
    modifies s
    ensures (s.Snapshot(), err) == AccountBatch(s.rollups, old(s.Snapshot()), ats, CurrentMonth(year, month), faults)
  {
    if faults.begin {
      return Some(Wrapped(AccountOp + ".Begin", StoreFailure));
    }
    var before := s.Snapshot();
    var ok, aids, eids, oldest := InsertAccountLoop(s, ats, CurrentMonth(year, month), faults.insertAt);
    if !ok {
      s.Restore(before);
      return Some(Wrapped(AccountOp + ".Insert.a_t.Scan", StoreFailure));
    }
    var inserted := s.Snapshot();
    ghost var es, as_ := EnvelopeCalls(oldest, eids), AccountCalls(oldest, aids);
    assert AccountBatchCalls(ats, oldest) == es + (as_ + [OverallRollup(oldest)]);
    RunCallsAppend(s.rollups, inserted, es, as_ + [OverallRollup(oldest)]);
    var e := EnvelopeRollupLoop(s, oldest, eids);
    if e.Some? {
      s.Restore(before);
      return Some(Wrapped(AccountOp + ".updateEnvelopeSummaries", e.value));
    }
    var afterEnvelopes := s.Snapshot();
    RunCallsAppend(s.rollups, afterEnvelopes, as_, [OverallRollup(oldest)]);
    e := AccountRollupLoop(s, oldest, aids);
    if e.Some? {
      s.Restore(before);
      return Some(Wrapped(AccountOp + ".updateAccountSummaries", e.value));
    }
    e := OverallRollupStep(s, oldest);
    if e.Some? {
      s.Restore(before);
      return Some(Wrapped(AccountOp + ".updateSummaries", e.value));
    }
    if faults.commit {
      s.Restore(before);
      return Some(Wrapped(AccountOp + ".Commit", StoreFailure));
    }
    err := None;
  }

  /** Batch_NewEnvelopeTransaction over the store s. */
  method BatchNewEnvelopeTransaction(s: SQLite, ets: seq<EnvelopeTransaction>, year: nat, month: nat, faults: Faults)
    returns (err: Option<Error>)
    requires 1 <= month <= 12
    modifies s
    ensures (s.Snapshot(), err) == EnvelopeBatch(s.rollups, old(s.Snapshot()), ets, CurrentMonth(year, month), faults)
  {
    if faults.begin {
      return Some(Wrapped(EnvelopeOp + ".Begin", StoreFailure));
    }
    var before := s.Snapshot();
    var ok, eids, oldest := InsertEnvelopeLoop(s, ets, CurrentMonth(year, month), faults.insertAt);
    if !ok {
      s.Restore(before);
      return Some(Wrapped(EnvelopeOp + ".Insert.a_t.Scan", StoreFailure));
    }
    var inserted := s.Snapshot();
    RunCallsAppend(s.rollups, inserted, EnvelopeCalls(oldest, eids), [OverallRollup(oldest)]);
    var e := EnvelopeRollupLoop(s, oldest, eids);
    if e.Some? {
      s.Restore(before);
      return Some(Wrapped(EnvelopeOp + ".updateEnvelopeSummaries", e.value));
    }
    e := OverallRollupStep(s, oldest);
    if e.Some? {
      s.Restore(before);
      return Some(Wrapped(EnvelopeOp + ".updateSummaries", e.value));
    }
    if faults.commit {
      s.Restore(before);
      return Some(Wrapped(EnvelopeOp + ".Commit", StoreFailure));
    }
    err := None;
  }
}
