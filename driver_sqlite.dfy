/** The SQLite driver of the budget store, over in-memory tables: the entity tables
    a, e_grp and e, the transaction ledgers a_t and e_t, and the checkpoint tables
    a_chk, e_chk and the overall one. SQL text, row scanning and the driver's own
    failures are not modelled; the checkpoint lookups are the queries the driver
    issues, stated over the rows. The checkpoint rollups are not among the program's
    files: the store is given them as functions that may fail. */
module SQLiteDriver {
  import opened Wrappers
  import opened BCDate
  import opened Model

  /** A row of the overall checkpoint table. */
  datatype OverallCheckpoint = OverallCheckpoint(month: BCDate, summary: Summary)

  /** The three checkpoint tables the rollups rewrite. */
  datatype Checkpoints = Checkpoints(
    accountChk: seq<AccountSummary>,
    envelopeChk: seq<EnvelopeSummary>,
    overallChk: seq<OverallCheckpoint>)

  /** Everything the store holds. The next-id counters stand for the ids SQLite
      assigns to inserted transactions. */
  datatype State = State(
    accounts: seq<Account>,
    groups: seq<EnvelopeGroup>,
    envelopes: seq<Envelope>,
    accountTxns: seq<AccountTransaction>,
    envelopeTxns: seq<EnvelopeTransaction>,
    nextAccountTxnID: PKEY,
    nextEnvelopeTxnID: PKEY,
    chk: Checkpoints)

  /** The store after one INSERT ... RETURNING ID of an account transaction. */
  function AddAccountTxn(st: State, at: AccountTransaction): State
  {
    st.(accountTxns := st.accountTxns + [at.(id := st.nextAccountTxnID)], nextAccountTxnID := st.nextAccountTxnID + 1)
  }

  function AddEnvelopeTxn(st: State, et: EnvelopeTransaction): State
  {
    st.(envelopeTxns := st.envelopeTxns + [et.(id := st.nextEnvelopeTxnID)], nextEnvelopeTxnID := st.nextEnvelopeTxnID + 1)
  }

  /** What a rollup leaves behind: the rewritten checkpoints, or an error together with
      whatever it had written before failing (which the surrounding database
      transaction must undo). */
  datatype RollupResult = Done(chk: Checkpoints) | Failed(err: Error, chk: Checkpoints)

  /** updateEnvelopeSummaries(tx, from, id), updateAccountSummaries(tx, from, id) and
      updateSummaries(tx, from): each reads the store and recomputes checkpoints from
      the month `from` on. */
  datatype Rollups = Rollups(
    envelope: (State, BCDate, PKEY) -> RollupResult,
    account: (State, BCDate, PKEY) -> RollupResult,
    overall: (State, BCDate) -> RollupResult)

  /** The row "SELECT ... WHERE month <= ? AND <id column> = ? ORDER BY month DESC
      LIMIT 1" returns: a row of the owner with the greatest month not after the
      requested one. Among rows sharing that month the later one is returned. */
  function LatestAtOrBefore<R>(rows: seq<R>, owner: R -> PKEY, monthOf: R -> BCDate, id: PKEY, month: BCDate): (r: Option<R>)
    ensures r.Some? ==> r.value in rows && owner(r.value) == id && monthOf(r.value) <= month
    ensures r.Some? ==> forall k :: 0 <= k < |rows| && owner(rows[k]) == id && monthOf(rows[k]) <= month ==>
      monthOf(rows[k]) <= monthOf(r.value)
    ensures r.None? <==> forall k :: 0 <= k < |rows| ==> !(owner(rows[k]) == id && monthOf(rows[k]) <= month)
  {
    if rows == [] then None
    else
      var rest := LatestAtOrBefore(rows[1..], owner, monthOf, id, month);
      assert forall k :: 1 <= k < |rows| ==> rows[k] == rows[1..][k - 1];
      var head := rows[0];
      if owner(head) == id && monthOf(head) <= month && (rest.None? || monthOf(rest.value) < monthOf(head))
      then Some(head)
      else rest
  }

  /** Asking for a later month never gives an earlier checkpoint. */
  lemma LatestIsMonotone<R>(rows: seq<R>, owner: R -> PKEY, monthOf: R -> BCDate, id: PKEY, m1: BCDate, m2: BCDate)
    requires m1 <= m2
    ensures var r1, r2 := LatestAtOrBefore(rows, owner, monthOf, id, m1), LatestAtOrBefore(rows, owner, monthOf, id, m2);
      (r1.Some? ==> r2.Some? && monthOf(r1.value) <= monthOf(r2.value))
  {
    var r1 := LatestAtOrBefore(rows, owner, monthOf, id, m1);
    if r1.Some? {
      var k :| 0 <= k < |rows| && rows[k] == r1.value;
    }
  }

  /** A checkpoint found for a later month that is itself not after an earlier
      requested month is also the one found for that earlier month, month for month. */
  lemma LatestIsStable<R>(rows: seq<R>, owner: R -> PKEY, monthOf: R -> BCDate, id: PKEY, m1: BCDate, m2: BCDate)
    requires m1 <= m2
    requires var r2 := LatestAtOrBefore(rows, owner, monthOf, id, m2); r2.Some? && monthOf(r2.value) <= m1
    ensures var r1, r2 := LatestAtOrBefore(rows, owner, monthOf, id, m1), LatestAtOrBefore(rows, owner, monthOf, id, m2);
      r1.Some? && monthOf(r1.value) == monthOf(r2.value)
  {
    var r2 := LatestAtOrBefore(rows, owner, monthOf, id, m2);
    var k :| 0 <= k < |rows| && rows[k] == r2.value;
    LatestIsMonotone(rows, owner, monthOf, id, m1, m2);
  }

  function AccountOf(s: AccountSummary): PKEY { s.accountID }
  function AccountMonth(s: AccountSummary): BCDate { s.month }
  function EnvelopeOf(s: EnvelopeSummary): PKEY { s.envelopeID }
  function EnvelopeMonth(s: EnvelopeSummary): BCDate { s.month }

  /** The envelopes of a group, in table order. */
  function EnvelopesInGroup(envelopes: seq<Envelope>, id: PKEY): (es: seq<Envelope>)
    ensures |es| <= |envelopes|
    ensures forall e :: e in es <==> e in envelopes && e.groupID == id
  {
    if envelopes == [] then []
    else
      var rest := EnvelopesInGroup(envelopes[1..], id);
      assert forall e :: e in envelopes <==> e == envelopes[0] || e in envelopes[1..];
      if envelopes[0].groupID == id then [envelopes[0]] + rest else rest
  }

  /** Filtering a table extended by one row. */
  lemma {:induction false} EnvelopesInGroupAppend(envelopes: seq<Envelope>, e: Envelope, id: PKEY)
    ensures EnvelopesInGroup(envelopes + [e], id) ==
      EnvelopesInGroup(envelopes, id) + (if e.groupID == id then [e] else [])
    decreases |envelopes|
  {
    if envelopes == [] {
      assert envelopes + [e] == [e];
    } else {
      assert (envelopes + [e])[1..] == envelopes[1..] + [e];
      EnvelopesInGroupAppend(envelopes[1..], e, id);
    }
  }

  /** The store. Its fields are the tables; every method that changes a table says so
      with a modifies clause. */
  class SQLite {
    var accounts: seq<Account>
    var groups: seq<EnvelopeGroup>
    var envelopes: seq<Envelope>
    var accountTxns: seq<AccountTransaction>
    var envelopeTxns: seq<EnvelopeTransaction>
    var nextAccountTxnID: PKEY
    var nextEnvelopeTxnID: PKEY
    var chk: Checkpoints
    const rollups: Rollups

    /** A store opened on the given tables, with the given rollup routines. */
    constructor (st: State, rollups: Rollups)
      ensures Snapshot() == st && this.rollups == rollups
    {
      accounts, groups, envelopes := st.accounts, st.groups, st.envelopes;
      accountTxns, envelopeTxns := st.accountTxns, st.envelopeTxns;
      nextAccountTxnID, nextEnvelopeTxnID := st.nextAccountTxnID, st.nextEnvelopeTxnID;
      chk := st.chk;
      this.rollups := rollups;
    }

    /** The whole store as a value. */
    function Snapshot(): State
      reads this
    {
      State(accounts, groups, envelopes, accountTxns, envelopeTxns, nextAccountTxnID, nextEnvelopeTxnID, chk)
    }

    /** Puts back a snapshot: the effect of rolling back a database transaction. */
    method Restore(st: State)
      modifies this
      ensures Snapshot() == st
    {
      accounts, groups, envelopes := st.accounts, st.groups, st.envelopes;
      accountTxns, envelopeTxns := st.accountTxns, st.envelopeTxns;
      nextAccountTxnID, nextEnvelopeTxnID := st.nextAccountTxnID, st.nextEnvelopeTxnID;
      chk := st.chk;
    }

    /** SQLite.GetAccounts: every row of the account table, in table order. */
    method GetAccounts() returns (accts: seq<Account>)
      ensures accts == accounts
    {
      accts := [];
      var i := 0;
      while i < |accounts|
        invariant 0 <= i <= |accounts|
        invariant accts == accounts[..i]
      {
        accts := accts + [accounts[i]];
        i := i + 1;
      }
    }

    /** SQLite.GetEnvelopeGroups: every row of the group table, in table order. */
    method GetEnvelopeGroups() returns (egs: seq<EnvelopeGroup>)
      ensures egs == groups
    {
      egs := [];
      var i := 0;
      while i < |groups|
        invariant 0 <= i <= |groups|
        invariant egs == groups[..i]
      {
        egs := egs + [groups[i]];
        i := i + 1;
      }
    }

    /** SQLite.GetEnvelopesInGroup: exactly the envelopes whose group is id, in table order. */
    method GetEnvelopesInGroup(id: PKEY) returns (es: seq<Envelope>)
      ensures es == EnvelopesInGroup(envelopes, id)
      ensures forall e :: e in es <==> e in envelopes && e.groupID == id
    {
      es := [];
      var i := 0;
      while i < |envelopes|
        invariant 0 <= i <= |envelopes|
        invariant es == EnvelopesInGroup(envelopes[..i], id)
      {
        EnvelopesInGroupAppend(envelopes[..i], envelopes[i], id);
        assert envelopes[..i + 1] == envelopes[..i] + [envelopes[i]];
        if envelopes[i].groupID == id {
          es := es + [envelopes[i]];
        }
        i := i + 1;
      }
      assert envelopes[..i] == envelopes;
    }

    /** SQLite.GetAccountSummary: the latest account checkpoint at or before month,
        or an error when the account has none. */
    function GetAccountSummary(month: BCDate, id: PKEY): (r: Result<AccountSummary, Error>)
      reads this
      ensures r.Success? ==> r.value in chk.accountChk && r.value.accountID == id && r.value.month <= month
      ensures r.Success? ==> forall k :: 0 <= k < |chk.accountChk| && chk.accountChk[k].accountID == id && chk.accountChk[k].month <= month ==>
        chk.accountChk[k].month <= r.value.month
      ensures r.Failure? <==> forall k :: 0 <= k < |chk.accountChk| ==> !(chk.accountChk[k].accountID == id && chk.accountChk[k].month <= month)
      ensures r.Failure? ==> r.error == Wrapped("GetAccountSummary", NoRows)
    {
      match LatestAtOrBefore(chk.accountChk, AccountOf, AccountMonth, id, month)
      case Some(row) => Success(row)
      case None => Failure(Wrapped("GetAccountSummary", NoRows))
    }

    /** SQLite.GetEnvelopeSummary: the same lookup over the envelope checkpoints. */
    function GetEnvelopeSummary(month: BCDate, id: PKEY): (r: Result<EnvelopeSummary, Error>)
      reads this
      ensures r.Success? ==> r.value in chk.envelopeChk && r.value.envelopeID == id && r.value.month <= month
      ensures r.Success? ==> forall k :: 0 <= k < |chk.envelopeChk| && chk.envelopeChk[k].envelopeID == id && chk.envelopeChk[k].month <= month ==>
        chk.envelopeChk[k].month <= r.value.month
      ensures r.Failure? <==> forall k :: 0 <= k < |chk.envelopeChk| ==> !(chk.envelopeChk[k].envelopeID == id && chk.envelopeChk[k].month <= month)
      ensures r.Failure? ==> r.error == Wrapped("GetEnvelopeSummary", NoRows)
    {
      match LatestAtOrBefore(chk.envelopeChk, EnvelopeOf, EnvelopeMonth, id, month)
      case Some(row) => Success(row)
      case None => Failure(Wrapped("GetEnvelopeSummary", NoRows))
    }

    /** Both lookups are monotone in the requested month. */
    lemma SummariesAreMonotone(m1: BCDate, m2: BCDate, id: PKEY)
      requires m1 <= m2
      ensures GetAccountSummary(m1, id).Success? ==>
        GetAccountSummary(m2, id).Success? && GetAccountSummary(m1, id).value.month <= GetAccountSummary(m2, id).value.month
      ensures GetEnvelopeSummary(m1, id).Success? ==>
        GetEnvelopeSummary(m2, id).Success? && GetEnvelopeSummary(m1, id).value.month <= GetEnvelopeSummary(m2, id).value.month
    {
      LatestIsMonotone(chk.accountChk, AccountOf, AccountMonth, id, m1, m2);
      LatestIsMonotone(chk.envelopeChk, EnvelopeOf, EnvelopeMonth, id, m1, m2);
    }

    /** The rollup routines, run against the current store; each replaces the
        checkpoint tables with what the routine wrote, and reports its error. */
    method UpdateEnvelopeSummaries(from: BCDate, id: PKEY) returns (err: Option<Error>)
      modifies this`chk
      ensures var r := rollups.envelope(old(Snapshot()), from, id);
        chk == r.chk && err == (if r.Failed? then Some(r.err) else None)
    {
      var r := rollups.envelope(Snapshot(), from, id);
      chk := r.chk;
      err := if r.Failed? then Some(r.err) else None;
    }

    method UpdateAccountSummaries(from: BCDate, id: PKEY) returns (err: Option<Error>)
      modifies this`chk
      ensures var r := rollups.account(old(Snapshot()), from, id);
        chk == r.chk && err == (if r.Failed? then Some(r.err) else None)
    {
      var r := rollups.account(Snapshot(), from, id);
      chk := r.chk;
      err := if r.Failed? then Some(r.err) else None;
    }

    method UpdateSummaries(from: BCDate) returns (err: Option<Error>)
      modifies this`chk
      ensures var r := rollups.overall(old(Snapshot()), from);
        chk == r.chk && err == (if r.Failed? then Some(r.err) else None)
    {
      var r := rollups.overall(Snapshot(), from);
      chk := r.chk;
      err := if r.Failed? then Some(r.err) else None;
    }

    /** Inserts an account transaction with the next id, as INSERT ... RETURNING ID does. */
    method InsertAccountTransaction(at: AccountTransaction) returns (id: PKEY)
      modifies this`accountTxns, this`nextAccountTxnID
      ensures id == old(nextAccountTxnID) && nextAccountTxnID == id + 1
      ensures accountTxns == old(accountTxns) + [at.(id := id)]
      ensures Snapshot() == AddAccountTxn(old(Snapshot()), at)
    {
      id := nextAccountTxnID;
      accountTxns := accountTxns + [at.(id := id)];
      nextAccountTxnID := id + 1;
    }

    method InsertEnvelopeTransaction(et: EnvelopeTransaction) returns (id: PKEY)
      modifies this`envelopeTxns, this`nextEnvelopeTxnID
      ensures id == old(nextEnvelopeTxnID) && nextEnvelopeTxnID == id + 1
      ensures envelopeTxns == old(envelopeTxns) + [et.(id := id)]
      ensures Snapshot() == AddEnvelopeTxn(old(Snapshot()), et)
    {
      id := nextEnvelopeTxnID;
      envelopeTxns := envelopeTxns + [et.(id := id)];
      nextEnvelopeTxnID := id + 1;
    }

    /** The unimplemented mutators: each returns an error and, having no modifies
        clause, leaves every table as it was. */
    method NewAccount(a: Account, startingBal: int) returns (err: Error)
      ensures err == NotImplemented
    {
      err := NotImplemented;
    }

    method UpdateAccount(a: Account) returns (err: Error)
      ensures err == NotImplemented
    {
      err := NotImplemented;
    }

    method DeleteAccount(id: PKEY) returns (err: Error)
      ensures err == NotImplemented
    {
      err := NotImplemented;
    }

    method SetStartingBalance(id: PKEY, balance: int) returns (err: Error)
      ensures err == NotImplemented
    {
      err := NotImplemented;
    }

    method NewEnvelopeGroup(eg: EnvelopeGroup) returns (err: Error)
      ensures err == NotImplemented
    {
      err := NotImplemented;
    }

    method UpdateEnvelopeGroup(eg: EnvelopeGroup) returns (err: Error)
      ensures err == NotImplemented
    {
      err := NotImplemented;
    }

    method DeleteEnvelopeGroup(id: PKEY) returns (err: Error)
      ensures err == NotImplemented
    {
      err := NotImplemented;
    }

    method NewEnvelope(e: Envelope) returns (err: Error)
      ensures err == NotImplemented
    {
      err := NotImplemented;
    }

    method UpdateEnvelope(e: Envelope) returns (err: Error)
      ensures err == NotImplemented
    {
      err := NotImplemented;
    }

    method DeleteEnvelope(id: PKEY) returns (err: Error)
      ensures err == NotImplemented
    {
      err := NotImplemented;
    }

    method UpdateTransaction(at: AccountTransaction) returns (err: Error)
      ensures err == NotImplemented
    {
      err := NotImplemented;
    }

    method NewAccountTransaction(at: AccountTransaction) returns (err: Error)
      ensures err == NotImplemented
    {
      err := NotImplemented;
    }

    method NewEnvelopeTransaction(et: EnvelopeTransaction) returns (err: Error)
      ensures err == NotImplemented
    {
      err := NotImplemented;
    }

    method DeleteAccountTransaction(id: PKEY) returns (err: Error)
      ensures err == NotImplemented
    {
      err := NotImplemented;
    }

    method DeleteEnvelopeTransaction(id: PKEY) returns (err: Error)
      ensures err == NotImplemented
    {
      err := NotImplemented;
    }

    /** The unimplemented readers: an empty list together with an error. */
    method GetEnvelopes() returns (es: seq<Envelope>, err: Error)
      ensures es == [] && err == NotImplemented
    {
      es, err := [], NotImplemented;
    }

    method GetAllTransactions(month: BCDate) returns (ats: seq<AccountTransaction>, err: Error)
      ensures ats == [] && err == NotImplemented
    {
      ats, err := [], NotImplemented;
    }

    method GetAllAccountTransactions(id: PKEY) returns (ats: seq<AccountTransaction>, err: Error)
      ensures ats == [] && err == NotImplemented
    {
      ats, err := [], NotImplemented;
    }

    method GetAllEnvelopeTransactions(id: PKEY) returns (ets: seq<EnvelopeTransaction>, err: Error)
      ensures ets == [] && err == NotImplemented
    {
      ets, err := [], NotImplemented;
    }

    method GetAccountTransactions(month: BCDate, id: PKEY) returns (ats: seq<AccountTransaction>, err: Error)
      ensures ats == [] && err == NotImplemented
    {
      ats, err := [], NotImplemented;
    }

    method GetEnvelopeTransactions(month: BCDate, id: PKEY) returns (ets: seq<EnvelopeTransaction>, err: Error)
      ensures ets == [] && err == NotImplemented
    {
      ets, err := [], NotImplemented;
    }

    /** SQLite.GetOverallSummary: not implemented; an empty summary and an error. */
    method GetOverallSummary(month: BCDate) returns (s: Summary, err: Error)
      ensures s == Summary(0, 0, 0, 0, 0) && err == NotImplemented
    {
      s, err := Summary(0, 0, 0, 0, 0), NotImplemented;
    }
  }
}
