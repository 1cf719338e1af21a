/** The main routine of the Buckets import tool (tools/buckets_to_db/main.go): the loops
    that hand the converted groups, accounts and envelopes to the store and remember
    the ids it assigns, the loops that collect the transactions, the two batch inserts,
    and the starting-balance correction. Each query's rows are given in the order the
    query returns them. The store calls that create a record and the debt-envelope
    lookup are given by their outcomes; the batch inserts and the summary lookups are
    the store's own. A log.Fatalf exit is a Failure result. */
module BucketsToDB {
  import opened Wrappers
  import opened BCDate
  import opened Model
  import opened SQLiteDriver
  import opened ImportRules
  import opened Loops
  import Batch

  /** Groups and envelopes get the sort values 100, 200, 300, ... in query order. */
  function SortFor(k: nat): int
  {
    100 * (k + 1)
  }

  function GroupRecord(row: GroupRow, k: nat): EnvelopeGroup
  {
    EnvelopeGroup(0, row.name, SortFor(k))
  }

  function GroupWithID(g: EnvelopeGroup, id: PKEY): EnvelopeGroup
  {
    g.(id := id)
  }

  function GroupRowID(row: GroupRow): int
  {
    row.id
  }

  /** The bucket_group loop: each group goes to the store with the next sort value,
      and eg_map remembers its new id. */
  method MigrateGroups(rows: seq<GroupRow>, created: seq<Result<PKEY, Error>>)
    returns (r: Result<Created<EnvelopeGroup>, Error>)
    requires |created| == |rows|
    ensures r == Context("Failed to add new EnvelopeGroup", CreateAll(rows, created, GroupRecord, GroupWithID, GroupRowID))
  {
    var egMap: map<int, PKEY> := map[];
    var groups: seq<EnvelopeGroup> := [];
    var sortcounter := 100;
    var i := 0;
    while i < |rows|
      invariant 0 <= i <= |rows|
      invariant sortcounter == SortFor(i)
      invariant CreateAll(rows[..i], created[..i], GroupRecord, GroupWithID, GroupRowID) == Success(Created(groups, egMap))
    {
      var neg := EnvelopeGroup(0, rows[i].name, sortcounter);
      if created[i].Failure? {
        CreateStopsAt(rows, created, GroupRecord, GroupWithID, GroupRowID, i);
        return Failure(Wrapped("Failed to add new EnvelopeGroup", created[i].error));
      }
      CreateStep(rows, created, GroupRecord, GroupWithID, GroupRowID, i);
      neg := neg.(id := created[i].value);
      sortcounter := sortcounter + 100;
      groups := groups + [neg];
      egMap := egMap[rows[i].id := neg.id];
      i := i + 1;
    }
    assert rows[..i] == rows && created[..i] == created;
    return Success(Created(groups, egMap));
  }

  function AccountRecord(row: AccountRow, k: nat): Account
  {
    ConvertAccount(row)
  }

  function AccountWithID(a: Account, id: PKEY): Account
  {
    a.(id := id)
  }

  function AccountRowID(row: AccountRow): int
  {
    row.id
  }

  /** The entries new account id to Buckets balance. */
  function BalanceEntries(accounts: seq<Account>, rows: seq<AccountRow>): (es: seq<(int, int)>)
    requires |accounts| == |rows|
    ensures |es| == |rows| && forall k :: 0 <= k < |rows| ==> es[k] == (accounts[k].id, rows[k].balance)
  {
    seq(|rows|, k requires 0 <= k < |rows| => (accounts[k].id, rows[k].balance))
  }

  /** What the account loop produced: the accounts and a_map, and a_bal_map from each
      new id to the Buckets balance. */
  datatype AccountsDone = AccountsDone(created: Created<Account>, balances: map<PKEY, int>)

  function MigrateAccountsSpec(rows: seq<AccountRow>, created: seq<Result<PKEY, Error>>): Result<AccountsDone, Error>
    requires |created| == |rows|
  {
    match Context("Failed to add new Account", CreateAll(rows, created, AccountRecord, AccountWithID, AccountRowID))
    case Failure(e) => Failure(e)
    case Success(c) => Success(AccountsDone(c, Remap(BalanceEntries(c.records, rows))))
  }

  /** The balance entries of a successful account loop pair each store id with its row's
      balance. */
  lemma AccountBalanceEntries(rows: seq<AccountRow>, created: seq<Result<PKEY, Error>>)
    requires |created| == |rows|
    requires CreateAll(rows, created, AccountRecord, AccountWithID, AccountRowID).Success?
    ensures var c := CreateAll(rows, created, AccountRecord, AccountWithID, AccountRowID).value;
      |c.records| == |rows| &&
      forall k :: 0 <= k < |rows| ==> created[k].Success? && BalanceEntries(c.records, rows)[k] == (created[k].value, rows[k].balance)
  {
    CreateAllFacts(rows, created, AccountRecord, AccountWithID, AccountRowID);
  }

  /** a_bal_map sends the new id of each account to its Buckets balance (when the store
      gave that id only once). */
  lemma AccountBalancesRemembered(rows: seq<AccountRow>, created: seq<Result<PKEY, Error>>, j: nat)
    requires |created| == |rows| && j < |rows|
    requires MigrateAccountsSpec(rows, created).Success?
    requires forall l :: j < l < |rows| ==> created[l] != created[j]
    ensures var d := MigrateAccountsSpec(rows, created).value;
      created[j].value in d.balances && d.balances[created[j].value] == rows[j].balance
  {
    var c := CreateAll(rows, created, AccountRecord, AccountWithID, AccountRowID).value;
    AccountBalanceEntries(rows, created);
    var es := BalanceEntries(c.records, rows);
    assert es[j] == (created[j].value, rows[j].balance);
    forall l | j < l < |rows|
      ensures es[l].0 != es[j].0
    {
      assert es[l].0 == created[l].value;
    }
    RemapLast(es, j);
    assert MigrateAccountsSpec(rows, created).value.balances == Remap(es);
  }

  lemma BalancesStep(accounts: seq<Account>, rows: seq<AccountRow>, na: Account, i: nat)
    requires |accounts| == i < |rows|
    ensures Remap(BalanceEntries(accounts + [na], rows[..i + 1])) == Remap(BalanceEntries(accounts, rows[..i]))[na.id := rows[i].balance]
  {
    var es := BalanceEntries(accounts + [na], rows[..i + 1]);
    assert rows[..i + 1][..i] == rows[..i];
    assert es[..i] == BalanceEntries(accounts, rows[..i]);
    RemapStep(es, i);
  }

  /** One pass of the account loop, when the store accepted the account. */
  lemma AccountLoopStep(rows: seq<AccountRow>, created: seq<Result<PKEY, Error>>, accounts: seq<Account>, aMap: map<int, PKEY>, i: nat)
    requires |created| == |rows| && i < |rows| && created[i].Success?
    requires CreateAll(rows[..i], created[..i], AccountRecord, AccountWithID, AccountRowID) == Success(Created(accounts, aMap))
    ensures |accounts| == i
    ensures var na := ConvertAccount(rows[i]).(id := created[i].value);
      CreateAll(rows[..i + 1], created[..i + 1], AccountRecord, AccountWithID, AccountRowID) ==
        Success(Created(accounts + [na], aMap[rows[i].id := na.id])) &&
      Remap(BalanceEntries(accounts + [na], rows[..i + 1])) == Remap(BalanceEntries(accounts, rows[..i]))[na.id := rows[i].balance]
  {
    CreateStep(rows, created, AccountRecord, AccountWithID, AccountRowID, i);
    BalancesStep(accounts, rows, ConvertAccount(rows[i]).(id := created[i].value), i);
  }

  /** The account loop: each converted account goes to the store, a_map remembers its
      new id and a_bal_map its Buckets balance. The loop also steps a sort counter that
      nothing reads. */
  method MigrateAccounts(rows: seq<AccountRow>, created: seq<Result<PKEY, Error>>)
    returns (r: Result<AccountsDone, Error>)
    requires |created| == |rows|
    ensures r == MigrateAccountsSpec(rows, created)
  {
    var aMap: map<int, PKEY> := map[];
    var aBalMap: map<PKEY, int> := map[];
    var accounts: seq<Account> := [];
    var sortcounter := 100;
    var i := 0;
    while i < |rows|
      invariant 0 <= i <= |rows|
      invariant sortcounter == SortFor(i)
      invariant CreateAll(rows[..i], created[..i], AccountRecord, AccountWithID, AccountRowID) == Success(Created(accounts, aMap))
      invariant aBalMap == Remap(BalanceEntries(accounts, rows[..i]))
    {
      var na := ConvertAccount(rows[i]);
      if created[i].Failure? {
        CreateStopsAt(rows, created, AccountRecord, AccountWithID, AccountRowID, i);
        return Failure(Wrapped("Failed to add new Account", created[i].error));
      }
      AccountLoopStep(rows, created, accounts, aMap, i);
      na := na.(id := created[i].value);
      sortcounter := sortcounter + 100;
      accounts := accounts + [na];
      aMap := aMap[rows[i].id := na.id];
      aBalMap := aBalMap[na.id := rows[i].balance];
      i := i + 1;
    }
    assert rows[..i] == rows && created[..i] == created;
    return Success(AccountsDone(Created(accounts, aMap), aBalMap));
  }

  function EnvelopeBuilder(egMap: map<int, PKEY>): (BucketRow, nat) -> Envelope
  {
    (row: BucketRow, k: nat) => ConvertBucket(row, egMap, SortFor(k))
  }

  function EnvelopeWithID(e: Envelope, id: PKEY): Envelope
  {
    e.(id := id)
  }

  function BucketRowID(row: BucketRow): int
  {
    row.id
  }

  /** The bucket loop: each converted envelope goes to the store with the next sort
      value, and e_map remembers its new id. */
  method MigrateEnvelopes(rows: seq<BucketRow>, egMap: map<int, PKEY>, created: seq<Result<PKEY, Error>>)
    returns (r: Result<Created<Envelope>, Error>)
    requires |created| == |rows|
    ensures r == Context("Failed to add new Envelope", CreateAll(rows, created, EnvelopeBuilder(egMap), EnvelopeWithID, BucketRowID))
  {
    var eMap: map<int, PKEY> := map[];
    var envelopes: seq<Envelope> := [];
    var sortcounter := 100;
    var i := 0;
    while i < |rows|
      invariant 0 <= i <= |rows|
      invariant sortcounter == SortFor(i)
      invariant CreateAll(rows[..i], created[..i], EnvelopeBuilder(egMap), EnvelopeWithID, BucketRowID) == Success(Created(envelopes, eMap))
    {
      var ne := ConvertBucket(rows[i], egMap, sortcounter);
      if created[i].Failure? {
        CreateStopsAt(rows, created, EnvelopeBuilder(egMap), EnvelopeWithID, BucketRowID, i);
        return Failure(Wrapped("Failed to add new Envelope", created[i].error));
      }
      CreateStep(rows, created, EnvelopeBuilder(egMap), EnvelopeWithID, BucketRowID, i);
      ne := ne.(id := created[i].value);
      sortcounter := sortcounter + 100;
      envelopes := envelopes + [ne];
      eMap := eMap[rows[i].id := ne.id];
      i := i + 1;
    }
    assert rows[..i] == rows && created[..i] == created;
    return Success(Created(envelopes, eMap));
  }

  // Debt envelopes

  function DebtRowID(row: DebtBucketRow): int
  {
    row.id
  }

  /** The debt envelope looked up for each debt bucket, through the account remap table. */
  function DebtLookups(rows: seq<DebtBucketRow>, aMap: map<int, PKEY>, debtEnvelopeFor: PKEY -> Result<PKEY, Error>): (ls: seq<Result<PKEY, Error>>)
    ensures |ls| == |rows| && forall k :: 0 <= k < |rows| ==> ls[k] == debtEnvelopeFor(Lookup(aMap, rows[k].debtAccountID))
  {
    seq(|rows|, k requires 0 <= k < |rows| => debtEnvelopeFor(Lookup(aMap, rows[k].debtAccountID)))
  }

  /** The debt bucket loop: e_map gains, for each debt bucket, the id of the debt
      envelope of its account. */
  function MigrateDebtSpec(rows: seq<DebtBucketRow>, aMap: map<int, PKEY>, eMap: map<int, PKEY>, debtEnvelopeFor: PKEY -> Result<PKEY, Error>): Result<map<int, PKEY>, Error>
  {
    match Collect(DebtLookups(rows, aMap, debtEnvelopeFor))
    case Failure(e) => Failure(Wrapped("Failed to query debt envelope for account", e))
    case Success(ids) => Success(eMap + Remap(Entries(rows, DebtRowID, ids)))
  }

  /** The debt bucket loop stops at the first lookup that fails. Otherwise each debt
      bucket's id is sent to the debt envelope of its account, overriding the entry the
      bucket loop made for it, and every other entry of e_map stays. */
  lemma DebtEnvelopesRemembered(rows: seq<DebtBucketRow>, aMap: map<int, PKEY>, eMap: map<int, PKEY>, debtEnvelopeFor: PKEY -> Result<PKEY, Error>)
    ensures var r := MigrateDebtSpec(rows, aMap, eMap, debtEnvelopeFor);
      (r.Success? <==> forall k :: 0 <= k < |rows| ==> debtEnvelopeFor(Lookup(aMap, rows[k].debtAccountID)).Success?) &&
      (r.Success? ==> forall x :: x in r.value <==> x in eMap || exists j :: 0 <= j < |rows| && rows[j].id == x) &&
      (r.Success? ==> forall x :: x in eMap && (forall j :: 0 <= j < |rows| ==> rows[j].id != x) ==> r.value[x] == eMap[x]) &&
      (r.Success? ==> forall j :: 0 <= j < |rows| && (forall l :: j < l < |rows| ==> rows[l].id != rows[j].id) ==>
        r.value[rows[j].id] == debtEnvelopeFor(Lookup(aMap, rows[j].debtAccountID)).value)
  {
    var ls := DebtLookups(rows, aMap, debtEnvelopeFor);
    if Collect(ls).Success? {
      UnionRemapFacts(eMap, rows, DebtRowID, Collect(ls).value);
    }
  }

  method MigrateDebtEnvelopes(rows: seq<DebtBucketRow>, aMap: map<int, PKEY>, eMap: map<int, PKEY>, debtEnvelopeFor: PKEY -> Result<PKEY, Error>)
    returns (r: Result<map<int, PKEY>, Error>)
    ensures r == MigrateDebtSpec(rows, aMap, eMap, debtEnvelopeFor)
  {
    ghost var ls := DebtLookups(rows, aMap, debtEnvelopeFor);
    ghost var ids: seq<PKEY> := [];
    var m := eMap;
    var i := 0;
    while i < |rows|
      invariant 0 <= i <= |rows|
      invariant Collect(ls[..i]) == Success(ids)
      invariant m == eMap + Remap(Entries(rows[..i], DebtRowID, ids))
    {
      var ne := debtEnvelopeFor(Lookup(aMap, rows[i].debtAccountID));
      if ne.Failure? {
        CollectStopsAt(ls, i);
        return Failure(Wrapped("Failed to query debt envelope for account", ne.error));
      }
      CollectStep(ls, i);
      UnionRemapStep(eMap, rows, DebtRowID, ids, ne.value, i);
      m := m[rows[i].id := ne.value];
      ids := ids + [ne.value];
      i := i + 1;
    }
    assert rows[..i] == rows && ls[..i] == ls;
    return Success(m);
  }

  // Transactions

  /** Each joined account transaction row, converted with the tables the earlier loops
      filled. */
  function AccountTxnConverter(aMap: map<int, PKEY>, eMap: map<int, PKEY>): AccountTxnRow -> Result<AccountTransaction, Error>
  {
    (row: AccountTxnRow) => ConvertAccountTxn(row, aMap, eMap)
  }

  function BucketTxnConverter(eMap: map<int, PKEY>): BucketTxnRow -> Result<EnvelopeTransaction, Error>
  {
    (row: BucketTxnRow) => ConvertBucketTxn(row, eMap)
  }

  // Starting balances

  /** The balance of the latest checkpoint of an account at or before a month. */
  function LatestBalance(chk: Checkpoints, month: BCDate, aid: PKEY): Option<int>
  {
    match LatestAtOrBefore(chk.accountChk, AccountOf, AccountMonth, aid, month)
    case Some(row) => Some(row.bal)
    case None => None
  }

  /** The latest balance of each account the store holds for a month. */
  function LatestIn(chk: Checkpoints, month: BCDate): PKEY -> Option<int>
  {
    (aid: PKEY) => LatestBalance(chk, month, aid)
  }

  const NoCurrentSummary: Error := Wrapped("Failed to get current/latest account summary", Wrapped("GetAccountSummary", NoRows))

  /** The starting balance written for each imported account: its Buckets balance less
      the latest balance the store has computed; an account without any such balance
      stops the import. */
  function StartingBalancesSpec(latest: PKEY -> Option<int>, balances: map<PKEY, int>): (r: Result<map<PKEY, int>, Error>)
    ensures r.Success? <==> forall aid :: aid in balances ==> latest(aid).Some?
    ensures r.Failure? ==> r.error == NoCurrentSummary
    ensures r.Success? ==> r.value.Keys == balances.Keys
    ensures r.Success? ==> forall aid :: aid in balances ==> r.value[aid] + latest(aid).value == balances[aid]
  {
    if forall aid :: aid in balances ==> latest(aid).Some? then
      Success(map aid | aid in balances :: balances[aid] - latest(aid).value)
    else Failure(NoCurrentSummary)
  }

  lemma AllWritten(latest: PKEY -> Option<int>, balances: map<PKEY, int>, written: map<PKEY, int>)
    requires WrittenSoFar(latest, balances, written, {})
    ensures StartingBalancesSpec(latest, balances) == Success(written)
  {
    var r := StartingBalancesSpec(latest, balances);
    assert r.Success?;
    assert r.value.Keys == written.Keys;
    assert forall aid :: aid in written ==> r.value[aid] == written[aid];
    assert r.value == written;
  }

  /** Every account written so far holds its balance less its latest balance. */
  predicate WrittenSoFar(latest: PKEY -> Option<int>, balances: map<PKEY, int>, written: map<PKEY, int>, remaining: set<PKEY>)
  {
    remaining <= balances.Keys && written.Keys == balances.Keys - remaining &&
    forall aid :: aid in written ==> latest(aid).Some? && written[aid] == balances[aid] - latest(aid).value
  }

  lemma WrittenStep(latest: PKEY -> Option<int>, balances: map<PKEY, int>, written: map<PKEY, int>, remaining: set<PKEY>, aid: PKEY, bal: int)
    requires WrittenSoFar(latest, balances, written, remaining)
    requires aid in remaining && latest(aid) == Some(bal)
    ensures WrittenSoFar(latest, balances, written[aid := balances[aid] - bal], remaining - {aid})
  {
  }

  /** The a_bal_map loop. Go visits a map in no fixed order; any order gives the same
      result, since a failing lookup has the same error for every account. The store's
      answer to SetStartingBalance is not looked at. */
  method StartingBalances(s: SQLite, balances: map<PKEY, int>, month: BCDate) returns (r: Result<map<PKEY, int>, Error>)
    ensures r == StartingBalancesSpec(LatestIn(s.chk, month), balances)
  {
    ghost var latest := LatestIn(s.chk, month);
    var written: map<PKEY, int> := map[];
    var remaining := balances.Keys;
    while remaining != {}
      invariant WrittenSoFar(latest, balances, written, remaining)
      decreases |remaining|
    {
      var aid := Pick(remaining);
      var asum := s.GetAccountSummary(month, aid);
      if asum.Failure? {
        assert latest(aid).None?;
        return Failure(Wrapped("Failed to get current/latest account summary", asum.error));
      }
      WrittenStep(latest, balances, written, remaining, aid, asum.value.bal);
      var ignored := s.SetStartingBalance(aid, balances[aid] - asum.value.bal);
      written := written[aid := balances[aid] - asum.value.bal];
      remaining := remaining - {aid};
    }
    AllWritten(latest, balances, written);
    return Success(written);
  }

  // The whole import

  /** The rows of a Buckets file, as each of the tool's queries returns them. */
  datatype BucketsFile = BucketsFile(
    groups: seq<GroupRow>,
    accounts: seq<AccountRow>,
    buckets: seq<BucketRow>,
    debtBuckets: seq<DebtBucketRow>,
    accountTxns: seq<AccountTxnRow>,
    debtTxns: seq<BucketTxnRow>,
    envelopeTxns: seq<BucketTxnRow>)

  /** The outcomes of the store calls the driver does not define here: the k-th
      NewEnvelopeGroup, NewAccount and NewEnvelope call, and GetDebtEnvelopeFor for an
      account; and the store faults of the two batch inserts. */
  datatype StoreOutcomes = StoreOutcomes(
    newGroups: seq<Result<PKEY, Error>>,
    newAccounts: seq<Result<PKEY, Error>>,
    newEnvelopes: seq<Result<PKEY, Error>>,
    debtEnvelopeFor: PKEY -> Result<PKEY, Error>,
    accountBatch: Batch.Faults,
    envelopeBatch: Batch.Faults)

  /** One outcome per store call the loops make. */
  predicate OutcomesFit(src: BucketsFile, out: StoreOutcomes)
  {
    |out.newGroups| == |src.groups| && |out.newAccounts| == |src.accounts| && |out.newEnvelopes| == |src.buckets|
  }

  /** What the loops hand to the batch inserts and to the starting-balance pass. */
  datatype Converted = Converted(accountTxns: seq<AccountTransaction>, envelopeTxns: seq<EnvelopeTransaction>, balances: map<PKEY, int>)

  /** What the creation loops leave for the transaction loops: a_map, e_map (with the
      debt envelopes merged in) and a_bal_map. */
  datatype Remapped = Remapped(aMap: map<int, PKEY>, eMap: map<int, PKEY>, balances: map<PKEY, int>)

  /** The group, account, bucket and debt-bucket loops, in program order, each fed with
      the tables the earlier ones filled. */
  function CreateRecords(src: BucketsFile, out: StoreOutcomes): Result<Remapped, Error>
    requires OutcomesFit(src, out)
  {
    match Context("Failed to add new EnvelopeGroup", CreateAll(src.groups, out.newGroups, GroupRecord, GroupWithID, GroupRowID))
    case Failure(e) => Failure(e)
    case Success(g) =>
    match MigrateAccountsSpec(src.accounts, out.newAccounts)
    case Failure(e) => Failure(e)
    case Success(a) =>
    match Context("Failed to add new Envelope", CreateAll(src.buckets, out.newEnvelopes, EnvelopeBuilder(g.remap), EnvelopeWithID, BucketRowID))
    case Failure(e) => Failure(e)
    case Success(env) =>
    match MigrateDebtSpec(src.debtBuckets, a.created.remap, env.remap, out.debtEnvelopeFor)
    case Failure(e) => Failure(e)
    case Success(eMap) => Success(Remapped(a.created.remap, eMap, a.balances))
  }

  /** The three transaction loops: account transactions into toInsA; debt transactions
      and then envelope transactions into toInsE. a_bal_map is passed on untouched. */
  function ConvertTxns(src: BucketsFile, m: Remapped): (r: Result<Converted, Error>)
    ensures r.Success? ==> r.value.balances == m.balances
  {
    match AppendAll([], MapRows(src.accountTxns, AccountTxnConverter(m.aMap, m.eMap)))
    case Failure(e) => Failure(e)
    case Success(toInsA) =>
    match AppendAll([], MapRows(src.debtTxns, BucketTxnConverter(m.eMap)))
    case Failure(e) => Failure(e)
    case Success(debtTxns) =>
    match AppendAll(debtTxns, MapRows(src.envelopeTxns, BucketTxnConverter(m.eMap)))
    case Failure(e) => Failure(e)
    case Success(toInsE) => Success(Converted(toInsA, toInsE, m.balances))
  }

  /** Every loop of the import before the batch inserts. */
  function ConvertFile(src: BucketsFile, out: StoreOutcomes): Result<Converted, Error>
    requires OutcomesFit(src, out)
  {
    match CreateRecords(src, out)
    case Failure(e) => Failure(e)
    case Success(m) => ConvertTxns(src, m)
  }

  /** The import tool's main routine from its first loop on: the store after the run
      and the starting balances it wrote, or the error it stopped on. */
  function MigrateSpec(r: Rollups, st: State, src: BucketsFile, out: StoreOutcomes, year: nat, month: nat): (State, Result<map<PKEY, int>, Error>)
    requires OutcomesFit(src, out) && 1 <= month <= 12
  {
    match ConvertFile(src, out)
    case Failure(e) => (st, Failure(e))
    case Success(c) =>
      var now := CurrentMonth(year, month);
      var a := Batch.AccountBatch(r, st, c.accountTxns, now, out.accountBatch);
      if a.1.Some? then (a.0, Failure(Wrapped("Failed to insert all the Account Transactions", a.1.value)))
      else
        var e := Batch.EnvelopeBatch(r, a.0, c.envelopeTxns, now, out.envelopeBatch);
        if e.1.Some? then (e.0, Failure(Wrapped("Failed to insert all the Envelope Transactions", e.1.value)))
        else (e.0, StartingBalancesSpec(LatestIn(e.0.chk, now), c.balances))
  }

  method Migrate(s: SQLite, src: BucketsFile, out: StoreOutcomes, year: nat, month: nat)
    returns (r: Result<map<PKEY, int>, Error>)
    requires OutcomesFit(src, out) && 1 <= month <= 12
    modifies s
    ensures (s.Snapshot(), r) == MigrateSpec(s.rollups, old(s.Snapshot()), src, out, year, month)
  {
    var g := MigrateGroups(src.groups, out.newGroups);
    if g.Failure? {
      return Failure(g.error);
    }
    var a := MigrateAccounts(src.accounts, out.newAccounts);
    if a.Failure? {
      return Failure(a.error);
    }
    var env := MigrateEnvelopes(src.buckets, g.value.remap, out.newEnvelopes);
    if env.Failure? {
      return Failure(env.error);
    }
    var eMap := MigrateDebtEnvelopes(src.debtBuckets, a.value.created.remap, env.value.remap, out.debtEnvelopeFor);
    if eMap.Failure? {
      return Failure(eMap.error);
    }
    var toInsA := AppendConverted(src.accountTxns, AccountTxnConverter(a.value.created.remap, eMap.value), []);
    if toInsA.Failure? {
      return Failure(toInsA.error);
    }
    var toInsE := AppendConverted(src.debtTxns, BucketTxnConverter(eMap.value), []);
    if toInsE.Failure? {
      return Failure(toInsE.error);
    }
    toInsE := AppendConverted(src.envelopeTxns, BucketTxnConverter(eMap.value), toInsE.value);
    if toInsE.Failure? {
      return Failure(toInsE.error);
    }
    var errA := Batch.BatchNewAccountTransaction(s, toInsA.value, year, month, out.accountBatch);
    if errA.Some? {
      return Failure(Wrapped("Failed to insert all the Account Transactions", errA.value));
    }
    var errE := Batch.BatchNewEnvelopeTransaction(s, toInsE.value, year, month, out.envelopeBatch);
    if errE.Some? {
      return Failure(Wrapped("Failed to insert all the Envelope Transactions", errE.value));
    }
    r := StartingBalances(s, a.value.balances, CurrentMonth(year, month));
  }

  /** When the store refuses the first envelope group, as the driver's NewEnvelopeGroup
      always does, the import stops there with that error and writes nothing. */
  lemma FirstGroupRefusedStopsImport(r: Rollups, st: State, src: BucketsFile, out: StoreOutcomes, year: nat, month: nat)
    requires OutcomesFit(src, out) && 1 <= month <= 12
    requires |src.groups| > 0 && out.newGroups[0].Failure?
    ensures MigrateSpec(r, st, src, out, year, month) ==
      (st, Failure(Wrapped("Failed to add new EnvelopeGroup", out.newGroups[0].error)))
  {
    CreateAllFacts(src.groups, out.newGroups, GroupRecord, GroupWithID, GroupRowID);
    var g := CreateAll(src.groups, out.newGroups, GroupRecord, GroupWithID, GroupRowID);
    assert g.Failure?;
    var k :| 0 <= k < |src.groups| && out.newGroups[k] == Failure(g.error) && forall j :: 0 <= j < k ==> out.newGroups[j].Success?;
    assert k == 0;
  }

  /** The two batch inserts are separate database transactions: a failed conversion or
      account batch leaves the store as it was, but a failed envelope batch keeps the
      account transactions already committed. On success both ledgers gain exactly the
      converted transactions, numbered in order, and no other ledger changes. The
      groups, accounts and envelopes tables stay as they were only because the
      creation calls are outcomes given as parameters, whose writes are not modelled. */
  lemma MigrateStoreEffects(r: Rollups, st: State, src: BucketsFile, out: StoreOutcomes, year: nat, month: nat)
    requires OutcomesFit(src, out) && 1 <= month <= 12
    ensures var (st', res) := MigrateSpec(r, st, src, out, year, month);
      var c := ConvertFile(src, out);
      (c.Failure? ==> st' == st && res == Failure(c.error)) &&
      (c.Success? ==>
        var a := Batch.AccountBatch(r, st, c.value.accountTxns, CurrentMonth(year, month), out.accountBatch);
        (a.1.Some? ==> st' == st) &&
        (a.1.None? ==> st'.accountTxns == st.accountTxns + Batch.Numbered(c.value.accountTxns, st.nextAccountTxnID, Batch.WithAccountTxnID)) &&
        (res.Success? ==>
          st'.envelopeTxns == st.envelopeTxns + Batch.Numbered(c.value.envelopeTxns, st.nextEnvelopeTxnID, Batch.WithEnvelopeTxnID) &&
          st'.accounts == st.accounts && st'.groups == st.groups && st'.envelopes == st.envelopes))
  {
    var c := ConvertFile(src, out);
    if c.Success? {
      var now := CurrentMonth(year, month);
      var a := Batch.AccountBatch(r, st, c.value.accountTxns, now, out.accountBatch);
      if a.1.None? {
        var e := Batch.EnvelopeBatch(r, a.0, c.value.envelopeTxns, now, out.envelopeBatch);
        assert e.1.Some? ==> e.0 == a.0;
      }
    }
  }

  /** A successful import wrote, for each Buckets account whose new id the store gave
      only once, its Buckets balance less the latest balance the store holds for the
      current month. */
  lemma StartingBalanceOfAccount(r: Rollups, st: State, src: BucketsFile, out: StoreOutcomes, year: nat, month: nat, j: nat)
    requires OutcomesFit(src, out) && 1 <= month <= 12 && j < |src.accounts|
    requires forall l :: j < l < |src.accounts| ==> out.newAccounts[l] != out.newAccounts[j]
    requires MigrateSpec(r, st, src, out, year, month).1.Success?
    ensures var (st', res) := MigrateSpec(r, st, src, out, year, month);
      var aid := out.newAccounts[j].value;
      out.newAccounts[j].Success? && aid in res.value &&
      LatestBalance(st'.chk, CurrentMonth(year, month), aid).Some? &&
      res.value[aid] == src.accounts[j].balance - LatestBalance(st'.chk, CurrentMonth(year, month), aid).value
  {
    MigrateSucceeded(r, st, src, out, year, month);
    AccountBalancesRemembered(src.accounts, out.newAccounts, j);
    CreateAllFacts(src.accounts, out.newAccounts, AccountRecord, AccountWithID, AccountRowID);
  }

  /** A successful import converted every row, and its result is the starting-balance
      pass over the store the envelope batch left. */
  lemma MigrateSucceeded(r: Rollups, st: State, src: BucketsFile, out: StoreOutcomes, year: nat, month: nat)
    requires OutcomesFit(src, out) && 1 <= month <= 12
    requires MigrateSpec(r, st, src, out, year, month).1.Success?
    ensures ConvertFile(src, out).Success? && MigrateAccountsSpec(src.accounts, out.newAccounts).Success?
    ensures ConvertFile(src, out).value.balances == MigrateAccountsSpec(src.accounts, out.newAccounts).value.balances
    ensures var (st', res) := MigrateSpec(r, st, src, out, year, month);
      res == StartingBalancesSpec(LatestIn(st'.chk, CurrentMonth(year, month)), ConvertFile(src, out).value.balances)
  {
    var c := ConvertFile(src, out);
    assert c.Success?;
    var now := CurrentMonth(year, month);
    var a := Batch.AccountBatch(r, st, c.value.accountTxns, now, out.accountBatch);
    assert a.1.None?;
    var e := Batch.EnvelopeBatch(r, a.0, c.value.envelopeTxns, now, out.envelopeBatch);
    assert e.1.None?;
    assert MigrateSpec(r, st, src, out, year, month) == (e.0, StartingBalancesSpec(LatestIn(e.0.chk, now), c.value.balances));
    CreatedRecordsKeepBalances(src, out);
  }

  /** The creation loops succeed only when the account loop did, and pass its a_bal_map on. */
  lemma CreatedRecordsKeepBalances(src: BucketsFile, out: StoreOutcomes)
    requires OutcomesFit(src, out) && CreateRecords(src, out).Success?
    ensures MigrateAccountsSpec(src.accounts, out.newAccounts).Success?
    ensures CreateRecords(src, out).value.balances == MigrateAccountsSpec(src.accounts, out.newAccounts).value.balances
  {
    var g := Context("Failed to add new EnvelopeGroup", CreateAll(src.groups, out.newGroups, GroupRecord, GroupWithID, GroupRowID));
    assert g.Success?;
  }
}
