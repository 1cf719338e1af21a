/** The per-row rules of the Buckets import tool (tools/buckets_to_db): how one row
    of a Buckets budget file becomes one record of this program. Only the columns the
    tool uses are kept in the row types; a nullable integer column is an Option. */
module ImportRules {
  import opened Wrappers
  import opened Strings
  import opened Strconv
  import opened BCDate
  import opened DateText
  import QueryMonth
  import opened Model
  import opened ModelString

  /** A row of bucket_group. */
  datatype GroupRow = GroupRow(id: int, name: string)

  /** A row of account. The offbudget column is scanned but never read. */
  datatype AccountRow = AccountRow(id: int, name: string, balance: int, closed: bool, offbudget: bool, kind: string)

  /** A row of bucket that is not tied to a debt account. */
  datatype BucketRow = BucketRow(
    id: int,
    name: string,
    notes: string,
    kicked: bool,
    groupID: Option<int>,
    goalType: string,
    goal: Option<int>,
    deposit: Option<int>)

  /** The id and debt account of a bucket that is tied to a debt account. */
  datatype DebtBucketRow = DebtBucketRow(id: int, debtAccountID: int)

  /** An account transaction joined with the bucket transaction that tags it, if any. */
  datatype AccountTxnRow = AccountTxnRow(
    accountID: int,
    posted: string,
    amount: int,
    memo: string,
    category: string,
    cleared: bool,
    bucketID: Option<int>)

  /** A bucket transaction with no account transaction behind it. */
  datatype BucketTxnRow = BucketTxnRow(bucketID: int, amount: int, posted: string)

  /** The Int32 field of a sql.NullInt32: zero when the column is NULL. */
  function NullInt32(v: Option<int>): int
  {
    if v.Some? then v.value else 0
  }

  /** A Go map index: a missing key reads as the zero value. */
  function Lookup(m: map<int, int>, k: int): int
  {
    if k in m then m[k] else 0
  }

  /** Go's int32(x) conversion of a 64-bit value: the low 32 bits, read as signed. */
  function Int32Of(x: int): (r: int)
    ensures -0x8000_0000 <= r < 0x8000_0000
    ensures (r - x) % 0x1_0000_0000 == 0
    ensures -0x8000_0000 <= x < 0x8000_0000 ==> r == x
  {
    (x + 0x8000_0000) % 0x1_0000_0000 - 0x8000_0000
  }

  // Post-dates

  /** The post-date pattern ^(2(?:0|1)[\d]{2})-(0[1-9]|1[0-2])-(0[1-9]|1[0-9]|2[0-9]|3[0-1]).
      It is anchored at the start only: any text may follow the day. */
  predicate MatchesPostDate(s: string)
  {
    |s| >= 10 && IsYearGroup(s[..4]) && s[4] == '-' && IsMonthGroup(s[5..7]) && s[7] == '-' && IsDayGroup(s[8..10])
  }

  /** The post-date of a Buckets transaction: the three captured groups run together
      and read with Atoi. A text the pattern rejects is an error; Atoi cannot fail on
      what the pattern accepts. There is no calendar check, so 2023-02-31 is taken as
      it stands. */
  function ParsePostDate(posted: string): (r: Result<BCDate, Error>)
    ensures r.Success? <==> MatchesPostDate(posted)
    ensures r.Failure? ==> r.error == NoMatch(posted)
    ensures r.Success? ==>
      var y, m, d := DecimalValue(posted[..4]), DecimalValue(posted[5..7]), DecimalValue(posted[8..10]);
      2000 <= y <= 2199 && 1 <= m <= 12 && 1 <= d <= 31 && r.value == CurrentMonth(y, m) + d
  {
    if !MatchesPostDate(posted) then Failure(NoMatch(posted))
    else
      var y, m, d := posted[..4], posted[5..7], posted[8..10];
      PostDateGroupValues(y, m, d);
      PostDateDigits(y, m, d);
      Success(Atoi(posted[..4] + posted[5..7] + posted[8..10]).value)
  }

  /** What each captured group reads as. */
  lemma PostDateGroupValues(y: string, m: string, d: string)
    requires IsYearGroup(y) && IsMonthGroup(m) && IsDayGroup(d)
    ensures AllDigits(y) && AllDigits(m) && AllDigits(d)
    ensures 2000 <= DecimalValue(y) <= 2199 && 1 <= DecimalValue(m) <= 12 && 1 <= DecimalValue(d) <= 31
  {
    assert AllDigits(y) && AllDigits(m) && AllDigits(d);
    YearGroupValues(y);
    MonthGroupValues(m);
    DayGroupValues(d);
  }

  /** The three captured groups run together read as year*10000 + month*100 + day. */
  lemma PostDateDigits(y: string, m: string, d: string)
    requires |y| == 4 && |m| == 2 && |d| == 2 && AllDigits(y) && AllDigits(m) && AllDigits(d)
    requires 1 <= DecimalValue(m) <= 12
    ensures Atoi(y + m + d) == Success(CurrentMonth(DecimalValue(y), DecimalValue(m)) + DecimalValue(d))
  {
    DateDigitsValue(y, m, d);
    AtoiDigits(y + m + d);
  }

  /** The text of a post-date as Buckets writes it, before any time of day. */
  function FormatPostDate(year: nat, month: nat, day: nat): string
    requires year < 10000 && month < 100 && day < 100
  {
    FourDigits(year) + "-" + TwoDigits(month) + "-" + TwoDigits(day)
  }

  /** Every date from 2000-01-01 to 2199-12-31 with a day of at most 31, followed by
      any text at all, reads as year*10000 + month*100 + day. */
  lemma ParseFormattedPostDate(year: nat, month: nat, day: nat, rest: string)
    requires 2000 <= year <= 2199 && 1 <= month <= 12 && 1 <= day <= 31
    ensures MatchesPostDate(FormatPostDate(year, month, day) + rest)
    ensures ParsePostDate(FormatPostDate(year, month, day) + rest) == Success(CurrentMonth(year, month) + day)
  {
    var s := FormatPostDate(year, month, day) + rest;
    assert s[..4] == FourDigits(year);
    assert s[5..7] == TwoDigits(month);
    assert s[8..10] == TwoDigits(day);
    FourDigitsRoundTrip(year, FourDigits(year));
    TwoDigitsRoundTrip(month, TwoDigits(month));
    TwoDigitsRoundTrip(day, TwoDigits(day));
    YearGroupValues(FourDigits(year));
    MonthGroupValues(TwoDigits(month));
    DayGroupValues(TwoDigits(day));
  }

  /** Text after the day never changes the post-date. */
  lemma TrailingTextIgnored(posted: string, rest: string)
    ensures MatchesPostDate(posted + rest) <== MatchesPostDate(posted)
    ensures MatchesPostDate(posted) ==> ParsePostDate(posted + rest) == ParsePostDate(posted)
  {
    var s := posted + rest;
    if |posted| >= 10 {
      assert s[..4] == posted[..4] && s[5..7] == posted[5..7] && s[8..10] == posted[8..10];
      assert s[4] == posted[4] && s[7] == posted[7];
    }
  }

  /** The three places that encode a month agree: the month part of a post-date is the
      month the query-month middleware reads from the post-date's first seven
      characters, and CurrentMonth's encoding of that month; the day sits in the last
      two digits. */
  lemma PostDateMonthAgrees(posted: string, year: nat, month: nat)
    requires MatchesPostDate(posted) && 1 <= month <= 12
    ensures QueryMonth.MatchesQueryMonth(posted[..7])
    ensures var d := ParsePostDate(posted).value;
      var qm := QueryMonth.ServeHTTP(map["qm" := [posted[..7]]], year, month);
      YearOf(qm) == YearOf(d) && MonthOf(qm) == MonthOf(d) && DayOf(qm) == 0 &&
      d == qm + DayOf(d) && 1 <= DayOf(d) <= 31
  {
    var s := posted[..7];
    assert s[..4] == posted[..4] && s[5..] == posted[5..7] && s[4] == posted[4];
    assert QueryMonth.MatchesQueryMonth(s);
    var y, m, dd := DecimalValue(posted[..4]), DecimalValue(posted[5..7]), DecimalValue(posted[8..10]);
    assert ParsePostDate(posted).Success?;
    PostDateWithinMonth(y, m, dd);
    assert QueryMonth.FirstQM(map["qm" := [s]]) == Some(s);
  }

  // Accounts

  /** strings.Split(name, ":"): exactly two pieces give institution and name;
      anything else keeps the whole text as the name and no institution. */
  function SplitAccountName(name: string): (r: (string, string))
    ensures Count(name, ':') == 1 ==> r.0 + ":" + r.1 == name && ':' !in r.0 && ':' !in r.1
    ensures Count(name, ':') != 1 ==> r == ("", name)
  {
    var parts := Split(name, ':');
    SplitJoin(name, ':');
    SplitCount(name, ':');
    if |parts| == 2 then
      assert parts[1..] == [parts[1]];
      (parts[0], parts[1])
    else ("", name)
  }

  /** Institution and name without colons, joined by one, split back apart. */
  lemma SplitAccountNameOf(institution: string, name: string)
    requires ':' !in institution && ':' !in name
    ensures SplitAccountName(institution + ":" + name) == (institution, name)
  {
    var parts := [institution, name];
    assert parts[1..] == [name];
    assert Join(parts, ':') == institution + ":" + name;
    JoinSplit(parts, ':');
  }

  /** The account made from a Buckets account before the store assigns its id:
      Hidden follows Closed, the kind sets at most one of Offbudget and Debt, the
      name is split at its only colon, and every other field keeps its zero value. */
  function ConvertAccount(row: AccountRow): (a: Account)
    ensures a.id == 0 && a.accountClass == Checking
    ensures a.hidden == row.closed
    ensures a.offbudget <==> row.kind == "offbudget"
    ensures a.debt <==> row.kind == "debt"
    ensures !(a.offbudget && a.debt)
    ensures (a.institution, a.name) == SplitAccountName(row.name)
  {
    var parts := SplitAccountName(row.name);
    Account(0, row.closed, row.kind == "offbudget", row.kind == "debt", parts.0, parts.1, Checking)
  }

  /** The offbudget column plays no part: only the kind decides. */
  lemma OffbudgetColumnIgnored(row: AccountRow, b: bool)
    ensures ConvertAccount(row.(offbudget := b)) == ConvertAccount(row)
  {
  }

  /** The flag part of an imported account's string reads back as Closed, the two
      kinds and the zero-value class. */
  lemma ImportedAccountFlags(row: AccountRow)
    ensures ParseAccountFlags(AccountFlags(ConvertAccount(row))) ==
      Some((row.closed, row.kind == "offbudget", row.kind == "debt", Checking))
  {
  }

  /** The debt envelope name of an imported account is the prefix and the Buckets
      name when that name has exactly one colon; otherwise a colon is put in front of
      the whole name, since the institution is empty. */
  lemma ImportedDebtEnvelopeName(row: AccountRow)
    ensures Count(row.name, ':') == 1 ==> DebtEnvelopeName(ConvertAccount(row)) == DebtPrefix + row.name
    ensures Count(row.name, ':') != 1 ==> DebtEnvelopeName(ConvertAccount(row)) == DebtPrefix + ":" + row.name
  {
    var a := ConvertAccount(row);
    assert DebtEnvelopeName(a) == DebtPrefix + (a.institution + ":" + a.name);
  }

  // Envelopes

  /** The goal switch: deposit, goal-date and goal-deposit pick the recurring, target
      and recurring-until-target goals with the deposit as amount and the goal as
      target (a NULL column reads as zero); any other goal type keeps no goal. The
      result is the goal, its amount and its target. */
  function ConvertGoal(goalType: string, goal: Option<int>, deposit: Option<int>): (r: (GoalType, int, int))
    ensures goalType == "deposit" ==> r == (Recurring, NullInt32(deposit), 0)
    ensures goalType == "goal-date" ==> r == (Target, 0, NullInt32(goal))
    ensures goalType == "goal-deposit" ==> r == (RecurringUntilTarget, NullInt32(deposit), NullInt32(goal))
    ensures goalType != "deposit" && goalType != "goal-date" && goalType != "goal-deposit" ==> r == (NoGoal, 0, 0)
  {
    if goalType == "deposit" then (Recurring, NullInt32(deposit), 0)
    else if goalType == "goal-date" then (Target, 0, NullInt32(goal))
    else if goalType == "goal-deposit" then (RecurringUntilTarget, NullInt32(deposit), NullInt32(goal))
    else (NoGoal, 0, 0)
  }

  /** The group of an imported envelope: group 1 when the bucket has none, otherwise
      the new id of its old group (0 when that group was not imported). */
  function GroupFor(groupID: Option<int>, egMap: map<int, PKEY>): (g: PKEY)
    ensures groupID.None? ==> g == 1
    ensures groupID.Some? && groupID.value in egMap ==> g == egMap[groupID.value]
    ensures groupID.Some? && groupID.value !in egMap ==> g == 0
  {
    if groupID.Some? then Lookup(egMap, groupID.value) else 1
  }

  /** The envelope made from a bucket before the store assigns its id. */
  function ConvertBucket(row: BucketRow, egMap: map<int, PKEY>, sort: int): (e: Envelope)
    ensures e.id == 0 && e.debtAccount.None? && e.sort == sort
    ensures e.hidden == row.kicked && e.name == row.name && e.notes == row.notes
    ensures e.groupID == GroupFor(row.groupID, egMap)
    ensures (e.goal, e.goalAmt, e.goalTgt) == ConvertGoal(row.goalType, row.goal, row.deposit)
  {
    var g := ConvertGoal(row.goalType, row.goal, row.deposit);
    Envelope(0, GroupFor(row.groupID, egMap), row.kicked, None, row.name, row.notes, g.0, g.1, g.2, sort)
  }

  /** An imported envelope never shows the unknown-goal letter nor a debt suffix, and
      its letter follows the Buckets goal type. */
  lemma ImportedEnvelopeFlags(row: BucketRow, egMap: map<int, PKEY>, sort: int)
    ensures var s := EnvelopeFlags(ConvertBucket(row, egMap, sort));
      '>' !in s && s[5] != 'X' &&
      s[5] == (if row.goalType == "deposit" then 'R'
               else if row.goalType == "goal-date" then 'G'
               else if row.goalType == "goal-deposit" then 'T'
               else ' ')
  {
  }

  // Transactions

  /** The category switch: income and transfer pick those types, anything else the
      zero-value type. */
  function CategoryType(category: string): (t: TransactionType)
    ensures t == Income <==> category == "income"
    ensures t == Transfer <==> category == "transfer"
    ensures t != Income && t != Transfer ==> t == Normal
  {
    if category == "income" then Income
    else if category == "transfer" then Transfer
    else Normal
  }

  /** The type label of an imported transaction is the Buckets category capitalised
      for income and transfer, and empty for every other category. */
  lemma ImportedTypeLabel(category: string)
    ensures TransactionTypeString(CategoryType(category)) ==
      if category == "income" then "Income" else if category == "transfer" then "Transfer" else ""
  {
  }

  /** The account transaction made from a joined Buckets row: the account and the
      tagging bucket go through their remap tables (a tag is set only when the row
      has a bucket, and is cut to 32 bits), and a post-date the pattern rejects
      stops the import. */
  function ConvertAccountTxn(row: AccountTxnRow, aMap: map<int, PKEY>, eMap: map<int, PKEY>): (r: Result<AccountTransaction, Error>)
    ensures r.Success? <==> MatchesPostDate(row.posted)
    ensures r.Failure? ==> r.error == NoMatch(row.posted)
    ensures r.Success? ==>
      var t := r.value;
      t.id == 0 && t.accountID == Lookup(aMap, row.accountID) && t.typ == CategoryType(row.category) &&
      t.amount == row.amount && t.cleared == row.cleared && t.memo == row.memo &&
      Success(t.postDate) == ParsePostDate(row.posted) &&
      (t.envelopeID.Some? <==> row.bucketID.Some?) &&
      (row.bucketID.Some? ==> t.envelopeID.value == Int32Of(Lookup(eMap, row.bucketID.value)))
  {
    match ParsePostDate(row.posted)
    case Failure(e) => Failure(e)
    case Success(d) =>
      var tag := if row.bucketID.Some? then Some(Int32Of(Lookup(eMap, row.bucketID.value))) else None;
      Success(AccountTransaction(0, Lookup(aMap, row.accountID), CategoryType(row.category), tag, d, row.amount, row.cleared, row.memo))
  }

  /** The envelope transaction made from a bucket transaction, through the envelope
      remap table. */
  function ConvertBucketTxn(row: BucketTxnRow, eMap: map<int, PKEY>): (r: Result<EnvelopeTransaction, Error>)
    ensures r.Success? <==> MatchesPostDate(row.posted)
    ensures r.Failure? ==> r.error == NoMatch(row.posted)
    ensures r.Success? ==>
      r.value.id == 0 && r.value.envelopeID == Lookup(eMap, row.bucketID) && r.value.amount == row.amount &&
      Success(r.value.postDate) == ParsePostDate(row.posted)
  {
    match ParsePostDate(row.posted)
    case Failure(e) => Failure(e)
    case Success(d) => Success(EnvelopeTransaction(0, Lookup(eMap, row.bucketID), d, row.amount))
  }

  /** A tag whose new envelope id fits in 32 bits is carried over unchanged. */
  lemma TagKeepsSmallIDs(row: AccountTxnRow, aMap: map<int, PKEY>, eMap: map<int, PKEY>)
    requires MatchesPostDate(row.posted) && row.bucketID.Some?
    requires row.bucketID.value in eMap && 0 <= eMap[row.bucketID.value] < 0x8000_0000
    ensures ConvertAccountTxn(row, aMap, eMap).value.envelopeID == Some(eMap[row.bucketID.value])
  {
  }
}
