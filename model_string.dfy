/** The String methods of the budget's records: enumeration labels, the debt envelope's
    name, and the flag parts of Account.String and Envelope.String (the text after the
    width-padded "id: institution:name -- " and "group.id name -- " prefixes). Each
    rendering comes with a reader that recovers the rendered fields, so the contracts
    say what the text carries rather than how it is assembled. */
module ModelString {
  import opened Wrappers
  import opened Strings
  import opened Strconv
  import opened Model

  /** AccountClass.String. */
  function AccountClassString(ac: AccountClass): (s: string)
    ensures s == "UNKNOWN" <==> ac.UnknownClass?
    ensures ParseAccountClass(s) == if ac.UnknownClass? then None else Some(ac)
  {
    match ac
    case Checking => "Checking"
    case Savings => "Savings"
    case Investment => "Investment"
    case Loan => "Loan"
    case CreditCard => "CreditCard"
    case UnknownClass(_) => "UNKNOWN"
  }

  /** Reads a class label back; "UNKNOWN" and anything else are not a class. */
  function ParseAccountClass(s: string): Option<AccountClass>
  {
    if s == "Checking" then Some(Checking)
    else if s == "Savings" then Some(Savings)
    else if s == "Investment" then Some(Investment)
    else if s == "Loan" then Some(Loan)
    else if s == "CreditCard" then Some(CreditCard)
    else None
  }

  /** TransactionType.String: the normal type has the empty label. */
  function TransactionTypeString(tt: TransactionType): (s: string)
    ensures s == "" <==> tt.Normal?
    ensures s == "UNKNOWN" <==> tt.UnknownType?
    ensures ParseTransactionType(s) == if tt.UnknownType? then None else Some(tt)
  {
    match tt
    case Normal => ""
    case Income => "Income"
    case Transfer => "Transfer"
    case Adjust => "Adjust"
    case UnknownType(_) => "UNKNOWN"
  }

  function ParseTransactionType(s: string): Option<TransactionType>
  {
    if s == "" then Some(Normal)
    else if s == "Income" then Some(Income)
    else if s == "Transfer" then Some(Transfer)
    else if s == "Adjust" then Some(Adjust)
    else None
  }

  /** Two known enumeration values with the same label are the same value. */
  lemma LabelsDistinct(a: AccountClass, b: AccountClass, t: TransactionType, u: TransactionType)
    ensures !a.UnknownClass? && AccountClassString(a) == AccountClassString(b) ==> a == b
    ensures !t.UnknownType? && TransactionTypeString(t) == TransactionTypeString(u) ==> t == u
  {
    if !a.UnknownClass? && AccountClassString(a) == AccountClassString(b) {
      assert ParseAccountClass(AccountClassString(b)) == Some(a);
    }
    if !t.UnknownType? && TransactionTypeString(t) == TransactionTypeString(u) {
      assert ParseTransactionType(TransactionTypeString(u)) == Some(t);
    }
  }

  const DebtPrefix: string := "Debt Account: "

  /** Account.DebtEnvelopeName: the prefix, then institution and name around a colon.
      When the institution holds no colon, both fields can be read back. */
  function DebtEnvelopeName(a: Account): (s: string)
    ensures |s| > |DebtPrefix| && s[..|DebtPrefix|] == DebtPrefix
    ensures ':' !in a.institution ==> ParseDebtEnvelopeName(s) == Some((a.institution, a.name))
  {
    var s := DebtPrefix + a.institution + ":" + a.name;
    DebtEnvelopeNameReadBack(a.institution, a.name, s);
    s
  }

  lemma DebtEnvelopeNameReadBack(institution: string, name: string, s: string)
    requires s == DebtPrefix + institution + ":" + name
    ensures |s| > |DebtPrefix| && s[..|DebtPrefix|] == DebtPrefix
    ensures ':' !in institution ==> ParseDebtEnvelopeName(s) == Some((institution, name))
  {
    assert s[..|DebtPrefix|] == DebtPrefix;
    var rest := institution + [':'] + name;
    assert s[|DebtPrefix|..] == rest;
    if ':' !in institution {
      PrefixIndex(institution, ':', name);
      assert rest[..|institution|] == institution;
      assert rest[|institution| + 1..] == name;
    }
  }

  /** Reads institution and name back from a debt envelope name, splitting at the
      first colon after the prefix. */
  function ParseDebtEnvelopeName(s: string): Option<(string, string)>
  {
    if |s| < |DebtPrefix| || s[..|DebtPrefix|] != DebtPrefix then None
    else
      var rest := s[|DebtPrefix|..];
      var i := IndexOf(rest, ':');
      if i < 0 then None else Some((rest[..i], rest[i + 1..]))
  }

  /** Accounts whose institutions hold no colon get the same debt envelope name only
      when institution and name agree. */
  lemma DebtEnvelopeNameInjective(a: Account, b: Account)
    requires ':' !in a.institution && ':' !in b.institution
    requires DebtEnvelopeName(a) == DebtEnvelopeName(b)
    ensures a.institution == b.institution && a.name == b.name
  {
    assert ParseDebtEnvelopeName(DebtEnvelopeName(a)) == Some((a.institution, a.name));
  }

  /** With a colon in the institution the name is ambiguous: ("a:b", "c") and
      ("a", "b:c") share one debt envelope name. */
  lemma DebtEnvelopeNameAmbiguous(a: Account, b: Account)
    requires a.institution == "a:b" && a.name == "c"
    requires b.institution == "a" && b.name == "b:c"
    ensures DebtEnvelopeName(a) == DebtEnvelopeName(b)
  {
    assert DebtPrefix + "a:b" + ":" + "c" == DebtPrefix + "a" + ":" + "b:c";
  }

  function Flag(set_: bool, letter: char): char
  {
    if set_ then letter else ' '
  }

  /** The part of Account.String after " -- ": the hidden, off-budget and debt flags
      as H, O and D (a blank when clear), each followed by ':', then the class label. */
  function AccountFlags(a: Account): (s: string)
    ensures |s| >= 6 && s[1] == ':' && s[3] == ':' && s[5] == ':'
    ensures (s[0] == 'H') <==> a.hidden
    ensures (s[2] == 'O') <==> a.offbudget
    ensures (s[4] == 'D') <==> a.debt
    ensures ParseAccountFlags(s) ==
      if a.accountClass.UnknownClass? then None
      else Some((a.hidden, a.offbudget, a.debt, a.accountClass))
  {
    var s := [Flag(a.hidden, 'H'), ':', Flag(a.offbudget, 'O'), ':', Flag(a.debt, 'D'), ':']
      + AccountClassString(a.accountClass);
    assert s[6..] == AccountClassString(a.accountClass);
    s
  }

  function ReadFlag(c: char, letter: char): Option<bool>
  {
    if c == letter then Some(true) else if c == ' ' then Some(false) else None
  }

  /** Reads the flags and the class back from the flag part of Account.String. */
  function ParseAccountFlags(s: string): Option<(bool, bool, bool, AccountClass)>
  {
    if |s| < 6 || s[1] != ':' || s[3] != ':' || s[5] != ':' then None
    else
      var h, o, d, c := ReadFlag(s[0], 'H'), ReadFlag(s[2], 'O'), ReadFlag(s[4], 'D'), ParseAccountClass(s[6..]);
      if h.None? || o.None? || d.None? || c.None? then None
      else Some((h.value, o.value, d.value, c.value))
  }

  /** The goal letter of Envelope.String: a blank for no goal, R, G and T for the
      recurring, target and recurring-until-target goals, X for anything else. */
  function GoalLetter(g: GoalType): (c: char)
    ensures c == 'X' <==> g.UnknownGoal?
    ensures GoalFromLetter(c) == if g.UnknownGoal? then None else Some(g)
  {
    match g
    case NoGoal => ' '
    case Recurring => 'R'
    case Target => 'G'
    case RecurringUntilTarget => 'T'
    case UnknownGoal(_) => 'X'
  }

  function GoalFromLetter(c: char): Option<GoalType>
  {
    if c == ' ' then Some(NoGoal)
    else if c == 'R' then Some(Recurring)
    else if c == 'G' then Some(Target)
    else if c == 'T' then Some(RecurringUntilTarget)
    else None
  }

  /** The suffix naming the debt account, present only when the column is not NULL. */
  function DebtSuffix(debtAccount: Option<int>): string
  {
    if debtAccount.Some? then " -> " + ZeroPad3(debtAccount.value) else ""
  }

  /** The fields the flag part of Envelope.String carries. */
  datatype EnvelopeFlagFields = EnvelopeFlagFields(
    hidden: bool,
    goalLetter: char,
    goalAmt: int,
    goalTgt: int,
    debtAccount: Option<int>)

  /** The part of Envelope.String after its prefix: H or a blank for hidden, " -- ", the
      goal letter, "=amount/target" in decimal, and " -> " with the debt account id
      (%03d) only when there is one. The amounts and the id are read back by
      ParseEnvelopeFlags whenever they fit Go's 64-bit int. */
  function EnvelopeFlags(e: Envelope): (s: string)
    ensures |s| >= 7 && s[1..5] == " -- " && s[6] == '='
    ensures (s[0] == 'H') <==> e.hidden
    ensures s[5] == GoalLetter(e.goal)
    ensures ('>' in s) <==> e.debtAccount.Some?
    ensures EnvelopeNumbersFit(e) ==>
      ParseEnvelopeFlags(s) == Some(EnvelopeFlagFields(e.hidden, GoalLetter(e.goal), e.goalAmt, e.goalTgt, e.debtAccount))
  {
    var h, g := Flag(e.hidden, 'H'), GoalLetter(e.goal);
    var numbers := Itoa(e.goalAmt) + "/" + Itoa(e.goalTgt) + DebtSuffix(e.debtAccount);
    var s := [h] + " -- " + [g] + "=" + numbers;
    EnvelopeFlagsFacts(e, h, g, numbers, s);
    s
  }

  lemma EnvelopeFlagsFacts(e: Envelope, h: char, g: char, numbers: string, s: string)
    requires h == Flag(e.hidden, 'H') && g == GoalLetter(e.goal)
    requires numbers == Itoa(e.goalAmt) + "/" + Itoa(e.goalTgt) + DebtSuffix(e.debtAccount)
    requires s == [h] + " -- " + [g] + "=" + numbers
    ensures |s| >= 7 && s[1..5] == " -- " && s[6] == '='
    ensures (s[0] == 'H') <==> e.hidden
    ensures s[5] == GoalLetter(e.goal)
    ensures ('>' in s) <==> e.debtAccount.Some?
    ensures EnvelopeNumbersFit(e) ==>
      ParseEnvelopeFlags(s) == Some(EnvelopeFlagFields(e.hidden, GoalLetter(e.goal), e.goalAmt, e.goalTgt, e.debtAccount))
  {
    FlagTextShape(h, g, numbers, s);
    assert h != '>' && g != '>';
    NumbersArrow(e, numbers);
    NumbersReadBack(e);
    ReadFlagText(h, g, numbers, s, e.hidden);
  }

  lemma NumbersArrow(e: Envelope, numbers: string)
    requires numbers == Itoa(e.goalAmt) + "/" + Itoa(e.goalTgt) + DebtSuffix(e.debtAccount)
    ensures ('>' in numbers) <==> e.debtAccount.Some?
  {
    var amt, tgt, debt := Itoa(e.goalAmt), Itoa(e.goalTgt), DebtSuffix(e.debtAccount);
    RenderedNumberChars(e.goalAmt);
    RenderedNumberChars(e.goalTgt);
    DebtSuffixArrow(e.debtAccount);
    ArrowOnlyInSuffix(amt, tgt, debt, e.debtAccount.Some?);
  }

  /** The debt suffix is empty, or has its arrow head third. */
  lemma DebtSuffixArrow(debtAccount: Option<int>)
    ensures debtAccount.None? ==> DebtSuffix(debtAccount) == ""
    ensures debtAccount.Some? ==> |DebtSuffix(debtAccount)| >= 3 && DebtSuffix(debtAccount)[2] == '>'
  {
    if debtAccount.Some? {
      var z := ZeroPad3(debtAccount.value);
      assert (" -> " + z)[2] == '>';
    }
  }

  lemma ReadFlagText(h: char, g: char, numbers: string, s: string, hidden: bool)
    requires s == [h] + " -- " + [g] + "=" + numbers
    requires ReadFlag(h, 'H') == Some(hidden)
    ensures var p := ParseAmounts(numbers);
      p.Some? ==> ParseEnvelopeFlags(s) == Some(EnvelopeFlagFields(hidden, g, p.value.0, p.value.1, p.value.2))
  {
    FlagTextShape(h, g, numbers, s);
  }

  lemma NumbersReadBack(e: Envelope)
    ensures EnvelopeNumbersFit(e) ==>
      ParseAmounts(Itoa(e.goalAmt) + "/" + Itoa(e.goalTgt) + DebtSuffix(e.debtAccount)) == Some((e.goalAmt, e.goalTgt, e.debtAccount))
  {
    if EnvelopeNumbersFit(e) {
      ParseAmountsRoundTrip(e.goalAmt, e.goalTgt, e.debtAccount);
    }
  }

  lemma FlagTextShape(h: char, g: char, numbers: string, s: string)
    requires s == [h] + " -- " + [g] + "=" + numbers
    ensures |s| >= 7 && s[0] == h && s[1..5] == " -- " && s[5] == g && s[6] == '=' && s[7..] == numbers
    ensures ('>' in s) <==> h == '>' || g == '>' || '>' in numbers
  {
    assert s == [h, ' ', '-', '-', ' ', g, '='] + numbers;
  }

  predicate InInt64(n: int)
  {
    MinInt64 <= n <= MaxInt64
  }

  /** Decimal renderings hold only digits and a leading minus sign, so none of the
      separators of Envelope.String occurs in them. */
  lemma RenderedNumberChars(n: int)
    ensures '/' !in Itoa(n) && ' ' !in Itoa(n) && '>' !in Itoa(n)
    ensures '/' !in ZeroPad3(n) && ' ' !in ZeroPad3(n) && '>' !in ZeroPad3(n)
  {
    NoSeparator(Itoa(n), n < 0);
    NoSeparator(ZeroPad3(n), n < 0);
  }

  lemma NoSeparator(s: string, signed: bool)
    requires |s| >= 1
    requires signed ==> s[0] == '-' && AllDigits(s[1..])
    requires !signed ==> AllDigits(s)
    ensures '/' !in s && ' ' !in s && '>' !in s
  {
    forall i | 0 <= i < |s| ensures s[i] == '-' || IsDigit(s[i]) {
      if signed && i > 0 {
        assert s[1..][i - 1] == s[i];
      }
    }
  }

  lemma ArrowOnlyInSuffix(amt: string, tgt: string, debt: string, hasDebt: bool)
    requires '>' !in amt && '>' !in tgt
    requires hasDebt ==> |debt| >= 3 && debt[2] == '>'
    requires !hasDebt ==> debt == ""
    ensures ('>' in amt + "/" + tgt + debt) <==> hasDebt
  {
    var front := amt + "/" + tgt;
    assert '>' !in front;
    if hasDebt {
      assert (front + debt)[|front| + 2] == '>';
    } else {
      assert front + debt == front;
    }
  }

  /** The amounts and the debt account id fit Go's 64-bit int. */
  predicate EnvelopeNumbersFit(e: Envelope)
  {
    InInt64(e.goalAmt) && InInt64(e.goalTgt) && (e.debtAccount.Some? ==> InInt64(e.debtAccount.value))
  }

  /** Reads the flag part of Envelope.String back. */
  function ParseEnvelopeFlags(s: string): Option<EnvelopeFlagFields>
  {
    if |s| < 7 || s[1..5] != " -- " || s[6] != '=' then None
    else
      var hidden, numbers := ReadFlag(s[0], 'H'), ParseAmounts(s[7..]);
      if hidden.None? || numbers.None? then None
      else Some(EnvelopeFlagFields(hidden.value, s[5], numbers.value.0, numbers.value.1, numbers.value.2))
  }

  /** Reads "amount/target" and the optional debt suffix. */
  function ParseAmounts(r: string): Option<(int, int, Option<int>)>
  {
    var i := IndexOf(r, '/');
    if i < 0 then None
    else
      var amt, rest := Atoi(r[..i]), ParseTarget(r[i + 1..]);
      if amt.Failure? || rest.None? then None
      else Some((amt.value, rest.value.0, rest.value.1))
  }

  /** Reads the target and, after a blank, "-> " and the debt account id. */
  function ParseTarget(t: string): Option<(int, Option<int>)>
  {
    var j := IndexOf(t, ' ');
    if j < 0 then
      (match Atoi(t) case Success(n) => Some((n, None)) case Failure(_) => None)
    else if j + 4 <= |t| && t[j..j + 4] == " -> " then
      (match (Atoi(t[..j]), Atoi(t[j + 4..]))
       case (Success(n), Success(d)) => Some((n, Some(d)))
       case _ => None)
    else None
  }

  lemma ParseTargetRoundTrip(n: int, debt: Option<int>)
    requires InInt64(n) && (debt.Some? ==> InInt64(debt.value))
    ensures ParseTarget(Itoa(n) + DebtSuffix(debt)) == Some((n, debt))
  {
    var tgt := Itoa(n);
    if debt.Some? {
      var z := ZeroPad3(debt.value);
      assert tgt + DebtSuffix(debt) == tgt + " -> " + z;
      RenderedNumberChars(n);
      AtoiItoa(n);
      AtoiZeroPad3(debt.value);
      ReadDebtTarget(tgt, z, n, debt.value);
    } else {
      assert tgt + DebtSuffix(debt) == tgt;
      RenderedNumberChars(n);
      AtoiItoa(n);
      assert ParseTarget(tgt) == Some((n, None));
    }
  }

  lemma ReadDebtTarget(tgt: string, z: string, n: int, d: int)
    requires ' ' !in tgt && Atoi(tgt) == Success(n) && Atoi(z) == Success(d)
    ensures ParseTarget(tgt + " -> " + z) == Some((n, Some(d)))
  {
    var t := tgt + " -> " + z;
    var j := |tgt|;
    CutDebtSuffix(tgt, z);
    assert Atoi(t[..j]) == Success(n) && Atoi(t[j + 4..]) == Success(d);
  }

  /** Where the blank of " -> " sits in a rendered target, and what lies on either side. */
  lemma CutDebtSuffix(tgt: string, z: string)
    requires ' ' !in tgt
    ensures var t := tgt + " -> " + z;
      IndexOf(t, ' ') == |tgt| && |tgt| + 4 <= |t| && t[..|tgt|] == tgt &&
      t[|tgt|..|tgt| + 4] == " -> " && t[|tgt| + 4..] == z
  {
    var tail := "-> " + z;
    assert tail[..3] == "-> " && tail[3..] == z;
    var t := tgt + [' '] + tail;
    assert t == tgt + " -> " + z;
    PrefixIndex(tgt, ' ', tail);
    var j := |tgt|;
    assert t[j..j + 4] == [' '] + tail[..3];
    assert t[j + 4..] == tail[3..];
  }

  lemma ParseAmountsRoundTrip(a: int, n: int, debt: Option<int>)
    requires InInt64(a) && InInt64(n) && (debt.Some? ==> InInt64(debt.value))
    ensures ParseAmounts(Itoa(a) + "/" + Itoa(n) + DebtSuffix(debt)) == Some((a, n, debt))
  {
    var amt, rest := Itoa(a), Itoa(n) + DebtSuffix(debt);
    assert Itoa(a) + "/" + Itoa(n) + DebtSuffix(debt) == amt + "/" + rest;
    RenderedNumberChars(a);
    AtoiItoa(a);
    ParseTargetRoundTrip(n, debt);
    ReadAmounts(amt, rest, a, (n, debt));
  }

  lemma ReadAmounts(amt: string, rest: string, a: int, t: (int, Option<int>))
    requires '/' !in amt && Atoi(amt) == Success(a) && ParseTarget(rest) == Some(t)
    ensures ParseAmounts(amt + "/" + rest) == Some((a, t.0, t.1))
  {
    assert amt + "/" + rest == amt + ['/'] + rest;
    PrefixIndex(amt, '/', rest);
  }
}
