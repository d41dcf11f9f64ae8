/** What customer codes look like, and what saving a company accepts and stores. */
module CodeRules {
  import opened Decimals
  import opened Wrappers
  import opened CustomerCodes

  predicate Digits(s: string) { forall i | 0 <= i < |s| :: 48 <= s[i] as int <= 57 }

  /** The codes that count: the prefix and at least one digit, read as a decimal number. */
  lemma NumericCodes(code: string)
    ensures CodeNumber(code).Some? <==> |code| > 4 && code[..4] == "CUS-" && Digits(code[4..])
    ensures CodeNumber(code).Some? ==> AllDigits(code[4..]) && CodeNumber(code).value == DigitsValue(code[4..])
  {
  }

  lemma {:induction false} PadShape(s: string, width: nat)
    ensures |Pad(s, width)| == (if |s| >= width then |s| else width)
    ensures |s| >= width ==> Pad(s, width) == s
    ensures Digits(s) ==> Digits(Pad(s, width))
    decreases width - |s|
  {
    if |s| < width { PadShape("0" + s, width); }
  }

  /** A generated code: the prefix and the number with at least five digits, no more than it needs. */
  lemma GeneratedCodeShape(n: nat)
    ensures var code := Format(n);
            && |code| >= 9 && code[..4] == "CUS-" && Digits(code[4..])
            && (|code| > 9 ==> code[4] != '0')
            && AllDigits(code[4..]) && DigitsValue(code[4..]) == n
  {
    FormatRoundTrip(n);
    PadShape(Decimal(n), 5);
    NoLeadingZero(n);
    if n == 0 { assert Decimal(n) == "0"; }
    assert Format(n)[4..] == Pad(Decimal(n), 5);
  }

  function LastNumber(s: State, org: OrgId): nat { if org in s.counters then s.counters[org] else 0 }

  predicate IsNumeric(code: string) { |code| > 4 && code[..4] == "CUS-" && Digits(code[4..]) }

  predicate InUse(s: State, id: CompanyId, org: OrgId, code: string) {
    exists other | other in s.companies ::
      other != id && s.companies[other].org == org && s.companies[other].code == code
  }

  /** The company and the counter of its organization are stored; everything else is the same. */
  predicate IsStored(s: State, s': State, id: CompanyId, org: OrgId, code: string, last: nat) {
    && s'.companies == s.companies[id := Company(org, code)]
    && s'.counters == s.counters[org := last]
    && s'.ever == s.ever + {Company(org, code)}
  }

  /** Without a code the next number is taken, as long as the counter can hold it. */
  lemma SavingWithoutCode(s: State, id: CompanyId, org: OrgId)
    ensures var n := LastNumber(s, org) + 1;
            var r := SaveRow(s, id, org, "");
            if n > 9223372036854775807 then r == Failure(CounterOverflow)
            else if InUse(s, id, org, Format(n)) then r == Failure(DuplicateCode)
            else r.Success? && IsStored(s, r.value, id, org, Format(n), n)
  {
    var c := Company(org, Format(LastNumber(s, org) + 1));
    assert InUse(s, id, org, c.code) <==> Taken(s.companies, id, c);
  }

  /** A given code is stored as it is, and a numeric one raises the counter to its number. */
  lemma SavingWithCode(s: State, id: CompanyId, org: OrgId, code: string)
    requires code != ""
    ensures IsNumeric(code) ==> AllDigits(code[4..])
    ensures var r := SaveRow(s, id, org, code);
            var last := LastNumber(s, org);
            var n := if IsNumeric(code) then DigitsValue(code[4..]) else 0;
            if n > 9223372036854775806 then r == Failure(CodeOutOfRange)
            else if InUse(s, id, org, code) then r == Failure(DuplicateCode)
            else r.Success? && IsStored(s, r.value, id, org, code, if n > last then n else last)
  {
    NumericCodes(code);
    assert InUse(s, id, org, code) <==> Taken(s.companies, id, Company(org, code));
  }

  /** A deletion removes the company and keeps every counter, so no number comes back. */
  lemma Deleting(s: State, id: CompanyId)
    ensures var s' := DeleteRow(s, id);
            && s'.companies.Keys == s.companies.Keys - {id}
            && (forall other | other in s'.companies :: s'.companies[other] == s.companies[other])
            && s'.counters == s.counters && s'.ever == s.ever
  {
  }
}
