/** Customer codes: seeding the counters in one pass, and codes that are never reused. */
module CustomerCodes {
  import opened Decimals
  import opened Numbers
  import opened Wrappers

  type OrgId = nat
  type CompanyId = nat

  /** The largest number accepted in a given code. */
  const CODE_LIMIT: nat := 9223372036854775806

  /** The largest number the counter column holds. */
  const COUNTER_MAX: nat := 9223372036854775807

  const PREFIX: string := "CUS-"

  // ----- numeric codes

  /** The number of a code of the form CUS-digits. */
  function CodeNumber(code: string): Option<nat> {
    if |code| > 4 && code[..4] == PREFIX && AllDigits(code[4..])
    then Some(DigitsValue(code[4..])) else None
  }

  /** Left-pads with zeros to the given width. */
  function Pad(s: string, width: nat): string
    decreases width - |s|
  {
    if |s| >= width then s else Pad("0" + s, width)
  }

  function Format(n: nat): string { PREFIX + Pad(Decimal(n), 5) }

  lemma {:induction false} LeadingZero(s: string)
    requires AllDigits(s)
    ensures AllDigits("0" + s) && DigitsValue("0" + s) == DigitsValue(s)
  {
    var t := "0" + s;
    if s != "" {
      LeadingZero(s[..|s| - 1]);
      assert t[..|t| - 1] == "0" + s[..|s| - 1];
    } else {
      assert t[..|t| - 1] == "";
    }
  }

  lemma {:induction false} PadValue(s: string, width: nat)
    requires AllDigits(s)
    ensures AllDigits(Pad(s, width)) && |Pad(s, width)| >= |s|
    ensures DigitsValue(Pad(s, width)) == DigitsValue(s)
    decreases width - |s|
  {
    if |s| < width {
      LeadingZero(s);
      PadValue("0" + s, width);
    }
  }

  /** Formatting a number and reading the code back gives the number. */
  lemma FormatRoundTrip(n: nat)
    ensures CodeNumber(Format(n)) == Some(n)
  {
    DecimalValue(n);
    PadValue(Decimal(n), 5);
    assert Format(n)[..4] == PREFIX && Format(n)[4..] == Pad(Decimal(n), 5);
  }

  // ----- seeding

  datatype Row = Row(org: OrgId, code: string)

  datatype Error = CodeOutOfRange | CounterOverflow | DuplicateCode

  function Number(code: string): nat { CodeNumber(code).GetOr(0) }

  /** The largest numeric code of an organization among the rows, or zero. */
  function MaxCode(rows: seq<Row>, org: OrgId): nat {
    if rows == [] then 0
    else
      var row := rows[|rows| - 1];
      var rest := MaxCode(rows[..|rows| - 1], org);
      if row.org == org then Max(rest, Number(row.code)) else rest
  }

  lemma {:induction false} MaxCodeIsMaximum(rows: seq<Row>, org: OrgId)
    ensures forall i | 0 <= i < |rows| && rows[i].org == org :: Number(rows[i].code) <= MaxCode(rows, org)
    ensures MaxCode(rows, org) == 0
            || exists i | 0 <= i < |rows| && rows[i].org == org :: Number(rows[i].code) == MaxCode(rows, org)
  {
    if rows != [] {
      var rest := rows[..|rows| - 1];
      MaxCodeIsMaximum(rest, org);
      assert forall i | 0 <= i < |rest| :: rows[i] == rest[i];
      if MaxCode(rest, org) != 0 {
        var i :| 0 <= i < |rest| && rest[i].org == org && Number(rest[i].code) == MaxCode(rest, org);
        assert rows[i].org == org && Number(rows[i].code) == MaxCode(rest, org);
      }
    }
  }

  predicate OrderedByOrg(rows: seq<Row>) {
    forall i, j | 0 <= i < j < |rows| :: rows[i].org <= rows[j].org
  }

  predicate Occurs(rows: seq<Row>, org: OrgId) {
    exists i | 0 <= i < |rows| :: rows[i].org == org
  }

  predicate InRange(rows: seq<Row>) {
    forall i | 0 <= i < |rows| :: Number(rows[i].code) <= CODE_LIMIT
  }

  lemma MaxCodeOfLonger(rows: seq<Row>, n: nat, org: OrgId)
    requires n < |rows|
    ensures MaxCode(rows[..n + 1], org)
         == if rows[n].org == org then Max(MaxCode(rows[..n], org), Number(rows[n].code)) else MaxCode(rows[..n], org)
  {
    assert rows[..n + 1][..n] == rows[..n];
  }

  lemma {:induction false} MaxCodeOfAbsent(rows: seq<Row>, org: OrgId)
    requires !Occurs(rows, org)
    ensures MaxCode(rows, org) == 0
  {
    if rows != [] {
      var rest := rows[..|rows| - 1];
      assert forall i | 0 <= i < |rest| :: rest[i] == rows[i];
      MaxCodeOfAbsent(rest, org);
    }
  }

  /** The counters after the rows up to `n`, with the last organization still being counted. */
  ghost predicate Seeded(counters: map<OrgId, nat>, rows: seq<Row>, n: nat, current: Option<OrgId>, maximum: nat)
    requires n <= |rows|
  {
    && (current.None? <==> n == 0)
    && (current.Some? ==> n > 0 && current.value == rows[n - 1].org && maximum == MaxCode(rows[..n], current.value))
    && (current.None? ==> maximum == 0)
    && (forall org :: org in counters <==> Occurs(rows[..n], org) && current != Some(org))
    && (forall org | org in counters :: counters[org] == MaxCode(rows[..n], org))
  }

  /** One ordered streaming pass that remembers only the current organization and its maximum. */
  method SeedCounters(rows: seq<Row>) returns (r: Result<map<OrgId, nat>, Error>)
    requires OrderedByOrg(rows)
    ensures r.Success? <==> InRange(rows)
    ensures r.Success? ==> forall org :: org in r.value <==> Occurs(rows, org)
    ensures r.Success? ==> forall org | org in r.value :: r.value[org] == MaxCode(rows, org)
  {
    var counters: map<OrgId, nat> := map[];
    var current: Option<OrgId>, maximum: nat := None, 0;
    for n := 0 to |rows|
      invariant Seeded(counters, rows, n, current, maximum)
      invariant InRange(rows[..n]) && maximum <= CODE_LIMIT
    {
      SeedStep(counters, rows, n, current, maximum);
      var row := rows[n];
      if current.Some? && row.org != current.value {
        counters := counters[current.value := maximum];
        maximum := 0;
      }
      current := Some(row.org);
      var number := CodeNumber(row.code);
      if number.Some? {
        maximum := Max(maximum, number.value);
        if maximum > CODE_LIMIT {
          return Failure(CodeOutOfRange);
        }
      }
      assert rows[..n + 1] == rows[..n] + [row];
    }
    assert rows[..|rows|] == rows;
    if current.Some? {
      counters := counters[current.value := maximum];
    }
    r := Success(counters);
  }

  lemma OccursInLonger(rows: seq<Row>, n: nat, org: OrgId)
    requires n < |rows|
    ensures Occurs(rows[..n + 1], org) <==> Occurs(rows[..n], org) || rows[n].org == org
  {
    assert rows[..n + 1] == rows[..n] + [rows[n]];
    if Occurs(rows[..n], org) {
      var i :| 0 <= i < n && rows[..n][i].org == org;
      assert rows[..n + 1][i].org == org;
    }
    if rows[n].org == org { assert rows[..n + 1][n].org == org; }
  }

  /** Because of the order an organization that has passed does not occur again. */
  lemma SeedStep(counters: map<OrgId, nat>, rows: seq<Row>, n: nat, current: Option<OrgId>, maximum: nat)
    requires n < |rows| && OrderedByOrg(rows)
    requires Seeded(counters, rows, n, current, maximum)
    ensures var org := rows[n].org;
            var switches := current.Some? && org != current.value;
            var counters' := if switches then counters[current.value := maximum] else counters;
            var maximum' := if switches then 0 else maximum;
            Seeded(counters', rows, n + 1, Some(org), Max(maximum', Number(rows[n].code)))
  {
    var org := rows[n].org;
    var switches := current.Some? && org != current.value;
    var counters' := if switches then counters[current.value := maximum] else counters;
    if switches {
      forall i | 0 <= i < n ensures rows[..n][i].org != org {
        assert rows[i].org <= rows[n - 1].org;
        assert rows[n - 1].org < org;
      }
    }
    if switches || current.None? {
      MaxCodeOfAbsent(rows[..n], org);
    }
    forall o: OrgId ensures o in counters' <==> Occurs(rows[..n + 1], o) && o != org {
      OccursInLonger(rows, n, o);
      if current == Some(o) { assert rows[..n][n - 1].org == o; }
    }
    forall o: OrgId
      ensures MaxCode(rows[..n + 1], o)
           == if o == org then Max(MaxCode(rows[..n], o), Number(rows[n].code)) else MaxCode(rows[..n], o)
    {
      MaxCodeOfLonger(rows, n, o);
    }
  }

  // ----- saving and deleting companies

  datatype Company = Company(org: OrgId, code: string)

  /** `ever` remembers every code that was ever stored, across deletions and changes. */
  datatype State = State(companies: map<CompanyId, Company>, counters: map<OrgId, nat>, ever: set<Company>)

  function Counter(s: State, org: OrgId): nat {
    if org in s.counters then s.counters[org] else 0
  }

  datatype Allocation = Allocation(code: string, counter: nat)

  /** The code a company is stored with, and the counter afterwards. */
  function Allocate(counter: nat, code: string): Result<Allocation, Error> {
    if code == "" then
      if counter + 1 > COUNTER_MAX then Failure(CounterOverflow)
      else Success(Allocation(Format(counter + 1), counter + 1))
    else
      match CodeNumber(code)
      case Some(number) =>
        if number > CODE_LIMIT then Failure(CodeOutOfRange) else Success(Allocation(code, Max(counter, number)))
      case None => Success(Allocation(code, counter))
  }

  predicate Taken(companies: map<CompanyId, Company>, id: CompanyId, c: Company) {
    exists other | other in companies :: other != id && companies[other] == c
  }

  /** Saves a new or changed company; an empty code asks for a generated one. */
  function SaveRow(s: State, id: CompanyId, org: OrgId, code: string): Result<State, Error> {
    match Allocate(Counter(s, org), code)
    case Failure(e) => Failure(e)
    case Success(a) =>
      var c := Company(org, a.code);
      if Taken(s.companies, id, c) then Failure(DuplicateCode)
      else Success(State(s.companies[id := c], s.counters[org := a.counter], s.ever + {c}))
  }

  function DeleteRow(s: State, id: CompanyId): State { s.(companies := s.companies - {id}) }

  datatype Step = DoSave(id: CompanyId, org: OrgId, code: string) | DoDelete(id: CompanyId)

  function Next(s: State, step: Step): State {
    match step
    case DoSave(id, org, code) =>
      (match SaveRow(s, id, org, code) case Success(s') => s' case Failure(_) => s)
    case DoDelete(id) => DeleteRow(s, id)
  }

  function Run(s: State, steps: seq<Step>): State
    decreases |steps|
  {
    if steps == [] then s else Run(Next(s, steps[0]), steps[1..])
  }

  /** The counter bounds every numeric code ever stored in the organization. */
  predicate Bounded(s: State) {
    && (forall c | c in s.ever :: CodeNumber(c.code).Some? ==> Number(c.code) <= Counter(s, c.org))
    && (forall id | id in s.companies :: s.companies[id] in s.ever)
  }

  lemma NextKeeps(s: State, step: Step)
    requires Bounded(s)
    ensures Bounded(Next(s, step))
    ensures s.ever <= Next(s, step).ever
    ensures forall org :: Counter(s, org) <= Counter(Next(s, step), org)
  {
    if step.DoSave? && step.code == "" { FormatRoundTrip(Counter(s, step.org) + 1); }
  }

  lemma {:induction false} RunKeeps(s: State, steps: seq<Step>)
    requires Bounded(s)
    ensures Bounded(Run(s, steps)) && s.ever <= Run(s, steps).ever
    decreases |steps|
  {
    if steps == [] {
    } else {
      NextKeeps(s, steps[0]);
      RunKeeps(Next(s, steps[0]), steps[1..]);
    }
  }

  /** The table holds no code twice within an organization. */
  predicate CodesAreUnique(companies: map<CompanyId, Company>) {
    forall a, b | a in companies && b in companies && a != b :: companies[a] != companies[b]
  }

  /** The state after the migration: the stored companies and the counters seeded from their codes. */
  ghost predicate Migrated(s: State, rows: seq<Row>) {
    && OrderedByOrg(rows)
    && (forall id | id in s.companies ::
          exists i | 0 <= i < |rows| :: rows[i] == Row(s.companies[id].org, s.companies[id].code))
    && CodesAreUnique(s.companies)
    && s.ever == (set id | id in s.companies :: s.companies[id])
    && (forall org | Occurs(rows, org) :: org in s.counters && s.counters[org] == MaxCode(rows, org))
  }

  lemma MigratedIsBounded(s: State, rows: seq<Row>)
    requires Migrated(s, rows)
    ensures Bounded(s)
  {
    forall c | c in s.ever ensures Number(c.code) <= Counter(s, c.org) {
      var id :| id in s.companies && s.companies[id] == c;
      var i :| 0 <= i < |rows| && rows[i] == Row(s.companies[id].org, s.companies[id].code);
      assert Occurs(rows, c.org);
      MaxCodeIsMaximum(rows, c.org);
    }
  }

  /**
   * From the migrated data, in any run of saves and deletions, a generated code differs from
   * every code that was ever stored in the organization, so it is never refused as a duplicate,
   * and it is the number right above the counter.
   */
  lemma GeneratedCodesAreFresh(s: State, rows: seq<Row>, steps: seq<Step>, id: CompanyId, org: OrgId)
    requires Migrated(s, rows)
    ensures var before := Run(s, steps);
            var n := Counter(before, org) + 1;
            && Company(org, Format(n)) !in before.ever
            && (SaveRow(before, id, org, "").Success? <==> n <= COUNTER_MAX)
            && (SaveRow(before, id, org, "").Success? ==>
                  && SaveRow(before, id, org, "").value.companies[id] == Company(org, Format(n))
                  && Counter(SaveRow(before, id, org, "").value, org) == n)
  {
    MigratedIsBounded(s, rows);
    RunKeeps(s, steps);
    FormatRoundTrip(Counter(Run(s, steps), org) + 1);
  }

  /** What saving and deleting keep about the stored companies. */
  predicate Consistent(s: State) {
    && Bounded(s) && CodesAreUnique(s.companies)
    && forall id | id in s.companies :: s.companies[id].org in s.counters
  }

  lemma MigratedIsConsistent(s: State, rows: seq<Row>)
    requires Migrated(s, rows)
    ensures Consistent(s)
  {
    MigratedIsBounded(s, rows);
    forall id | id in s.companies ensures s.companies[id].org in s.counters {
      var i :| 0 <= i < |rows| && rows[i] == Row(s.companies[id].org, s.companies[id].code);
      assert Occurs(rows, s.companies[id].org);
    }
  }

  lemma NextIsConsistent(s: State, step: Step)
    requires Consistent(s)
    ensures Consistent(Next(s, step))
  {
    NextKeeps(s, step);
  }

  lemma {:induction false} RunIsConsistent(s: State, steps: seq<Step>)
    requires Consistent(s)
    ensures Consistent(Run(s, steps))
    decreases |steps|
  {
    if steps == [] {
    } else {
      NextIsConsistent(s, steps[0]);
      RunIsConsistent(Next(s, steps[0]), steps[1..]);
    }
  }

  lemma ResaveOfConsistent(s: State, id: CompanyId)
    requires Consistent(s) && id in s.companies
    ensures var c := s.companies[id];
            SaveRow(s, id, c.org, c.code) == Success(s) <==> c.code != "" && Number(c.code) <= CODE_LIMIT
  {
    var c := s.companies[id];
    assert !Taken(s.companies, id, c);
    assert s.companies[id := c] == s.companies && s.ever + {c} == s.ever;
    assert s.counters[c.org := Counter(s, c.org)] == s.counters;
    if c.code == "" && SaveRow(s, id, c.org, c.code).Success? {
      assert SaveRow(s, id, c.org, c.code).value.companies[id].code == Format(Counter(s, c.org) + 1);
    }
  }

  /**
   * In every run from the migrated data: saving a stored company again, unchanged, has no effect
   * if and only if it has a code and the number of that code is not above the limit.
   */
  lemma ResavingIsHarmless(s: State, rows: seq<Row>, steps: seq<Step>, id: CompanyId)
    requires Migrated(s, rows)
    ensures var t := Run(s, steps);
            id in t.companies ==>
              var c := t.companies[id];
              (SaveRow(t, id, c.org, c.code) == Success(t) <==> c.code != "" && Number(c.code) <= CODE_LIMIT)
  {
    MigratedIsConsistent(s, rows);
    RunIsConsistent(s, steps);
    if id in Run(s, steps).companies { ResaveOfConsistent(Run(s, steps), id); }
  }

  /** Saving an unchanged company whose numeric code is the current counter. */
  lemma SaveUnchanged(s: State, id: CompanyId, c: Company)
    requires id in s.companies && s.companies[id] == c && c in s.ever && !Taken(s.companies, id, c)
    requires c.code != "" && CodeNumber(c.code).Some?
    requires c.org in s.counters && s.counters[c.org] == Number(c.code)
    ensures SaveRow(s, id, c.org, c.code)
         == if Number(c.code) <= CODE_LIMIT then Success(s) else Failure(CodeOutOfRange)
  {
    assert s.companies[id := c] == s.companies;
    assert s.counters[c.org := Number(c.code)] == s.counters;
    assert s.ever + {c} == s.ever;
  }

  /**
   * A company whose code was generated can be saved again, without any effect, unless the
   * generated number is the very last one of the counter: that one is above the limit for given
   * codes, and the company can never be saved again with that code.
   */
  lemma GeneratedCodesCanBeSavedAgain(s: State, id: CompanyId, org: OrgId)
    requires SaveRow(s, id, org, "").Success?
    ensures var s' := SaveRow(s, id, org, "").value;
            SaveRow(s', id, org, s'.companies[id].code)
            == if Counter(s, org) + 1 <= CODE_LIMIT then Success(s') else Failure(CodeOutOfRange)
  {
    var c := Company(org, Format(Counter(s, org) + 1));
    FormatRoundTrip(Counter(s, org) + 1);
    GeneratedSave(s, id, org, c);
    SaveUnchanged(SaveRow(s, id, org, "").value, id, c);
  }

  lemma GeneratedSave(s: State, id: CompanyId, org: OrgId, c: Company)
    requires SaveRow(s, id, org, "").Success? && c == Company(org, Format(Counter(s, org) + 1))
    ensures !Taken(s.companies, id, c)
    ensures SaveRow(s, id, org, "").value
         == State(s.companies[id := c], s.counters[org := Counter(s, org) + 1], s.ever + {c})
  {
  }

  /** The first company of an organization, saved with an explicit code. */
  lemma FirstSave(s: State, id: CompanyId, org: OrgId, n: nat)
    requires s.companies == map[] && Counter(s, org) == 0 && n <= CODE_LIMIT
    ensures var c := Company(org, Format(n));
            Next(s, DoSave(id, org, Format(n))) == State(map[id := c], s.counters[org := n], s.ever + {c})
  {
    FormatRoundTrip(n);
  }

  /** A generated code right after an explicit one. */
  lemma SecondSave(s: State, id: CompanyId, org: OrgId, c: Company)
    requires s.companies == map[0 := c] && c == Company(org, Format(Counter(s, org)))
    requires id != 0 && Counter(s, org) < COUNTER_MAX
    ensures Next(s, DoSave(id, org, "")).companies
         == map[0 := c, id := Company(org, Format(Counter(s, org) + 1))]
  {
    FormatRoundTrip(Counter(s, org));
    FormatRoundTrip(Counter(s, org) + 1);
  }

  /** An explicit code in a fresh installation, and the code that is generated after it. */
  lemma NextAfter(number: nat) returns (s: State, steps: seq<Step>)
    requires number <= CODE_LIMIT
    ensures Migrated(s, [])
    ensures var before := Run(s, steps);
            1 in before.companies && CodeNumber(before.companies[1].code) == Some(number + 1)
  {
    s := State(map[], map[], {});
    var explicit, generated := DoSave(0, 0, Format(number)), DoSave(1, 0, "");
    steps := [explicit, generated];
    FirstSave(s, 0, 0, number);
    SecondSave(Next(s, explicit), 1, 0, Company(0, Format(number)));
    TwoSteps(s, explicit, generated);
    FormatRoundTrip(number + 1);
  }

  /**
   * The last code is reached: in a fresh installation an explicit code just below it makes the
   * second company saved get it, and in no later run can that company be saved with its code.
   */
  lemma LastCodeIsStuck() returns (s: State, steps: seq<Step>, id: CompanyId)
    ensures Migrated(s, []) && id in Run(s, steps).companies
    ensures forall more :: IsStuck(Run(Run(s, steps), more), id, Run(s, steps).companies[id])
  {
    s, steps := NextAfter(CODE_LIMIT);
    id := 1;
  }

  /** While the company has the code, saving it is refused. */
  predicate IsStuck(s: State, id: CompanyId, c: Company) {
    id in s.companies && s.companies[id] == c ==> SaveRow(s, id, c.org, c.code) == Failure(CodeOutOfRange)
  }

  lemma TwoSteps(s: State, a: Step, b: Step)
    ensures Run(s, [a, b]) == Next(Next(s, a), b)
  {
    assert [a, b][1..] == [b];
    assert Run(Next(s, a), [b]) == Run(Next(Next(s, a), b), []);
  }

  // ----- the stored rows

  class Companies {
    var companies: map<CompanyId, Company>
    var counters: map<OrgId, nat>
    ghost var ever: set<Company>

    ghost function Contents(): State
      reads this
    {
      State(companies, counters, ever)
    }

    ghost predicate Valid()
      reads this
    {
      Consistent(Contents())
    }

    /** The rows after the migration. */
    constructor (rows: map<CompanyId, Company>, seeds: map<OrgId, nat>, ghost seeded: seq<Row>)
      requires Migrated(State(rows, seeds, set id | id in rows :: rows[id]), seeded)
      ensures Valid() && companies == rows && counters == seeds
      ensures ever == (set id | id in rows :: rows[id])
    {
      companies, counters := rows, seeds;
      ever := set id | id in rows :: rows[id];
      new;
      MigratedIsConsistent(Contents(), seeded);
    }

    /** Increments the counter for a generated code, or raises it to a given one. */
    method AssignCode(org: OrgId, code: string) returns (r: Result<string, Error>)
      modifies this`counters
      ensures match Allocate(Counter(old(Contents()), org), code)
              case Success(a) => r == Success(a.code) && counters == old(counters)[org := a.counter]
              case Failure(e) => r == Failure(e)
    {
      if org !in counters {
        counters := counters[org := 0];
      }
      if code == "" {
        if counters[org] + 1 > COUNTER_MAX {
          return Failure(CounterOverflow);
        }
        counters := counters[org := counters[org] + 1];
        return Success(Format(counters[org]));
      }
      var number := CodeNumber(code);
      if number.Some? {
        if number.value > CODE_LIMIT {
          return Failure(CodeOutOfRange);
        }
        if counters[org] < number.value {
          counters := counters[org := number.value];
        }
      }
      r := Success(code);
    }

    /** Assigns the code and stores the company; an error rolls the counter back. */
    method Save(id: CompanyId, org: OrgId, code: string) returns (r: Result<string, Error>)
      requires Valid()
      modifies this
      ensures Valid()
      ensures match SaveRow(old(Contents()), id, org, code)
              case Success(s) => Contents() == s && r == Success(s.companies[id].code)
              case Failure(e) => Contents() == old(Contents()) && r == Failure(e)
    {
      NextIsConsistent(Contents(), DoSave(id, org, code));
      var before := counters;
      r := AssignCode(org, code);
      if r.Success? {
        var c := Company(org, r.value);
        if Taken(companies, id, c) {
          r := Failure(DuplicateCode);
        } else {
          companies := companies[id := c];
          ever := ever + {c};
        }
      }
      if r.Failure? {
        counters := before;
      }
    }

    method Delete(id: CompanyId)
      requires Valid()
      modifies this
      ensures Valid()
      ensures Contents() == DeleteRow(old(Contents()), id)
    {
      companies := companies - {id};
    }
  }
}
