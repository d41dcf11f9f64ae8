/** The paged search over several record types agrees with one sorted list of everything. */
module Search {
  import opened Numbers
  import opened Ordering
  import opened Text

  datatype Kind = CompanyHit | ContactHit | DealHit

  /**
   * A match: its rank, its type and the values its position is decided by.  Names are folded.
   * The identifier is unique within the type; the rest of the record does not matter here.
   */
  datatype Hit = Hit(rank: nat, kind: Kind, name: string, orgName: string, orgId: string, id: string)

  /** What the database holds for a query: the matches of each type, in the database's order. */
  datatype Matches = Matches(companies: seq<Hit>, contacts: seq<Hit>, deals: seq<Hit>) {
    function Of(kind: Kind): seq<Hit> {
      match kind
      case CompanyHit => companies
      case ContactHit => contacts
      case DealHit => deals
    }

    predicate Valid() {
      && (forall kind, i | 0 <= i < |Of(kind)| :: Of(kind)[i].kind == kind)
      && (forall kind, i, j | 0 <= i < j < |Of(kind)| :: Of(kind)[i] != Of(kind)[j])
    }
  }

  // ----- the sort key

  function KindOrder(k: Kind): nat {
    match k
    case CompanyHit => 0
    case ContactHit => 1
    case DealHit => 2
  }

  predicate HitLess(a: Hit, b: Hit) {
    a.rank < b.rank || (a.rank == b.rank && KindLess(a, b))
  }

  predicate KindLess(a: Hit, b: Hit) {
    KindOrder(a.kind) < KindOrder(b.kind) || (a.kind == b.kind && NameLess(a, b))
  }

  predicate NameLess(a: Hit, b: Hit) {
    TextLess(a.name, b.name) || (a.name == b.name && OrgNameLess(a, b))
  }

  predicate OrgNameLess(a: Hit, b: Hit) {
    TextLess(a.orgName, b.orgName) || (a.orgName == b.orgName && OrgIdLess(a, b))
  }

  predicate OrgIdLess(a: Hit, b: Hit) {
    TextLess(a.orgId, b.orgId) || (a.orgId == b.orgId && TextLess(a.id, b.id))
  }

  /** The key orders all matches strictly and totally, so the sorted list is unique. */
  lemma HitsAreOrdered()
    ensures StrictTotalOrder(HitLess)
  {
    TextOrder();
    forall a, b, c | HitLess(a, b) && HitLess(b, c) ensures HitLess(a, c) {
    }
    forall a, b | a != b ensures HitLess(a, b) || HitLess(b, a) {
    }
  }

  // ----- sorting

  function InsertHit(s: seq<Hit>, h: Hit): seq<Hit> {
    if s == [] || HitLess(h, s[0]) then [h] + s else [s[0]] + InsertHit(s[1..], h)
  }

  /** The sort of the result list. */
  function Sort(s: seq<Hit>): seq<Hit> {
    if s == [] then [] else InsertHit(Sort(s[..|s| - 1]), s[|s| - 1])
  }

  lemma {:induction false} InsertElements(s: seq<Hit>, h: Hit)
    ensures |InsertHit(s, h)| == |s| + 1
    ensures forall x :: x in InsertHit(s, h) <==> x in s || x == h
  {
    if s == [] || HitLess(h, s[0]) {
    } else {
      InsertElements(s[1..], h);
      forall x ensures x in s <==> x == s[0] || x in s[1..] {
        assert s == [s[0]] + s[1..];
      }
    }
  }

  lemma {:induction false} InsertAscends(s: seq<Hit>, h: Hit)
    requires StrictTotalOrder(HitLess) && Ascending(s, HitLess) && h !in s
    ensures Ascending(InsertHit(s, h), HitLess)
  {
    if s == [] || HitLess(h, s[0]) {
    } else {
      assert s[0] in s;
      assert forall x | x in s[1..] :: x in s;
      InsertAscends(s[1..], h);
      InsertElements(s[1..], h);
      var r := InsertHit(s[1..], h);
      forall x | x in r ensures HitLess(s[0], x) {
        if x != h {
          var i :| 0 <= i < |s[1..]| && s[1..][i] == x;
          assert s[i + 1] == x;
        }
      }
      forall i | 0 <= i < |r| ensures HitLess(s[0], r[i]) {
        assert r[i] in r;
      }
    }
  }

  lemma {:induction false} SortSorts(s: seq<Hit>)
    requires StrictTotalOrder(HitLess) && Distinct(s)
    ensures Ascending(Sort(s), HitLess) && SameElements(Sort(s), s) && |Sort(s)| == |s|
  {
    if s != [] {
      var rest, last := s[..|s| - 1], s[|s| - 1];
      SortSorts(rest);
      InsertElements(Sort(rest), last);
      assert s == rest + [last];
      assert last !in rest;
      InsertAscends(Sort(rest), last);
    }
  }

  // ----- the search

  function Take(s: seq<Hit>, n: nat): seq<Hit> { if n <= |s| then s[..n] else s }

  /** `s[from:to]`, which never fails. */
  function Slice(s: seq<Hit>, from: nat, to: nat): seq<Hit>
    requires from <= to
  {
    s[Min(from, |s|)..Min(to, |s|)]
  }

  /** The first `limit` matches of every requested type, type after type. */
  function Candidates(m: Matches, kinds: seq<Kind>, limit: nat): seq<Hit> {
    if kinds == [] then []
    else Candidates(m, kinds[..|kinds| - 1], limit) + Take(m.Of(kinds[|kinds| - 1]), limit)
  }

  function CountOf(m: Matches, kinds: seq<Kind>): nat {
    if kinds == [] then 0
    else CountOf(m, kinds[..|kinds| - 1]) + |m.Of(kinds[|kinds| - 1])|
  }

  /** All matches of the requested types. */
  function AllMatches(m: Matches, kinds: seq<Kind>): seq<Hit> {
    if kinds == [] then []
    else AllMatches(m, kinds[..|kinds| - 1]) + m.Of(kinds[|kinds| - 1])
  }

  /** Where a page starts; see `PageStartIsProduct`. */
  function PageStart(page: nat, size: nat): nat
    requires page >= 1
  {
    if page == 1 then 0 else PageStart(page - 1, size) + size
  }

  lemma {:induction false} PageStartIsProduct(page: nat, size: nat)
    requires page >= 1
    ensures PageStart(page, size) == (page - 1) * size
  {
    if page > 1 {
      PageStartIsProduct(page - 1, size);
      Distribute(page - 1, size);
    } else {
      assert 0 * size == 0;
    }
  }

  function PageEnd(page: nat, size: nat): nat
    requires page >= 1
  {
    PageStart(page, size) + size
  }

  function Page(m: Matches, kinds: seq<Kind>, page: nat, size: nat): seq<Hit>
    requires page >= 1
  {
    Slice(Sort(Candidates(m, kinds, PageEnd(page, size))), PageStart(page, size), PageEnd(page, size))
  }

  /** The reference: one sorted list of everything. */
  function Everything(m: Matches, kinds: seq<Kind>): seq<Hit> { Sort(AllMatches(m, kinds)) }

  datatype Result = Result(count: nat, results: seq<Hit>)

  lemma OneMoreKind(m: Matches, kinds: seq<Kind>, i: nat, limit: nat)
    requires i < |kinds|
    ensures Candidates(m, kinds[..i + 1], limit) == Candidates(m, kinds[..i], limit) + Take(m.Of(kinds[i]), limit)
  {
    assert kinds[..i + 1][..i] == kinds[..i];
  }

  /** The dictionary has the number of matches of each type in the list. */
  ghost predicate IsCountOf(m: Matches, kinds: seq<Kind>, counts: map<Kind, nat>) {
    forall k :: (k in counts <==> k in kinds) && (k in counts ==> counts[k] == |m.Of(k)|)
  }

  lemma OneMoreCount(m: Matches, kinds: seq<Kind>, i: nat, counts: map<Kind, nat>)
    requires i < |kinds| && IsCountOf(m, kinds[..i], counts)
    ensures IsCountOf(m, kinds[..i + 1], counts[kinds[i] := |m.Of(kinds[i])|])
  {
    assert kinds[..i + 1] == kinds[..i] + [kinds[i]];
  }

  method SearchCrm(m: Matches, kinds: seq<Kind>, page: nat, size: nat) returns (r: Result)
    requires page >= 1 && Distinct(kinds)
    ensures r == Result(CountOf(m, kinds), Page(m, kinds, page, size))
  {
    PageStartIsProduct(page, size);
    var start := (page - 1) * size;
    var end := start + size;
    var counts: map<Kind, nat> := map[];
    var results: seq<Hit> := [];
    for i := 0 to |kinds|
      invariant results == Candidates(m, kinds[..i], end)
      invariant IsCountOf(m, kinds[..i], counts)
    {
      OneMoreKind(m, kinds, i, end);
      OneMoreCount(m, kinds, i, counts);
      var matches := m.Of(kinds[i]);
      counts := counts[kinds[i] := |matches|];
      results := results + Take(matches, end);
    }
    assert kinds[..|kinds|] == kinds;
    var count := SumCounts(m, kinds, counts);
    results := Sort(results);
    r := Result(count, Slice(results, start, end));
  }

  /** The sum over the dictionary of counts, which has one entry per type. */
  method SumCounts(m: Matches, kinds: seq<Kind>, counts: map<Kind, nat>) returns (count: nat)
    requires Distinct(kinds) && IsCountOf(m, kinds, counts)
    ensures count == CountOf(m, kinds)
  {
    count := 0;
    for i := 0 to |kinds|
      invariant count == CountOf(m, kinds[..i])
    {
      assert kinds[..i + 1][..i] == kinds[..i];
      count := count + counts[kinds[i]];
    }
    assert kinds[..|kinds|] == kinds;
  }

  // ----- candidates contain every match that can be on the page

  /** The database order and the sort key agree within every type. */
  ghost predicate OrdersAgree(m: Matches) {
    forall kind :: Ascending(m.Of(kind), HitLess)
  }

  lemma {:induction false} AllMatchesMembers(m: Matches, kinds: seq<Kind>, x: Hit)
    requires m.Valid()
    ensures x in AllMatches(m, kinds) <==> x.kind in kinds && x in m.Of(x.kind)
  {
    if kinds != [] {
      var rest, last := kinds[..|kinds| - 1], kinds[|kinds| - 1];
      AllMatchesMembers(m, rest, x);
      assert kinds == rest + [last];
    }
  }

  lemma {:induction false} CandidateMembers(m: Matches, kinds: seq<Kind>, limit: nat, x: Hit)
    requires m.Valid()
    ensures x in Candidates(m, kinds, limit) <==> x.kind in kinds && x in Take(m.Of(x.kind), limit)
  {
    if kinds != [] {
      var rest, last := kinds[..|kinds| - 1], kinds[|kinds| - 1];
      CandidateMembers(m, rest, limit, x);
      assert kinds == rest + [last];
      var taken := Take(m.Of(last), limit);
      if x in taken {
        var i :| 0 <= i < |taken| && taken[i] == x;
        assert m.Of(last)[i] == x;
      }
    }
  }

  lemma ConcatIsDistinct(a: seq<Hit>, b: seq<Hit>)
    requires Distinct(a) && Distinct(b) && forall x | x in a :: x !in b
    ensures Distinct(a + b)
  {
    forall i, j | 0 <= i < |a| && 0 <= j < |b| ensures a[i] != b[j] {
      assert a[i] in a && b[j] in b;
    }
  }

  lemma {:induction false} CandidatesAreDistinct(m: Matches, kinds: seq<Kind>, limit: nat)
    requires m.Valid() && Distinct(kinds)
    ensures Distinct(Candidates(m, kinds, limit))
  {
    if kinds != [] {
      var rest, last := kinds[..|kinds| - 1], kinds[|kinds| - 1];
      CandidatesAreDistinct(m, rest, limit);
      forall x | x in Candidates(m, rest, limit) ensures x !in Take(m.Of(last), limit) {
        CandidateMembers(m, rest, limit, x);
      }
      ConcatIsDistinct(Candidates(m, rest, limit), Take(m.Of(last), limit));
    }
  }

  lemma {:induction false} AllMatchesAreDistinct(m: Matches, kinds: seq<Kind>)
    requires m.Valid() && Distinct(kinds)
    ensures Distinct(AllMatches(m, kinds)) && |AllMatches(m, kinds)| == CountOf(m, kinds)
  {
    if kinds != [] {
      var rest, last := kinds[..|kinds| - 1], kinds[|kinds| - 1];
      AllMatchesAreDistinct(m, rest);
      forall x | x in AllMatches(m, rest) ensures x !in m.Of(last) {
        AllMatchesMembers(m, rest, x);
      }
      ConcatIsDistinct(AllMatches(m, rest), m.Of(last));
    }
  }

  /** A match among the first `limit` of everything is among the first `limit` of its type. */
  lemma TopIsCandidate(m: Matches, kinds: seq<Kind>, limit: nat, j: nat)
    requires m.Valid() && Distinct(kinds) && OrdersAgree(m) && StrictTotalOrder(HitLess)
    requires j < limit && j < |Everything(m, kinds)|
    ensures Everything(m, kinds)[j] in Candidates(m, kinds, limit)
  {
    var whole := Everything(m, kinds);
    EverythingIsSorted(m, kinds);
    var x := whole[j];
    assert x in whole;
    AllMatchesMembers(m, kinds, x);
    var i := IndexInType(m, kinds, x);
    PositionInWhole(m.Of(x.kind), whole, HitLess, i, j);
    assert Take(m.Of(x.kind), limit)[i] == x;
    CandidateMembers(m, kinds, limit, x);
  }

  lemma EverythingIsSorted(m: Matches, kinds: seq<Kind>)
    requires m.Valid() && Distinct(kinds) && StrictTotalOrder(HitLess)
    ensures Ascending(Everything(m, kinds), HitLess)
    ensures SameElements(Everything(m, kinds), AllMatches(m, kinds))
    ensures |Everything(m, kinds)| == CountOf(m, kinds)
  {
    AllMatchesAreDistinct(m, kinds);
    SortSorts(AllMatches(m, kinds));
  }

  lemma IndexInType(m: Matches, kinds: seq<Kind>, x: Hit) returns (i: nat)
    requires m.Valid() && x in AllMatches(m, kinds)
    requires SameElements(Everything(m, kinds), AllMatches(m, kinds))
    ensures i < |m.Of(x.kind)| && m.Of(x.kind)[i] == x
    ensures forall y | y in m.Of(x.kind) :: y in Everything(m, kinds)
  {
    AllMatchesMembers(m, kinds, x);
    i :| 0 <= i < |m.Of(x.kind)| && m.Of(x.kind)[i] == x;
    forall y | y in m.Of(x.kind) ensures y in AllMatches(m, kinds) {
      AllMatchesMembers(m, kinds, y);
    }
  }

  // ----- sorting the candidates starts with the top of everything

  /** The elements of `s` that occur in `keep`, in order. */
  function Restrict(s: seq<Hit>, keep: seq<Hit>): seq<Hit> {
    if s == [] then []
    else Restrict(s[..|s| - 1], keep) + if s[|s| - 1] in keep then [s[|s| - 1]] else []
  }

  lemma {:induction false} RestrictElements(s: seq<Hit>, keep: seq<Hit>, x: Hit)
    ensures x in Restrict(s, keep) <==> x in s && x in keep
  {
    if s != [] {
      var rest, last := s[..|s| - 1], s[|s| - 1];
      RestrictElements(rest, keep, x);
      assert s == rest + [last];
    }
  }

  lemma {:induction false} RestrictAscends(s: seq<Hit>, keep: seq<Hit>)
    requires Ascending(s, HitLess)
    ensures Ascending(Restrict(s, keep), HitLess)
  {
    if s != [] {
      var rest, last := s[..|s| - 1], s[|s| - 1];
      RestrictAscends(rest, keep);
      var r := Restrict(rest, keep);
      forall i | 0 <= i < |r| ensures HitLess(r[i], last) {
        RestrictElements(rest, keep, r[i]);
        LastIsLargest(s, r[i]);
      }
      AppendAscends(r, last);
    }
  }

  lemma LastIsLargest(s: seq<Hit>, x: Hit)
    requires s != [] && Ascending(s, HitLess) && x in s[..|s| - 1]
    ensures HitLess(x, s[|s| - 1])
  {
  }

  lemma AppendAscends(s: seq<Hit>, x: Hit)
    requires Ascending(s, HitLess) && forall i | 0 <= i < |s| :: HitLess(s[i], x)
    ensures Ascending(s + [x], HitLess)
  {
  }

  lemma {:induction false} RestrictOfPrefix(s: seq<Hit>, keep: seq<Hit>, n: nat)
    requires n <= |s|
    ensures Restrict(s[..n], keep) <= Restrict(s, keep)
  {
    if n < |s| {
      var rest := s[..|s| - 1];
      RestrictOfPrefix(rest, keep, n);
      assert rest[..n] == s[..n];
    } else {
      assert s[..n] == s;
    }
  }

  lemma {:induction false} RestrictOfKept(s: seq<Hit>, keep: seq<Hit>)
    requires forall j | 0 <= j < |s| :: s[j] in keep
    ensures Restrict(s, keep) == s
  {
    if s != [] {
      RestrictOfKept(s[..|s| - 1], keep);
    }
  }

  lemma RestrictKeepsTop(s: seq<Hit>, keep: seq<Hit>, n: nat)
    requires n <= |s| && forall j | 0 <= j < n :: s[j] in keep
    ensures |Restrict(s, keep)| >= n && Restrict(s, keep)[..n] == s[..n]
  {
    RestrictOfKept(s[..n], keep);
    RestrictOfPrefix(s, keep, n);
  }

  lemma {:induction false} RestrictIsShorter(s: seq<Hit>, keep: seq<Hit>)
    ensures |Restrict(s, keep)| <= |s|
  {
    if s != [] { RestrictIsShorter(s[..|s| - 1], keep); }
  }

  /** Sorting the candidates is restricting the list of everything to them. */
  lemma SortedCandidates(m: Matches, kinds: seq<Kind>, limit: nat)
    requires m.Valid() && Distinct(kinds) && StrictTotalOrder(HitLess)
    ensures Sort(Candidates(m, kinds, limit)) == Restrict(Everything(m, kinds), Candidates(m, kinds, limit))
  {
    var whole, c := Everything(m, kinds), Candidates(m, kinds, limit);
    EverythingIsSorted(m, kinds);
    CandidatesAreDistinct(m, kinds, limit);
    SortSorts(c);
    forall x | x in c ensures x in whole {
      CandidateMembers(m, kinds, limit, x);
      AllMatchesMembers(m, kinds, x);
    }
    forall x ensures x in Restrict(whole, c) <==> x in c {
      RestrictElements(whole, c, x);
    }
    RestrictAscends(whole, c);
    AscendingIsUnique(Sort(c), Restrict(whole, c), HitLess);
  }

  lemma TopOfRestricted(whole: seq<Hit>, c: seq<Hit>, limit: nat)
    requires forall j | 0 <= j < limit && j < |whole| :: whole[j] in c
    ensures Take(Restrict(whole, c), limit) == Take(whole, limit)
  {
    RestrictKeepsTop(whole, c, Min(limit, |whole|));
    RestrictIsShorter(whole, c);
  }

  lemma TopOfCandidates(m: Matches, kinds: seq<Kind>, limit: nat)
    requires m.Valid() && Distinct(kinds) && OrdersAgree(m) && StrictTotalOrder(HitLess)
    ensures Take(Sort(Candidates(m, kinds, limit)), limit) == Take(Everything(m, kinds), limit)
  {
    var whole, c := Everything(m, kinds), Candidates(m, kinds, limit);
    SortedCandidates(m, kinds, limit);
    forall j | 0 <= j < limit && j < |whole| ensures whole[j] in c {
      TopIsCandidate(m, kinds, limit, j);
    }
    TopOfRestricted(whole, c, limit);
  }

  // ----- the promises

  lemma TakeDeterminesSlice(a: seq<Hit>, b: seq<Hit>, from: nat, to: nat)
    requires from <= to && Take(a, to) == Take(b, to)
    ensures Slice(a, from, to) == Slice(b, from, to)
  {
    assert Slice(a, from, to) == Slice(Take(a, to), from, to);
    assert Slice(b, from, to) == Slice(Take(b, to), from, to);
  }

  /**
   * Every page of the search is that slice of the one sorted list of all matches, provided the
   * database order and the sort key agree within each type.
   */
  lemma PageIsSlice(m: Matches, kinds: seq<Kind>, page: nat, size: nat)
    requires m.Valid() && Distinct(kinds) && OrdersAgree(m) && page >= 1
    ensures Page(m, kinds, page, size) == Slice(Everything(m, kinds), PageStart(page, size), PageEnd(page, size))
  {
    HitsAreOrdered();
    var end := PageEnd(page, size);
    TopOfCandidates(m, kinds, end);
    TakeDeterminesSlice(Sort(Candidates(m, kinds, end)), Everything(m, kinds), PageStart(page, size), end);
  }

  /** The count is the length of that list, whatever the database order. */
  lemma CountIsTotal(m: Matches, kinds: seq<Kind>)
    requires m.Valid() && Distinct(kinds)
    ensures CountOf(m, kinds) == |Everything(m, kinds)|
  {
    HitsAreOrdered();
    EverythingIsSorted(m, kinds);
  }

  /** The pages 1 to `n`, one after the other. */
  function Pages(m: Matches, kinds: seq<Kind>, size: nat, n: nat): seq<Hit> {
    if n == 0 then [] else Pages(m, kinds, size, n - 1) + Page(m, kinds, n, size)
  }

  lemma PagesArePrefix(m: Matches, kinds: seq<Kind>, size: nat, n: nat)
    requires m.Valid() && Distinct(kinds) && OrdersAgree(m)
    ensures Pages(m, kinds, size, n) == Take(Everything(m, kinds), PageStart(n + 1, size))
  {
    forall p | 1 <= p <= n
      ensures Page(m, kinds, p, size) == Slice(Everything(m, kinds), PageStart(p, size), PageEnd(p, size))
    {
      PageIsSlice(m, kinds, p, size);
    }
    SlicesAddUp(m, kinds, size, n, Everything(m, kinds));
  }

  lemma {:induction false} SlicesAddUp(m: Matches, kinds: seq<Kind>, size: nat, n: nat, whole: seq<Hit>)
    requires forall p | 1 <= p <= n :: Page(m, kinds, p, size) == Slice(whole, PageStart(p, size), PageEnd(p, size))
    ensures Pages(m, kinds, size, n) == Take(whole, PageStart(n + 1, size))
  {
    if n > 0 {
      SlicesAddUp(m, kinds, size, n - 1, whole);
      TakeThenSlice(whole, PageStart(n, size), PageEnd(n, size));
      assert PageStart(n + 1, size) == PageEnd(n, size);
    }
  }

  lemma TakeThenSlice(s: seq<Hit>, from: nat, to: nat)
    requires from <= to
    ensures Take(s, from) + Slice(s, from, to) == Take(s, to)
  {
  }

  /** Walking through enough pages lists every match of the requested types exactly once. */
  lemma WalkListsEverythingOnce(m: Matches, kinds: seq<Kind>, size: nat, n: nat)
    requires m.Valid() && Distinct(kinds) && OrdersAgree(m)
    requires n * size >= CountOf(m, kinds)
    ensures multiset(Pages(m, kinds, size, n)) == multiset(AllMatches(m, kinds))
    ensures Distinct(Pages(m, kinds, size, n))
  {
    HitsAreOrdered();
    PagesArePrefix(m, kinds, size, n);
    PageStartIsProduct(n + 1, size);
    EverythingIsSorted(m, kinds);
    AllMatchesAreDistinct(m, kinds);
    var whole := Everything(m, kinds);
    assert PageStart(n + 1, size) >= |whole|;
    TakeAll(whole, PageStart(n + 1, size));
    AscendingIsDistinct(whole);
    SameMultiset(whole, AllMatches(m, kinds));
  }

  lemma TakeAll(s: seq<Hit>, n: nat)
    requires n >= |s|
    ensures Take(s, n) == s
  {
  }

  lemma AscendingIsDistinct(s: seq<Hit>)
    requires StrictTotalOrder(HitLess) && Ascending(s, HitLess)
    ensures Distinct(s)
  {
  }

  lemma {:induction false} CountInDistinct(s: seq<Hit>, x: Hit)
    requires Distinct(s)
    ensures multiset(s)[x] == if x in s then 1 else 0
  {
    if s != [] {
      var rest, last := s[..|s| - 1], s[|s| - 1];
      assert s == rest + [last];
      CountInDistinct(rest, x);
      assert last !in rest;
    }
  }

  lemma SameMultiset(a: seq<Hit>, b: seq<Hit>)
    requires Distinct(a) && Distinct(b) && SameElements(a, b)
    ensures multiset(a) == multiset(b)
  {
    forall x ensures multiset(a)[x] == multiset(b)[x] {
      CountInDistinct(a, x);
      CountInDistinct(b, x);
    }
  }

  // ----- the agreement of the orders is exactly what is needed

  ghost predicate PagesAreSlices(m: Matches) {
    forall kinds: seq<Kind>, page: nat, size: nat | Distinct(kinds) && page >= 1 ::
      PageMatches(m, kinds, page, size)
  }

  predicate PageMatches(m: Matches, kinds: seq<Kind>, page: nat, size: nat)
    requires page >= 1
  {
    Page(m, kinds, page, size) == Slice(Everything(m, kinds), PageStart(page, size), PageEnd(page, size))
  }

  lemma OneKind(m: Matches, kind: Kind, limit: nat)
    ensures Candidates(m, [kind], limit) == Take(m.Of(kind), limit)
    ensures AllMatches(m, [kind]) == m.Of(kind)
  {
    assert [kind][..0] == [];
  }

  lemma {:induction false} SinglePageStart(n: nat)
    requires n > 0
    ensures PageStart(n, 1) == n - 1
  {
    if n > 1 { SinglePageStart(n - 1); }
  }

  lemma TakeIsPrefix(s: seq<Hit>, n: nat)
    requires n <= |s|
    ensures Take(s, n) == s[..n]
  {
  }

  function SortedSlice(s: seq<Hit>, from: nat, to: nat): seq<Hit>
    requires from <= to
  {
    Slice(Sort(s), from, to)
  }

  lemma PageOf(m: Matches, kinds: seq<Kind>, page: nat, size: nat, top: seq<Hit>, all: seq<Hit>, from: nat, to: nat)
    requires page >= 1 && PageStart(page, size) == from && PageEnd(page, size) == to
    requires AllMatches(m, kinds) == all && Candidates(m, kinds, to) == top
    ensures PageMatches(m, kinds, page, size) <==> SortedSlice(top, from, to) == SortedSlice(all, from, to)
  {
  }

  /** The n-th page of one hit of one type. */
  lemma SinglePage(m: Matches, kind: Kind, n: nat)
    requires 0 < n <= |m.Of(kind)|
    ensures PageMatches(m, [kind], n, 1)
       <==> SortedSlice(Take(m.Of(kind), n), n - 1, n) == SortedSlice(m.Of(kind), n - 1, n)
  {
    SinglePageStart(n);
    OneKind(m, kind, n);
    PageOf(m, [kind], n, 1, Take(m.Of(kind), n), m.Of(kind), n - 1, n);
  }

  /** If all pages of one hit of a type are right, the database order of the type is the sorted one. */
  lemma {:induction false} SinglePagesForceOrder(m: Matches, kind: Kind, n: nat)
    requires m.Valid() && PagesAreSlices(m) && StrictTotalOrder(HitLess)
    requires n <= |m.Of(kind)|
    ensures |Sort(m.Of(kind))| == |m.Of(kind)|
    ensures Sort(m.Of(kind))[..n] == m.Of(kind)[..n]
  {
    var s := m.Of(kind);
    SortSorts(s);
    if n > 0 {
      SinglePagesForceOrder(m, kind, n - 1);
      assert PageMatches(m, [kind], n, 1);
      SinglePage(m, kind, n);
      TakeIsPrefix(s, n);
      SortSorts(s[..n]);
      LastOfSorted(s, Sort(s), Sort(s[..n]), n);
    }
  }

  /** If both lists agree before position `n - 1` and the element there is among the first `n`, they agree on it. */
  lemma LastOfSorted(s: seq<Hit>, f: seq<Hit>, top: seq<Hit>, n: nat)
    requires 0 < n <= |s| && |f| == |s| && |top| == n && SameElements(top, s[..n])
    requires f[..n - 1] == s[..n - 1] && Distinct(s)
    requires StrictTotalOrder(HitLess) && Ascending(f, HitLess)
    requires Slice(top, n - 1, n) == Slice(f, n - 1, n)
    ensures f[..n] == s[..n]
  {
    var x := f[n - 1];
    assert Slice(top, n - 1, n)[0] == top[n - 1] && Slice(f, n - 1, n)[0] == x;
    assert x in top;
    var i :| 0 <= i < n && s[..n][i] == x;
    forall k | 0 <= k < n - 1 ensures f[k] == s[k] {
      assert f[..n - 1][k] == s[..n - 1][k];
    }
    assert f[..n] == f[..n - 1] + [x] && s[..n] == s[..n - 1] + [s[n - 1]];
  }

  /**
   * All pages of all type lists are slices of the one sorted list if and only if the database
   * order agrees with the sort key within every type.
   */
  lemma AgreementIsNecessary(m: Matches)
    requires m.Valid()
    ensures PagesAreSlices(m) <==> OrdersAgree(m)
  {
    HitsAreOrdered();
    if OrdersAgree(m) {
      forall kinds: seq<Kind>, page: nat, size: nat | Distinct(kinds) && page >= 1
        ensures PageMatches(m, kinds, page, size)
      {
        PageIsSlice(m, kinds, page, size);
      }
    }
    if PagesAreSlices(m) {
      forall kind ensures Ascending(m.Of(kind), HitLess) {
        var s := m.Of(kind);
        SinglePagesForceOrder(m, kind, |s|);
        SortSorts(s);
        assert Sort(s)[..|s|] == Sort(s) && s[..|s|] == s;
      }
    }
  }

  /** Of two matches listed against the key, pages of one show the first one twice and the other never. */
  lemma MisorderedPairRepeats(m: Matches, kind: Kind, a: Hit, b: Hit)
    requires m.Of(kind) == [a, b] && HitLess(b, a)
    ensures Page(m, [kind], 1, 1) == Page(m, [kind], 2, 1) == [a]
  {
    OneKind(m, kind, 1);
    OneKind(m, kind, 2);
    assert [a, b][..1] == [a] && [a, b][..2] == [a, b];
    assert [a][..0] == [];
    assert Sort([a]) == [a];
    assert Sort([a, b]) == InsertHit([a], b) == [b, a];
    assert PageStart(2, 1) == 1 && PageEnd(2, 1) == 2;
  }

  lemma MisorderedPairBreaks(m: Matches, kind: Kind, a: Hit, b: Hit)
    requires m.Valid() && m.Of(kind) == [a, b] && HitLess(b, a)
    ensures !PagesAreSlices(m)
  {
    HitsAreOrdered();
    assert m.Of(kind)[0] == a && m.Of(kind)[1] == b;
    AgreementIsNecessary(m);
  }

  lemma SpaceComesFirst()
    ensures TextLess("de luca", "delano")
  {
    assert "de luca"[1..] == "e luca" && "delano"[1..] == "elano";
    assert "e luca"[1..] == " luca" && "elano"[1..] == "lano";
    assert TextLess(" luca", "lano");
  }

  /**
   * A database order that ignores spaces lists "delano" before "de luca", where the key has them the
   * other way round: walking pages of one shows the first company twice and the second one never.
   */
  lemma SpacesBreakPages(m: Matches, a: Hit, b: Hit)
    requires a.kind == b.kind == CompanyHit && a.rank == b.rank
    requires a.name == "delano" && b.name == "de luca" && m == Matches([a, b], [], [])
    ensures m.Valid() && !PagesAreSlices(m)
    ensures Page(m, [CompanyHit], 1, 1) == Page(m, [CompanyHit], 2, 1) == [a]
  {
    SpaceComesFirst();
    assert a.name[2] != b.name[2];
    MisorderedPairRepeats(m, CompanyHit, a, b);
    MisorderedPairBreaks(m, CompanyHit, a, b);
  }
}
