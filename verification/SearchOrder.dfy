/** In which order the pages of a search list the matches. */
module SearchOrder {
  import opened Ordering
  import opened Text
  import opened Search

  // ----- matches

  /** At the first difference in the list of texts the smaller one comes first. */
  ghost predicate ComesFirst(a: seq<string>, b: seq<string>) {
    exists n: nat | n < |a| && n < |b| :: a[..n] == b[..n] && Precedes(a[n], b[n])
  }

  /** The texts that decide between matches of one type and rank, the most important one first. */
  function Texts(h: Hit): seq<string> { [h.name, h.orgName, h.orgId, h.id] }

  /**
   * A better rank comes first; at the same rank companies come before contacts and contacts before
   * deals; at the same type names decide, then workspace names, workspaces and identifiers.
   */
  ghost predicate ListedBefore(a: Hit, b: Hit) {
    || a.rank < b.rank
    || (a.rank == b.rank
        && (|| (a.kind == CompanyHit && b.kind != CompanyHit)
            || (a.kind == ContactHit && b.kind == DealHit)
            || (a.kind == b.kind && ComesFirst(Texts(a), Texts(b)))))
  }

  lemma FirstDifference(a: seq<string>, b: seq<string>)
    requires |a| == |b| == 4
    ensures ComesFirst(a, b) <==>
            || Precedes(a[0], b[0])
            || (a[0] == b[0] && Precedes(a[1], b[1]))
            || (a[0] == b[0] && a[1] == b[1] && Precedes(a[2], b[2]))
            || (a[0] == b[0] && a[1] == b[1] && a[2] == b[2] && Precedes(a[3], b[3]))
  {
    assert a[..0] == b[..0];
    assert a[..1] == b[..1] <==> a[0] == b[0];
    assert a[..2] == b[..2] <==> a[0] == b[0] && a[1] == b[1];
    assert a[..3] == b[..3] <==> a[0] == b[0] && a[1] == b[1] && a[2] == b[2];
  }

  lemma HitLessIs(a: Hit, b: Hit)
    ensures HitLess(a, b) <==> ListedBefore(a, b)
  {
    TextLessIsLexicographic(a.name, b.name);
    TextLessIsLexicographic(a.orgName, b.orgName);
    TextLessIsLexicographic(a.orgId, b.orgId);
    TextLessIsLexicographic(a.id, b.id);
    FirstDifference(Texts(a), Texts(b));
  }

  // ----- pages

  lemma SliceAscends(s: seq<Hit>, from: nat, to: nat)
    requires from <= to && Ascending(s, HitLess)
    ensures Ascending(Slice(s, from, to), HitLess)
  {
  }

  /** Every page lists its matches in that order, whatever the order of the database. */
  lemma PageIsOrdered(m: Matches, kinds: seq<Kind>, page: nat, size: nat, i: nat, j: nat)
    requires m.Valid() && Distinct(kinds) && page >= 1
    requires i < j < |Page(m, kinds, page, size)|
    ensures ListedBefore(Page(m, kinds, page, size)[i], Page(m, kinds, page, size)[j])
  {
    var c := Candidates(m, kinds, PageEnd(page, size));
    HitsAreOrdered();
    CandidatesAreDistinct(m, kinds, PageEnd(page, size));
    SortSorts(c);
    SliceAscends(Sort(c), PageStart(page, size), PageEnd(page, size));
    HitLessIs(Page(m, kinds, page, size)[i], Page(m, kinds, page, size)[j]);
  }

  lemma {:induction false} LaterPagesStartLater(page: nat, later: nat, size: nat)
    requires 1 <= page < later
    ensures PageEnd(page, size) <= PageStart(later, size)
  {
    if later > page + 1 { LaterPagesStartLater(page, later - 1, size); }
  }

  lemma SlicesAreOrdered(s: seq<Hit>, from: nat, to: nat, from': nat, to': nat, i: nat, j: nat)
    requires Ascending(s, HitLess) && from <= to <= from' <= to'
    requires i < |Slice(s, from, to)| && j < |Slice(s, from', to')|
    ensures HitLess(Slice(s, from, to)[i], Slice(s, from', to')[j])
  {
    assert Slice(s, from, to)[i] == s[from + i] && Slice(s, from', to')[j] == s[from' + j];
  }

  /** And where database and key agree, each page comes before the later ones. */
  lemma PagesAreOrdered(m: Matches, kinds: seq<Kind>, page: nat, later: nat, size: nat, i: nat, j: nat)
    requires m.Valid() && Distinct(kinds) && OrdersAgree(m) && 1 <= page < later
    requires i < |Page(m, kinds, page, size)| && j < |Page(m, kinds, later, size)|
    ensures ListedBefore(Page(m, kinds, page, size)[i], Page(m, kinds, later, size)[j])
  {
    HitsAreOrdered();
    EverythingIsSorted(m, kinds);
    PageIsSlice(m, kinds, page, size);
    PageIsSlice(m, kinds, later, size);
    LaterPagesStartLater(page, later, size);
    SlicesAreOrdered(Everything(m, kinds), PageStart(page, size), PageEnd(page, size),
                     PageStart(later, size), PageEnd(later, size), i, j);
    HitLessIs(Page(m, kinds, page, size)[i], Page(m, kinds, later, size)[j]);
  }

  /** A page never has more than its size, and what it lists was asked for and found. */
  lemma PageHoldsMatches(m: Matches, kinds: seq<Kind>, page: nat, size: nat, h: Hit)
    requires m.Valid() && Distinct(kinds) && page >= 1
    ensures |Page(m, kinds, page, size)| <= size
    ensures h in Page(m, kinds, page, size) ==>
              && h.kind in kinds
              && h in (match h.kind
                       case CompanyHit => m.companies
                       case ContactHit => m.contacts
                       case DealHit => m.deals)
  {
    var c := Candidates(m, kinds, PageEnd(page, size));
    HitsAreOrdered();
    CandidatesAreDistinct(m, kinds, PageEnd(page, size));
    SortSorts(c);
    CandidateMembers(m, kinds, PageEnd(page, size), h);
  }
}
