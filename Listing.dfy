/**
 * The participant table of the dashboard: the case-insensitive search over
 * name, CPF and e-mail, and the ten-row page cut out of the search result
 * with JavaScript's `Array.prototype.slice`.
 */
module Listing {
  import opened Strings
  import opened Domain

  /**
   * The search predicate: the lower-cased query occurs in the lower-cased
   * name, in the CPF as stored, or in the lower-cased e-mail.
   */
  predicate Matches(p: Participant, query: string)
  {
    var q := Lower(query);
    Contains(Lower(p.name), q) || Contains(p.cpf, q) || Contains(Lower(p.email), q)
  }

  /** `filteredParticipants`. */
  function Filter(ps: seq<Participant>, query: string): (r: seq<Participant>)
    ensures |r| <= |ps|
  {
    if ps == [] then []
    else Filter(ps[..|ps| - 1], query) + (if Matches(ps[|ps| - 1], query) then [ps[|ps| - 1]] else [])
  }

  /** `a` is `b` with some elements left out, the rest in their order. */
  predicate IsSubsequence<T(==)>(a: seq<T>, b: seq<T>)
    decreases |b|
  {
    if a == [] then true
    else if b == [] then false
    else if a[|a| - 1] == b[|b| - 1] then IsSubsequence(a[..|a| - 1], b[..|b| - 1])
    else IsSubsequence(a, b[..|b| - 1])
  }

  /** The search keeps the records it returns in the order of the list. */
  lemma {:induction false} FilterKeepsOrder(ps: seq<Participant>, query: string)
    ensures IsSubsequence(Filter(ps, query), ps)
  {
    if ps != [] {
      var n := |ps| - 1;
      var r0 := Filter(ps[..n], query);
      FilterKeepsOrder(ps[..n], query);
      if Matches(ps[n], query) {
        var r := r0 + [ps[n]];
        assert r[..|r| - 1] == r0;
      } else {
        assert Filter(ps, query) == r0;
        SubsequenceExtend(r0, ps[..n], ps[n]);
        assert ps[..n] + [ps[n]] == ps;
      }
    }
  }

  /** The search keeps every matching record as often as it occurs, and drops every other one. */
  lemma {:induction false} FilterCounts(ps: seq<Participant>, query: string)
    ensures forall p :: multiset(Filter(ps, query))[p] == if Matches(p, query) then multiset(ps)[p] else 0
  {
    if ps != [] {
      var n := |ps| - 1;
      var x := ps[n];
      var r0 := Filter(ps[..n], query);
      FilterCounts(ps[..n], query);
      assert ps == ps[..n] + [x];
      assert multiset(ps) == multiset(ps[..n]) + multiset{x};
      if Matches(x, query) {
        assert multiset(Filter(ps, query)) == multiset(r0) + multiset{x};
      } else {
        assert Filter(ps, query) == r0;
      }
    }
  }

  lemma {:induction false} SubsequenceExtend<T>(a: seq<T>, b: seq<T>, x: T)
    requires IsSubsequence(a, b)
    ensures IsSubsequence(a, b + [x])
    decreases |b|, 1
  {
    var b' := b + [x];
    assert b'[..|b'| - 1] == b;
    if a != [] && a[|a| - 1] == x {
      // matched greedily against x: the rest of a must fit in b
      SubsequenceInit(a, b);
    }
  }

  /** Dropping the last element keeps a subsequence a subsequence. */
  lemma {:induction false} SubsequenceInit<T>(a: seq<T>, b: seq<T>)
    requires a != [] && IsSubsequence(a, b)
    ensures IsSubsequence(a[..|a| - 1], b)
    decreases |b|, 0
  {
    var a' := a[..|a| - 1];
    if b != [] {
      var b' := b[..|b| - 1];
      if a[|a| - 1] == b[|b| - 1] {
        SubsequenceExtend(a', b', b[|b| - 1]);
        assert b' + [b[|b| - 1]] == b;
      } else {
        SubsequenceInit(a, b');
        SubsequenceExtend(a', b', b[|b| - 1]);
        assert b' + [b[|b| - 1]] == b;
      }
    }
  }

  /** An empty query matches every record, so the search returns the list unchanged. */
  lemma {:induction false} EmptyQueryKeepsAll(ps: seq<Participant>)
    ensures Filter(ps, "") == ps
  {
    if ps != [] {
      var n := |ps| - 1;
      EmptyQueryKeepsAll(ps[..n]);
      assert Lower("") == "";
      ContainsEmpty(Lower(ps[n].name));
      assert ps[..n] + [ps[n]] == ps;
    }
  }

  /** The search ignores the query's case: two queries that lower-case alike find the same records. */
  lemma {:induction false} QueryCaseIgnored(ps: seq<Participant>, q1: string, q2: string)
    requires Lower(q1) == Lower(q2)
    ensures Filter(ps, q1) == Filter(ps, q2)
  {
    if ps != [] {
      QueryCaseIgnored(ps[..|ps| - 1], q1, q2);
      assert Matches(ps[|ps| - 1], q1) == Matches(ps[|ps| - 1], q2);
    }
  }

  /** Searching for the lower-cased query finds what the query as typed finds. */
  lemma LoweredQuerySame(ps: seq<Participant>, query: string)
    ensures Filter(ps, Lower(query)) == Filter(ps, query)
  {
    LowerIdempotent(query);
    QueryCaseIgnored(ps, Lower(query), query);
  }

  /** A query no record matches leaves nothing (and no page, see `PageCount`). */
  lemma {:induction false} NoMatchEmpty(ps: seq<Participant>, query: string)
    requires forall i :: 0 <= i < |ps| ==> !Matches(ps[i], query)
    ensures Filter(ps, query) == []
  {
    if ps != [] {
      NoMatchEmpty(ps[..|ps| - 1], query);
    }
  }

  // ---------------------------------------------------------------- paging

  const ItemsPerPage: nat := 10

  /** `Math.ceil(n / Math.max(1, itemsPerPage))`: zero pages for an empty result. */
  function PageCount(n: nat): (r: nat)
    ensures r * ItemsPerPage >= n
    ensures r > 0 ==> (r - 1) * ItemsPerPage < n
  {
    (n + ItemsPerPage - 1) / ItemsPerPage
  }

  /** How `slice` reads one of its arguments: negative counts from the end, clamped to `[0, n]`. */
  function SliceIndex(i: int, n: nat): (r: nat)
    ensures r <= n
  {
    if i < 0 then (if n + i < 0 then 0 else n + i) else (if i < n then i else n)
  }

  /** `s.slice(start, end)`. */
  function Slice<T>(s: seq<T>, start: int, end: int): seq<T>
  {
    var a, b := SliceIndex(start, |s|), SliceIndex(end, |s|);
    if a < b then s[a..b] else []
  }

  /** `paginatedParticipants` for page number `page` (1-based). */
  function Page<T>(s: seq<T>, page: int): seq<T>
  {
    var start := (page - 1) * ItemsPerPage;
    Slice(s, start, start + ItemsPerPage)
  }

  /**
   * For any page from 1 on, the page is the run of at most ten records
   * starting at `(page - 1) * 10`, cut at the end of the list, and it is
   * non-empty exactly when the page number is at most the page count.
   */
  lemma PageRule<T>(s: seq<T>, page: int)
    requires page >= 1
    ensures var start := (page - 1) * ItemsPerPage;
      Page(s, page) == if start >= |s| then [] else s[start..if page * ItemsPerPage < |s| then page * ItemsPerPage else |s|]
    ensures |Page(s, page)| <= ItemsPerPage
    ensures Page(s, page) != [] <==> page <= PageCount(|s|)
  {
  }

  /** Page 0 reads `slice(-10, 0)`, which ends at index 0 and so is empty. */
  lemma PageZeroEmpty<T>(s: seq<T>)
    ensures Page(s, 0) == []
  {
  }

  /** Twenty-five records make three pages: ten, ten and the last five; page 4 is empty. */
  lemma TwentyFiveRecords<T>(s: seq<T>)
    requires |s| == 25
    ensures PageCount(|s|) == 3
    ensures Page(s, 1) == s[..10] && Page(s, 3) == s[20..] && Page(s, 4) == []
  {
    PageRule(s, 1);
    PageRule(s, 3);
    PageRule(s, 4);
  }

  /** Pages 1 to k, one after the other. */
  function PagesUpTo<T>(s: seq<T>, k: nat): seq<T>
  {
    if k == 0 then [] else PagesUpTo(s, k - 1) + Page(s, k)
  }

  /** Reading the pages 1 to `PageCount` in turn gives back the whole list. */
  lemma {:induction false} PagesCoverList<T>(s: seq<T>)
    ensures PagesUpTo(s, PageCount(|s|)) == s
  {
    PagesUpToPrefix(s, PageCount(|s|));
  }

  lemma {:induction false} PagesUpToPrefix<T>(s: seq<T>, k: nat)
    ensures PagesUpTo(s, k) == s[..if k * ItemsPerPage < |s| then k * ItemsPerPage else |s|]
  {
    if k > 0 {
      PagesUpToPrefix(s, k - 1);
      PageRule(s, k);
    }
  }
}
