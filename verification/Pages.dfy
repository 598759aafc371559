/**
 The page allocator of src/slab.c: a list of runs of free pages in address order. Pages are
 numbered by their place in memory, 0 standing for RT_NULL; the header of a run lies in its
 first page.

 `PageRuns` says what the list stands for: a set of pages, of which it is the only canonical
 list. `PageAlloc` is the code's singly linked list.
 */
module PageRuns {
  datatype Run = Run(at: nat, count: nat)

  predicate In(r: Run, p: nat) {
    r.at <= p < r.at + r.count
  }

  /** The pages of a list of runs. */
  ghost predicate Free(rs: seq<Run>, p: nat) {
    exists i :: 0 <= i < |rs| && In(rs[i], p)
  }

  /** Two runs one after the other with a page in between that is in neither. */
  predicate Gap(a: Run, b: Run) {
    a.at + a.count < b.at
  }

  /** Runs that are not empty, in order, with gaps. */
  ghost predicate Canonical(rs: seq<Run>) {
    && (forall i :: 0 <= i < |rs| ==> rs[i].at > 0 && rs[i].count > 0)
    && (forall i :: 0 <= i < |rs| - 1 ==> Gap(rs[i], rs[i + 1]))
  }

  lemma CanonicalTail(rs: seq<Run>)
    requires Canonical(rs) && rs != []
    ensures Canonical(rs[1..])
  {
    forall i | 0 <= i < |rs[1..]| - 1 ensures Gap(rs[1..][i], rs[1..][i + 1]) {
      assert Gap(rs[i + 1], rs[i + 2]);
    }
  }

  /** Every page of a canonical list lies behind the gap of the first run, or in it. */
  lemma {:induction false} Behind(rs: seq<Run>, p: nat)
    requires Canonical(rs) && rs != [] && Free(rs, p)
    ensures p >= rs[0].at && (p < rs[0].at + rs[0].count || (Free(rs[1..], p) && p > rs[0].at + rs[0].count))
    decreases |rs|
  {
    CanonicalTail(rs);
    var i :| 0 <= i < |rs| && In(rs[i], p);
    if i > 0 {
      assert rs[1..][i - 1] == rs[i];
      assert Free(rs[1..], p);
      Behind(rs[1..], p);
      assert Gap(rs[0], rs[1]);
    }
  }

  lemma FreeOf(rs: seq<Run>, p: nat)
    requires rs != []
    ensures Free(rs, p) <==> In(rs[0], p) || Free(rs[1..], p)
  {
    if Free(rs[1..], p) {
      var i :| 0 <= i < |rs[1..]| && In(rs[1..][i], p);
      assert In(rs[i + 1], p);
    }
    if Free(rs, p) {
      var i :| 0 <= i < |rs| && In(rs[i], p);
      if i > 0 {
        assert rs[1..][i - 1] == rs[i];
      }
    }
  }

  lemma FirstFree(rs: seq<Run>)
    requires Canonical(rs)
    ensures rs != [] ==> Free(rs, rs[0].at)
    ensures rs == [] ==> forall p: nat :: !Free(rs, p)
  {
    assert rs != [] ==> In(rs[0], rs[0].at);
  }

  /** A set of pages has only one canonical list. */
  lemma {:induction false} Unique(rs: seq<Run>, qs: seq<Run>)
    requires Canonical(rs) && Canonical(qs) && (forall p: nat :: Free(rs, p) <==> Free(qs, p))
    ensures rs == qs
    decreases |rs| + |qs|
  {
    FirstFree(rs);
    FirstFree(qs);
    if rs != [] && qs != [] {
      SameFirst(rs, qs);
      SameFirst(qs, rs);
      CanonicalTail(rs);
      CanonicalTail(qs);
      forall p: nat ensures Free(rs[1..], p) <==> Free(qs[1..], p) {
        TailFree(rs, p);
        TailFree(qs, p);
      }
      Unique(rs[1..], qs[1..]);
      assert rs == [rs[0]] + rs[1..] && qs == [qs[0]] + qs[1..];
    }
  }

  /** In the tail are the pages that are free but not in the first run. */
  lemma TailFree(rs: seq<Run>, p: nat)
    requires Canonical(rs) && rs != []
    ensures Free(rs[1..], p) <==> Free(rs, p) && !In(rs[0], p)
  {
    FreeOf(rs, p);
    if Free(rs[1..], p) {
      CanonicalTail(rs);
      Behind(rs[1..], p);
      assert Gap(rs[0], rs[1]);
    }
  }

  lemma SameFirst(rs: seq<Run>, qs: seq<Run>)
    requires Canonical(rs) && Canonical(qs) && rs != [] && qs != []
    requires forall p: nat :: Free(rs, p) <==> Free(qs, p)
    ensures rs[0].at >= qs[0].at
    ensures rs[0].at == qs[0].at ==> rs[0].count >= qs[0].count
  {
    FreeOf(rs, rs[0].at);
    Behind(qs, rs[0].at);
    if rs[0].at == qs[0].at && rs[0].count < qs[0].count {
      var p := rs[0].at + rs[0].count;
      FreeOf(qs, p);
      Behind(rs, p);
    }
  }

  // ----- allocation -----

  /** n pages from the first run that has them. */
  function Alloc(rs: seq<Run>, n: nat): (seq<Run>, nat)
    requires n > 0
  {
    if rs == [] then ([], 0)
    else if rs[0].count > n then ([Run(rs[0].at + n, rs[0].count - n)] + rs[1..], rs[0].at)
    else if rs[0].count == n then (rs[1..], rs[0].at)
    else (
      var (qs, a) := Alloc(rs[1..], n);
      ([rs[0]] + qs, a))
  }

  lemma {:induction false} AllocKeeps(rs: seq<Run>, n: nat)
    requires Canonical(rs) && n > 0
    ensures Canonical(Alloc(rs, n).0)
    ensures Alloc(rs, n).1 == 0 ==> Alloc(rs, n).0 == rs
    ensures Alloc(rs, n).0 != [] && rs != [] ==> Alloc(rs, n).0[0].at >= rs[0].at
    ensures rs == [] ==> Alloc(rs, n).0 == []
    decreases |rs|
  {
    if rs != [] {
      CanonicalTail(rs);
      var qs := Alloc(rs, n).0;
      if rs[0].count > n {
        forall i | 0 <= i < |qs| - 1 ensures Gap(qs[i], qs[i + 1]) {
          assert Gap(rs[i], rs[i + 1]);
        }
      } else if rs[0].count < n {
        AllocKeeps(rs[1..], n);
        var t := Alloc(rs[1..], n).0;
        forall i | 0 <= i < |qs| - 1 ensures Gap(qs[i], qs[i + 1]) {
          if i > 0 {
            assert Gap(t[i - 1], t[i]);
          } else {
            assert Gap(rs[0], rs[1]);
          }
        }
        if Alloc(rs, n).1 == 0 {
          assert [rs[0]] + rs[1..] == rs;
        }
      } else if qs != [] {
        assert Gap(rs[0], rs[1]);
      }
    }
  }

  /** Exactly the pages handed out are gone; they were free. */
  lemma {:induction false} AllocTakes(rs: seq<Run>, n: nat, p: nat)
    requires Canonical(rs) && n > 0 && Alloc(rs, n).1 != 0
    ensures var (qs, a) := Alloc(rs, n);
      (Free(qs, p) <==> Free(rs, p) && !(a <= p < a + n)) && (a <= p < a + n ==> Free(rs, p))
    decreases |rs|
  {
    var (qs, a) := Alloc(rs, n);
    CanonicalTail(rs);
    FreeOf(rs, p);
    TailFree(rs, p);
    if rs[0].count > n {
      FreeOf(qs, p);
      assert qs[1..] == rs[1..];
    } else if rs[0].count < n {
      AllocTakes(rs[1..], n, p);
      FreeOf(qs, p);
      assert qs[1..] == Alloc(rs[1..], n).0;
      AllocBehind(rs, n);
    }
  }

  /** What is taken behind the first run does not touch it. */
  lemma AllocBehind(rs: seq<Run>, n: nat)
    requires Canonical(rs) && n > 0 && rs != [] && rs[0].count < n && Alloc(rs, n).1 != 0
    ensures Alloc(rs, n).1 > rs[0].at + rs[0].count
  {
    CanonicalTail(rs);
    AllocFrom(rs[1..], n);
    assert Gap(rs[0], rs[1]);
  }

  lemma {:induction false} AllocFrom(rs: seq<Run>, n: nat)
    requires Canonical(rs) && n > 0 && Alloc(rs, n).1 != 0
    ensures rs != [] && Alloc(rs, n).1 >= rs[0].at
    decreases |rs|
  {
    if rs[0].count < n {
      CanonicalTail(rs);
      AllocFrom(rs[1..], n);
      assert Gap(rs[0], rs[1]);
    }
  }

  /** n pages in a row that are all free. */
  ghost predicate AllFree(rs: seq<Run>, a: nat, n: nat) {
    forall p: nat :: a <= p < a + n ==> Free(rs, p)
  }

  /** Allocation fails only when no n free pages lie in a row. */
  lemma {:induction false} AllocComplete(rs: seq<Run>, n: nat, a: nat)
    requires Canonical(rs) && n > 0 && AllFree(rs, a, n)
    ensures Alloc(rs, n).1 != 0
    decreases |rs|
  {
    assert Free(rs, a);
    if rs[0].count < n {
      CanonicalTail(rs);
      Behind(rs, a);
      if a < rs[0].at + rs[0].count {
        var p := rs[0].at + rs[0].count;
        assert a <= p < a + n;
        Behind(rs, p);
      } else {
        forall p: nat | a <= p < a + n ensures Free(rs[1..], p) {
          Behind(rs, p);
        }
        AllocComplete(rs[1..], n, a);
      }
    }
  }

  // ----- release -----

  /** None of the n pages from `a` on is free. */
  ghost predicate NoneFree(rs: seq<Run>, a: nat, n: nat) {
    forall p: nat :: a <= p < a + n ==> !Free(rs, p)
  }

  /** The pages put back where they belong, joined with the runs they touch. */
  function Release(rs: seq<Run>, a: nat, n: nat): seq<Run> {
    if rs == [] then [Run(a, n)]
    else if rs[0].at + rs[0].count == a then
      if |rs| > 1 && a + n == rs[1].at
      then [Run(rs[0].at, rs[0].count + n + rs[1].count)] + rs[2..]
      else [Run(rs[0].at, rs[0].count + n)] + rs[1..]
    else if rs[0].at == a + n then [Run(a, n + rs[0].count)] + rs[1..]
    else if rs[0].at > a + n then [Run(a, n)] + rs
    else [rs[0]] + Release(rs[1..], a, n)
  }

  lemma NoneFreeTail(rs: seq<Run>, a: nat, n: nat)
    requires Canonical(rs) && rs != [] && NoneFree(rs, a, n)
    ensures NoneFree(rs[1..], a, n)
    ensures n > 0 ==> a + n <= rs[0].at || rs[0].at + rs[0].count <= a
  {
    forall p: nat | a <= p < a + n ensures !Free(rs[1..], p) {
      FreeOf(rs, p);
    }
    FreeOf(rs, if a < rs[0].at then rs[0].at else a);
  }

  /** The list stays canonical, and starts no later than before. */
  lemma {:induction false} ReleaseKeeps(rs: seq<Run>, a: nat, n: nat)
    requires Canonical(rs) && n > 0 && a > 0 && NoneFree(rs, a, n)
    ensures var qs := Release(rs, a, n);
      && Canonical(qs) && qs != []
      && (rs != [] ==> qs[0].at == if rs[0].at < a then rs[0].at else a)
      && (rs == [] ==> qs[0].at == a)
    decreases |rs|
  {
    if rs != [] {
      CanonicalTail(rs);
      NoneFreeTail(rs, a, n);
      var qs := Release(rs, a, n);
      if rs[0].at + rs[0].count == a {
        if |rs| > 1 {
          NoneFreeTail(rs[1..], a, n);
          assert Gap(rs[0], rs[1]);
        }
        forall i | 0 <= i < |qs| - 1 ensures Gap(qs[i], qs[i + 1]) {
          if |rs| > 1 && a + n == rs[1].at {
            assert Gap(rs[i + 1], rs[i + 2]);
          } else {
            assert Gap(rs[i], rs[i + 1]);
          }
        }
      } else if rs[0].at == a + n {
        forall i | 0 <= i < |qs| - 1 ensures Gap(qs[i], qs[i + 1]) {
          assert Gap(rs[i], rs[i + 1]);
        }
      } else if rs[0].at > a + n {
        forall i | 0 <= i < |qs| - 1 ensures Gap(qs[i], qs[i + 1]) {
          if i > 0 {
            assert Gap(rs[i - 1], rs[i]);
          }
        }
      } else {
        ReleaseKeeps(rs[1..], a, n);
        var t := Release(rs[1..], a, n);
        if |rs| > 1 {
          assert Gap(rs[0], rs[1]);
        }
        forall i | 0 <= i < |qs| - 1 ensures Gap(qs[i], qs[i + 1]) {
          if i > 0 {
            assert Gap(t[i - 1], t[i]);
          }
        }
      }
    }
  }

  /** Exactly the pages put back are added. */
  lemma {:induction false} ReleaseAdds(rs: seq<Run>, a: nat, n: nat, p: nat)
    requires Canonical(rs) && n > 0
    ensures Free(Release(rs, a, n), p) <==> Free(rs, p) || a <= p < a + n
    decreases |rs|
  {
    var qs := Release(rs, a, n);
    FreeOf(qs, p);
    if rs != [] {
      CanonicalTail(rs);
      FreeOf(rs, p);
      if rs[0].at + rs[0].count == a {
        if |rs| > 1 && a + n == rs[1].at {
          FreeOf(rs[1..], p);
          assert rs[1..][1..] == rs[2..] && qs[1..] == rs[2..];
        } else {
          assert qs[1..] == rs[1..];
        }
      } else if rs[0].at == a + n {
        assert qs[1..] == rs[1..];
      } else if rs[0].at > a + n {
        assert qs[1..] == rs;
      } else {
        ReleaseAdds(rs[1..], a, n, p);
        assert qs[1..] == Release(rs[1..], a, n);
      }
    } else {
      assert qs[1..] == [];
    }
  }

  /** Taking pages and putting them back restores the very same list. */
  lemma AllocThenRelease(rs: seq<Run>, n: nat)
    requires Canonical(rs) && n > 0 && Alloc(rs, n).1 != 0
    ensures Release(Alloc(rs, n).0, Alloc(rs, n).1, n) == rs
  {
    var (qs, a) := Alloc(rs, n);
    AllocKeeps(rs, n);
    forall p: nat | a <= p < a + n ensures !Free(qs, p) {
      AllocTakes(rs, n, p);
    }
    ReleaseKeeps(qs, a, n);
    forall p: nat ensures Free(Release(qs, a, n), p) <==> Free(rs, p) {
      ReleaseAdds(qs, a, n, p);
      AllocTakes(rs, n, p);
    }
    Unique(Release(qs, a, n), rs);
  }

  /** The order of releases does not matter: the list is decided by the pages. */
  lemma ReleasesCommute(rs: seq<Run>, a: nat, n: nat, c: nat, m: nat)
    requires Canonical(rs) && n > 0 && m > 0 && a > 0 && c > 0 && (a + n <= c || c + m <= a)
    requires NoneFree(rs, a, n) && NoneFree(rs, c, m)
    ensures Release(Release(rs, a, n), c, m) == Release(Release(rs, c, m), a, n)
  {
    ReleaseKeeps(rs, a, n);
    ReleaseKeeps(rs, c, m);
    forall p: nat ensures Free(Release(rs, a, n), p) <==> Free(rs, p) || a <= p < a + n {
      ReleaseAdds(rs, a, n, p);
    }
    forall p: nat ensures Free(Release(rs, c, m), p) <==> Free(rs, p) || c <= p < c + m {
      ReleaseAdds(rs, c, m, p);
    }
    assert NoneFree(Release(rs, a, n), c, m) && NoneFree(Release(rs, c, m), a, n);
    ReleaseKeeps(Release(rs, a, n), c, m);
    ReleaseKeeps(Release(rs, c, m), a, n);
    forall p: nat ensures Free(Release(Release(rs, a, n), c, m), p) <==> Free(Release(Release(rs, c, m), a, n), p) {
      ReleaseAdds(Release(rs, a, n), c, m, p);
      ReleaseAdds(Release(rs, c, m), a, n, p);
    }
    Unique(Release(Release(rs, a, n), c, m), Release(Release(rs, c, m), a, n));
  }

  /** The number of free pages. */
  function Total(rs: seq<Run>): nat {
    if rs == [] then 0 else rs[0].count + Total(rs[1..])
  }

  lemma {:induction false} AllocTotal(rs: seq<Run>, n: nat)
    requires Canonical(rs) && n > 0
    ensures Total(Alloc(rs, n).0) == Total(rs) - (if Alloc(rs, n).1 != 0 then n else 0)
    decreases |rs|
  {
    if rs != [] {
      CanonicalTail(rs);
      var qs := Alloc(rs, n).0;
      if rs[0].count > n {
        assert qs[1..] == rs[1..];
      } else if rs[0].count < n {
        AllocTotal(rs[1..], n);
        assert qs[1..] == Alloc(rs[1..], n).0;
      }
    }
  }

  lemma {:induction false} ReleaseTotal(rs: seq<Run>, a: nat, n: nat)
    ensures Total(Release(rs, a, n)) == Total(rs) + n
    decreases |rs|
  {
    var qs := Release(rs, a, n);
    if rs != [] {
      if rs[0].at + rs[0].count == a {
        if |rs| > 1 && a + n == rs[1].at {
          assert rs[1..][1..] == rs[2..] && qs[1..] == rs[2..];
        } else {
          assert qs[1..] == rs[1..];
        }
      } else if rs[0].at == a + n {
        assert qs[1..] == rs[1..];
      } else if rs[0].at > a + n {
        assert qs[1..] == rs;
      } else {
        ReleaseTotal(rs[1..], a, n);
        assert qs[1..] == Release(rs[1..], a, n);
      }
    }
  }
}

module PageAlloc {
  import opened PageRuns

  const NULL: nat := 0

  function At(rs: seq<Run>, k: nat): nat {
    if k < |rs| then rs[k].at else NULL
  }

  /** The header fields in the first page of each run: where the next run is, and the pages of this one. */
  ghost predicate LinkedAt(next: map<nat, nat>, page: map<nat, nat>, rs: seq<Run>, k: nat)
    requires k < |rs|
  {
    && rs[k].at in next && rs[k].at in page
    && next[rs[k].at] == At(rs, k + 1) && page[rs[k].at] == rs[k].count
  }

  ghost predicate Shows(next: map<nat, nat>, page: map<nat, nat>, head: nat, rs: seq<Run>) {
    head == At(rs, 0) && forall k :: 0 <= k < |rs| ==> LinkedAt(next, page, rs, k)
  }

  lemma {:induction false} InOrder(rs: seq<Run>, i: nat, j: nat)
    requires Canonical(rs) && i < j < |rs|
    ensures rs[i].at + rs[i].count < rs[j].at
    decreases j - i
  {
    assert Gap(rs[j - 1], rs[j]);
    if i < j - 1 {
      InOrder(rs, i, j - 1);
    }
  }

  lemma AllInOrder(rs: seq<Run>)
    requires Canonical(rs)
    ensures forall i, j :: 0 <= i < j < |rs| ==> rs[i].at + rs[i].count < rs[j].at
  {
    forall i, j | 0 <= i < j < |rs| ensures rs[i].at + rs[i].count < rs[j].at {
      InOrder(rs, i, j);
    }
  }

  ghost predicate SameFields(next: map<nat, nat>, page: map<nat, nat>, next': map<nat, nat>, page': map<nat, nat>,
      x: nat) {
    x in next && x in page ==> x in next' && x in page' && next'[x] == next[x] && page'[x] == page[x]
  }

  /** A list whose first k runs stay: only the link to the rest is written. */
  lemma Spliced(next: map<nat, nat>, page: map<nat, nat>, head: nat, rs: seq<Run>, qs: seq<Run>, k: nat,
                next': map<nat, nat>, page': map<nat, nat>, head': nat)
    requires Shows(next, page, head, rs) && k <= |rs| && k <= |qs| && (forall j :: 0 <= j < k ==> qs[j] == rs[j])
    requires forall j :: k <= j < |qs| ==> LinkedAt(next', page', qs, j)
    requires forall j :: 0 <= j < k - 1 ==> SameFields(next, page, next', page', rs[j].at)
    requires k > 0 ==> head' == head && LinkedAt(next', page', qs, k - 1)
    requires k == 0 ==> head' == At(qs, 0)
    ensures Shows(next', page', head', qs)
  {
    forall j | 0 <= j < |qs| ensures LinkedAt(next', page', qs, j) {
      if j < k - 1 {
        assert LinkedAt(next, page, rs, j) && SameFields(next, page, next', page', rs[j].at);
      }
    }
  }

  lemma {:induction false} AllocSkip(rs: seq<Run>, n: nat, k: nat)
    requires n > 0 && k <= |rs| && forall j :: 0 <= j < k ==> rs[j].count < n
    ensures Alloc(rs, n) == (rs[..k] + Alloc(rs[k..], n).0, Alloc(rs[k..], n).1)
    decreases k
  {
    if k == 0 {
      assert rs[0..] == rs && rs[..0] + Alloc(rs, n).0 == Alloc(rs, n).0;
    } else {
      AllocSkip(rs[1..], n, k - 1);
      assert rs[1..][..k - 1] == rs[1..k] && rs[1..][k - 1..] == rs[k..];
      assert [rs[0]] + (rs[1..k] + Alloc(rs[k..], n).0) == rs[..k] + Alloc(rs[k..], n).0;
    }
  }

  /** The run is behind those already passed in the search for the place of page a. */
  predicate Passed(r: Run, a: nat, n: nat) {
    r.at + r.count != a && r.at != a + n && r.at <= a + n
  }

  lemma {:induction false} ReleaseSkip(rs: seq<Run>, a: nat, n: nat, k: nat)
    requires k <= |rs| && forall j :: 0 <= j < k ==> Passed(rs[j], a, n)
    ensures Release(rs, a, n) == rs[..k] + Release(rs[k..], a, n)
    decreases k
  {
    if k == 0 {
      assert rs[0..] == rs && rs[..0] == [];
    } else {
      assert Passed(rs[0], a, n);
      ReleaseSkip(rs[1..], a, n, k - 1);
      assert rs[1..][..k - 1] == rs[1..k] && rs[1..][k - 1..] == rs[k..];
      assert [rs[0]] + (rs[1..k] + Release(rs[k..], a, n)) == rs[..k] + Release(rs[k..], a, n);
    }
  }

  /** rt_page_list with the headers in the free pages */
  class PageList {
    var next: map<nat, nat>
    var page: map<nat, nat>
    var head: nat
    ghost var runs: seq<Run>

    ghost predicate Valid()
      reads this
    {
      Canonical(runs) && Shows(next, page, head, runs)
    }

    /** rt_page_init */
    constructor (addr: nat, npages: nat)
      requires addr > 0 && npages > 0
      ensures Valid() && runs == [Run(addr, npages)]
    {
      next, page, head, runs := map[addr := NULL], map[addr := npages], addr, [Run(addr, npages)];
    }

    /** *prev = n: the head, or the `next` field of the run in front. */
    method SetLink(prev: nat, n: nat)
      modifies this`head, this`next
      ensures prev == NULL ==> head == n && next == old(next)
      ensures prev != NULL ==> head == old(head) && next == old(next)[prev := n]
    {
      if prev == NULL {
        head := n;
      } else {
        next := next[prev := n];
      }
    }

    /** The k-th run of the list, with the link in front of it. */
    ghost predicate Here(b: nat, prev: nat, k: nat)
      reads this
    {
      && k <= |runs| && b == At(runs, k) && prev == PrevAt(runs, k) && (b == NULL <==> k == |runs|)
      && (k > 0 ==> prev != NULL)
      && (b != NULL ==> b in next && b in page && page[b] == runs[k].count && next[b] == At(runs, k + 1))
    }

    /** rt_page_alloc */
    method Alloc(npages: nat) returns (b: nat)
      requires Valid()
      modifies this
      ensures Valid()
      ensures npages == 0 ==> b == NULL && runs == old(runs)
      ensures npages > 0 ==> (runs, b) == PageRuns.Alloc(old(runs), npages)
    {
      hide Canonical, PageRuns.Alloc;
      if npages == 0 {
        return NULL;
      }
      var prev: nat := NULL;
      b := head;
      ghost var k: nat := 0;
      RunFields(next, page, head, runs, 0);
      while b != NULL
        modifies {}
        invariant Here(b, prev, k) && forall j :: 0 <= j < k ==> runs[j].count < npages
        decreases |runs| - k
      {
        if page[b] >= npages {
          break;
        }
        RunFields(next, page, head, runs, k + 1);
        prev := b;
        b := next[b];
        k := k + 1;
      }
      AllocSkip(runs, npages, k);
      AllocHere(runs, npages, k);
      if b != NULL {
        Cut(b, prev, npages, k);
      }
    }

    /** What rt_page_alloc does with the run it has found. */
    method Cut(b: nat, prev: nat, npages: nat, ghost k: nat)
      requires Valid() && Here(b, prev, k) && b != NULL && npages > 0 && runs[k].count >= npages
      requires PageRuns.Alloc(runs, npages) == Found(runs, npages, k)
      modifies this
      ensures Valid() && runs == PageRuns.Alloc(old(runs), npages).0
    {
      hide Canonical, PageRuns.Alloc, Shows;
      AllocKeeps(runs, npages);
      ghost var qs := PageRuns.Alloc(runs, npages).0;
      if page[b] > npages {
        TakeFront(next, page, head, runs, npages, k);
        var n := b + npages;
        next := next[n := next[b]];
        page := page[n := page[b] - npages];
        SetLink(prev, n);
      } else {
        TakeWhole(next, page, head, runs, npages, k);
        SetLink(prev, next[b]);
      }
      runs := qs;
    }

    /** rt_page_free */
    method Free(addr: nat, npages: nat)
      requires Valid() && addr > 0 && npages > 0 && NoneFree(runs, addr, npages)
      modifies this
      ensures Valid() && runs == Release(old(runs), addr, npages)
    {
      hide Canonical, Release, NoneFree;
      var prev: nat := NULL;
      var b: nat := head;
      ghost var k: nat := 0;
      RunFields(next, page, head, runs, 0);
      while b != NULL
        modifies {}
        invariant Here(b, prev, k) && forall j :: 0 <= j < k ==> Passed(runs[j], addr, npages)
        decreases |runs| - k
      {
        if b + page[b] == addr || b == addr + npages || b > addr + npages {
          break;
        }
        RunFields(next, page, head, runs, k + 1);
        prev := b;
        b := next[b];
        k := k + 1;
      }
      ReleaseSkip(runs, addr, npages, k);
      ReleaseHere(runs, addr, npages, k);
      Put(addr, b, prev, npages, k);
    }

    /** What rt_page_free does at the place it has found. */
    method Put(n: nat, b: nat, prev: nat, npages: nat, ghost k: nat)
      requires Valid() && Here(b, prev, k) && n > 0 && npages > 0 && NoneFree(runs, n, npages)
      requires b != NULL ==> b + page[b] == n || b >= n + npages
      requires k > 0 ==> Passed(runs[k - 1], n, npages)
      requires Release(runs, n, npages) == Joined(runs, n, npages, k)
      modifies this
      ensures Valid() && runs == Release(old(runs), n, npages)
    {
      hide Canonical, Release, Shows, NoneFree;
      ReleaseKeeps(runs, n, npages);
      ghost var qs := Release(runs, n, npages);
      if b != NULL && b + page[b] == n {
        JoinLeft(next, page, head, runs, n, npages, k);
        page := page[b := page[b] + npages];
        if b + page[b] == next[b] {
          page := page[b := page[b] + page[next[b]]];
          next := next[b := next[next[b]]];
        }
      } else if b != NULL && b == n + npages {
        JoinRight(next, page, head, runs, n, npages, k);
        page := page[n := page[b] + npages];
        next := next[n := next[b]];
        SetLink(prev, n);
      } else {
        PutBefore(next, page, head, runs, n, npages, k);
        page := page[n := npages];
        next := next[n := b];
        SetLink(prev, n);
      }
      runs := qs;
    }
  }

  /** The runs from k up to j replaced by `mid`. */
  function Replaced(rs: seq<Run>, k: nat, j: nat, mid: seq<Run>): (qs: seq<Run>)
    requires k <= j <= |rs|
    ensures |qs| == k + |mid| + |rs| - j
    ensures forall i :: 0 <= i < k ==> qs[i] == rs[i]
    ensures forall i :: k <= i < k + |mid| ==> qs[i] == mid[i - k]
    ensures forall i :: k + |mid| <= i < |qs| ==> qs[i] == rs[i - k - |mid| + j]
  {
    rs[..k] + mid + rs[j..]
  }

  /** The result of an allocation from the k-th run. */
  function Found(rs: seq<Run>, n: nat, k: nat): (seq<Run>, nat)
    requires k < |rs| && rs[k].count >= n
  {
    (Replaced(rs, k, k + 1, if rs[k].count > n then [Run(rs[k].at + n, rs[k].count - n)] else []), rs[k].at)
  }

  /** The result of a release at the k-th run. */
  function Joined(rs: seq<Run>, a: nat, n: nat, k: nat): seq<Run>
    requires k <= |rs|
  {
    if k < |rs| && rs[k].at + rs[k].count == a then
      if k + 1 < |rs| && a + n == rs[k + 1].at
      then Replaced(rs, k, k + 2, [Run(rs[k].at, rs[k].count + n + rs[k + 1].count)])
      else Replaced(rs, k, k + 1, [Run(rs[k].at, rs[k].count + n)])
    else if k < |rs| && rs[k].at == a + n then Replaced(rs, k, k + 1, [Run(a, n + rs[k].count)])
    else Replaced(rs, k, k, [Run(a, n)])
  }

  lemma RunFields(next: map<nat, nat>, page: map<nat, nat>, head: nat, rs: seq<Run>, k: nat)
    requires Shows(next, page, head, rs) && Canonical(rs) && k <= |rs|
    ensures At(rs, k) == NULL <==> k == |rs|
    ensures k < |rs| ==>
      rs[k].at in next && rs[k].at in page && next[rs[k].at] == At(rs, k + 1) && page[rs[k].at] == rs[k].count
    ensures k + 1 < |rs| ==>
      && rs[k + 1].at in next && next[rs[k + 1].at] == At(rs, k + 2)
      && rs[k + 1].at in page && page[rs[k + 1].at] == rs[k + 1].count
  {
    if k < |rs| {
      assert LinkedAt(next, page, rs, k);
    }
    if k + 1 < |rs| {
      assert LinkedAt(next, page, rs, k + 1);
    }
  }

  /** The list after the allocation from the k-th run. */
  lemma AllocHere(rs: seq<Run>, n: nat, k: nat)
    requires n > 0 && k <= |rs| && Alloc(rs, n) == (rs[..k] + Alloc(rs[k..], n).0, Alloc(rs[k..], n).1)
    ensures k == |rs| ==> Alloc(rs, n) == (rs, NULL)
    ensures k < |rs| && rs[k].count >= n ==> Alloc(rs, n) == Found(rs, n, k)
  {
    if k == |rs| {
      assert rs[k..] == [] && rs[..k] + [] == rs;
    } else {
      assert rs[k..][1..] == rs[k + 1..];
      if rs[k].count > n {
        Assoc(rs[..k], Run(rs[k].at + n, rs[k].count - n), rs[k + 1..]);
      } else {
        assert rs[..k] + [] + rs[k + 1..] == rs[..k] + rs[k + 1..];
      }
    }
  }

  function Linked(next: map<nat, nat>, prev: nat, n: nat): map<nat, nat> {
    if prev == NULL then next else next[prev := n]
  }

  function PrevAt(rs: seq<Run>, k: nat): nat
    requires k <= |rs|
  {
    if k == 0 then NULL else rs[k - 1].at
  }

  /** The first address from the replacement on. */
  function From(rs: seq<Run>, j: nat, mid: seq<Run>): nat {
    if mid == [] then At(rs, j) else mid[0].at
  }

  /** A list with runs replaced by at most one: the fields of that one, and the link to it. */
  lemma Rewired(next: map<nat, nat>, page: map<nat, nat>, head: nat, rs: seq<Run>, k: nat, j: nat, mid: seq<Run>,
                next': map<nat, nat>, page': map<nat, nat>)
    requires Shows(next, page, head, rs) && Canonical(rs) && k <= j <= |rs| && |mid| <= 1
    requires mid != [] ==> mid[0].at in next' && mid[0].at in page'
                           && next'[mid[0].at] == At(rs, j) && page'[mid[0].at] == mid[0].count
    requires forall i :: j <= i < |rs| ==> SameFields(next, page, next', page', rs[i].at)
    requires forall i :: 0 <= i < k - 1 ==> SameFields(next, page, next', page', rs[i].at)
    requires k > 0 ==> rs[k - 1].at in next' && rs[k - 1].at in page' && rs[k - 1].at in page
                       && next'[rs[k - 1].at] == From(rs, j, mid) && page'[rs[k - 1].at] == page[rs[k - 1].at]
    ensures Shows(next', page', if k == 0 then From(rs, j, mid) else head, Replaced(rs, k, j, mid))
  {
    hide Canonical, Shows, Replaced;
    var qs := Replaced(rs, k, j, mid);
    forall i | k <= i < |qs| ensures LinkedAt(next', page', qs, i) {
      if i >= k + |mid| {
        FieldsOf(next, page, head, rs, i - k - |mid| + j);
        assert SameFields(next, page, next', page', rs[i - k - |mid| + j].at);
      }
    }
    if k > 0 {
      FieldsOf(next, page, head, rs, k - 1);
      assert LinkedAt(next', page', qs, k - 1);
    }
    ShownHead(next, page, head, rs);
    Spliced(next, page, head, rs, qs, k, next', page', if k == 0 then From(rs, j, mid) else head);
  }

  lemma FieldsOf(next: map<nat, nat>, page: map<nat, nat>, head: nat, rs: seq<Run>, k: nat)
    requires Shows(next, page, head, rs) && k < |rs|
    ensures LinkedAt(next, page, rs, k)
  {
  }

  lemma ShownHead(next: map<nat, nat>, page: map<nat, nat>, head: nat, rs: seq<Run>)
    requires Shows(next, page, head, rs)
    ensures head == At(rs, 0)
  {
  }

  /** Writing the fields of addresses from `lo` to `hi`, and the link in front, leaves the other runs. */
  lemma OthersSame(next: map<nat, nat>, page: map<nat, nat>, rs: seq<Run>, k: nat, j: nat, lo: nat, hi: nat,
                   next': map<nat, nat>, page': map<nat, nat>)
    requires Canonical(rs) && k <= j <= |rs| && (k > 0 ==> rs[k - 1].at < lo) && (j < |rs| ==> hi < rs[j].at)
    requires forall x: nat :: x in next && x in page && !(lo <= x <= hi) && x != PrevAt(rs, k) ==>
      SameFields(next, page, next', page', x)
    requires k > 0 && j < |rs| ==> rs[k - 1].at < rs[j].at
    ensures forall i :: j <= i < |rs| ==> SameFields(next, page, next', page', rs[i].at)
    ensures forall i :: 0 <= i < k - 1 ==> SameFields(next, page, next', page', rs[i].at)
  {
    AllInOrder(rs);
  }

  lemma TakeFront(next: map<nat, nat>, page: map<nat, nat>, head: nat, rs: seq<Run>, n: nat, k: nat)
    requires Shows(next, page, head, rs) && Canonical(rs) && n > 0 && k < |rs| && rs[k].count > n
    ensures rs[k].at in next && rs[k].at in page && page[rs[k].at] == rs[k].count
    ensures var m := rs[k].at + n;
      var next1, page1 := next[m := next[rs[k].at]], page[m := rs[k].count - n];
      Shows(Linked(next1, PrevAt(rs, k), m), page1, if k == 0 then m else head, Found(rs, n, k).0)
  {
    hide Canonical, Shows, Replaced;
    var b, m := rs[k].at, rs[k].at + n;
    RunFields(next, page, head, rs, k);
    PrevFields(next, page, head, rs, k);
    NextBehind(rs, k);
    var next1, page1 := next[m := next[b]], page[m := rs[k].count - n];
    var next' := Linked(next1, PrevAt(rs, k), m);
    OthersSame(next, page, rs, k, k + 1, b, m, next', page1);
    Rewired(next, page, head, rs, k, k + 1, [Run(m, rs[k].count - n)], next', page1);
  }

  /** The run in front of the k-th lies before it, the one behind it after its end. */
  lemma NextBehind(rs: seq<Run>, k: nat)
    requires Canonical(rs) && k < |rs|
    ensures rs[k].at > 0
    ensures k + 1 < |rs| ==> rs[k].at + rs[k].count < rs[k + 1].at
    ensures k > 0 ==> rs[k - 1].at + rs[k - 1].count < rs[k].at
    ensures k > 0 && k + 1 < |rs| ==> rs[k - 1].at < rs[k + 1].at
    ensures k + 2 < |rs| ==> rs[k + 1].at + rs[k + 1].count < rs[k + 2].at && rs[k].at < rs[k + 2].at
    ensures k > 0 && k + 2 < |rs| ==> rs[k - 1].at < rs[k + 2].at
  {
    AllInOrder(rs);
  }

  lemma PrevFields(next: map<nat, nat>, page: map<nat, nat>, head: nat, rs: seq<Run>, k: nat)
    requires Shows(next, page, head, rs) && Canonical(rs) && k <= |rs|
    ensures k > 0 ==> rs[k - 1].at in next && rs[k - 1].at in page && rs[k - 1].at != NULL
  {
    if k > 0 {
      assert LinkedAt(next, page, rs, k - 1);
    }
  }

  lemma TakeWhole(next: map<nat, nat>, page: map<nat, nat>, head: nat, rs: seq<Run>, n: nat, k: nat)
    requires Shows(next, page, head, rs) && Canonical(rs) && n > 0 && k < |rs| && rs[k].count == n
    ensures rs[k].at in next
    ensures var m := next[rs[k].at];
      Shows(Linked(next, PrevAt(rs, k), m), page, if k == 0 then m else head, Found(rs, n, k).0)
  {
    hide Canonical, Shows, Replaced;
    RunFields(next, page, head, rs, k);
    PrevFields(next, page, head, rs, k);
    NextBehind(rs, k);
    var next' := Linked(next, PrevAt(rs, k), next[rs[k].at]);
    OthersSame(next, page, rs, k, k + 1, rs[k].at, rs[k].at, next', page);
    Rewired(next, page, head, rs, k, k + 1, [], next', page);
  }

  /** The list after the release at the k-th run. */
  lemma ReleaseHere(rs: seq<Run>, a: nat, n: nat, k: nat)
    requires k <= |rs| && Release(rs, a, n) == rs[..k] + Release(rs[k..], a, n)
    requires k < |rs| ==> rs[k].at + rs[k].count == a || rs[k].at >= a + n
    ensures Release(rs, a, n) == Joined(rs, a, n, k)
  {
    hide Replaced;
    var t := rs[k..];
    if k == |rs| {
      ReplacedIs(rs, k, k, [Run(a, n)]);
    } else {
      assert t[0] == rs[k];
      if rs[k].at + rs[k].count == a {
        if k + 1 < |rs| && a + n == rs[k + 1].at {
          assert t[1] == rs[k + 1] && t[2..] == rs[k + 2..];
          ReplacedIs(rs, k, k + 2, [Run(rs[k].at, rs[k].count + n + rs[k + 1].count)]);
        } else {
          assert t[1..] == rs[k + 1..] && (|t| > 1 ==> t[1] == rs[k + 1]);
          ReplacedIs(rs, k, k + 1, [Run(rs[k].at, rs[k].count + n)]);
        }
      } else if rs[k].at == a + n {
        assert t[1..] == rs[k + 1..];
        ReplacedIs(rs, k, k + 1, [Run(a, n + rs[k].count)]);
      } else {
        ReplacedIs(rs, k, k, [Run(a, n)]);
      }
    }
  }

  lemma ReplacedIs(rs: seq<Run>, k: nat, j: nat, mid: seq<Run>)
    requires k <= j <= |rs|
    ensures rs[..k] + (mid + rs[j..]) == Replaced(rs, k, j, mid)
    ensures j == |rs| ==> rs[..k] + mid == Replaced(rs, k, j, mid)
  {
  }

  lemma Assoc(x: seq<Run>, r: Run, y: seq<Run>)
    ensures x + ([r] + y) == x + [r] + y
  {
  }

  /** The pages join the run in front of them, and that one joins the next if they now touch. */
  lemma JoinLeft(next: map<nat, nat>, page: map<nat, nat>, head: nat, rs: seq<Run>, a: nat, n: nat, k: nat)
    requires Shows(next, page, head, rs) && Canonical(rs) && n > 0 && k < |rs| && rs[k].at + rs[k].count == a
    ensures var b := rs[k].at;
      && b in next && b in page
      && var page1 := page[b := page[b] + n];
         if b + page1[b] == next[b]
         then next[b] in page1 && next[b] in next
              && Shows(next[b := next[next[b]]], page1[b := page1[b] + page1[next[b]]], head, Joined(rs, a, n, k))
         else Shows(next, page1, head, Joined(rs, a, n, k))
  {
    hide Canonical, Shows, Replaced;
    RunFields(next, page, head, rs, k);
    PrevFields(next, page, head, rs, k);
    NextBehind(rs, k);
    ShownHead(next, page, head, rs);
    LinkInFront(next, page, head, rs, k);
    var b := rs[k].at;
    if k + 1 < |rs| && a + n == rs[k + 1].at {
      var c := rs[k + 1].at;
      var next', page' := next[b := next[c]], page[b := page[b] + n + page[c]];
      assert page[b := page[b] + n][b := page[b] + n + page[c]] == page';
      OthersSame(next, page, rs, k, k + 2, b, c, next', page');
      Rewired(next, page, head, rs, k, k + 2, [Run(b, rs[k].count + n + rs[k + 1].count)], next', page');
    } else {
      var page' := page[b := page[b] + n];
      OthersSame(next, page, rs, k, k + 1, b, b, next, page');
      Rewired(next, page, head, rs, k, k + 1, [Run(b, rs[k].count + n)], next, page');
    }
  }

  lemma LinkInFront(next: map<nat, nat>, page: map<nat, nat>, head: nat, rs: seq<Run>, k: nat)
    requires Shows(next, page, head, rs) && k < |rs|
    ensures k > 0 ==> rs[k - 1].at in next && next[rs[k - 1].at] == rs[k].at
  {
    if k > 0 {
      assert LinkedAt(next, page, rs, k - 1);
    }
  }

  /** The pages are put in front of the k-th run, which they take over if they touch it. */
  lemma JoinRight(next: map<nat, nat>, page: map<nat, nat>, head: nat, rs: seq<Run>, a: nat, n: nat, k: nat)
    requires Shows(next, page, head, rs) && Canonical(rs) && n > 0 && a > 0 && k < |rs| && rs[k].at == a + n
    requires NoneFree(rs, a, n)
    ensures rs[k].at in next && rs[k].at in page
    ensures Shows(Linked(next[a := next[rs[k].at]], PrevAt(rs, k), a), page[a := page[rs[k].at] + n],
                  if k == 0 then a else head, Joined(rs, a, n, k))
  {
    hide Canonical, Shows, Replaced, NoneFree;
    RunFields(next, page, head, rs, k);
    PrevFields(next, page, head, rs, k);
    NextBehind(rs, k);
    FrontApart(rs, a, n, k);
    var next' := Linked(next[a := next[rs[k].at]], PrevAt(rs, k), a);
    var page' := page[a := page[rs[k].at] + n];
    OthersSame(next, page, rs, k, k + 1, a, rs[k].at, next', page');
    Rewired(next, page, head, rs, k, k + 1, [Run(a, n + rs[k].count)], next', page');
  }

  lemma PutBefore(next: map<nat, nat>, page: map<nat, nat>, head: nat, rs: seq<Run>, a: nat, n: nat, k: nat)
    requires Shows(next, page, head, rs) && Canonical(rs) && n > 0 && a > 0 && k <= |rs|
    requires k < |rs| ==> rs[k].at > a + n && rs[k].at + rs[k].count != a
    requires k > 0 ==> Passed(rs[k - 1], a, n)
    requires NoneFree(rs, a, n)
    ensures Shows(Linked(next[a := At(rs, k)], PrevAt(rs, k), a), page[a := n],
      if k == 0 then a else head, Joined(rs, a, n, k))
  {
    hide Canonical, Shows, Replaced, NoneFree;
    PrevFields(next, page, head, rs, k);
    if k < |rs| {
      NextBehind(rs, k);
    }
    FrontApart(rs, a, n, k);
    var next', page' := Linked(next[a := At(rs, k)], PrevAt(rs, k), a), page[a := n];
    OthersSame(next, page, rs, k, k, a, a, next', page');
    Rewired(next, page, head, rs, k, k, [Run(a, n)], next', page');
  }

  /** The runs in front of the place lie in front of the pages. */
  lemma FrontApart(rs: seq<Run>, a: nat, n: nat, k: nat)
    requires Canonical(rs) && n > 0 && k <= |rs| && NoneFree(rs, a, n)
    requires k < |rs| ==> rs[k].at >= a + n
    requires k > 0 ==> rs[k - 1].at < a + n
    ensures k > 0 ==> rs[k - 1].at < a
  {
    if k > 0 {
      var r := rs[k - 1];
      assert In(r, r.at) && Free(rs, r.at);
    }
  }
}
