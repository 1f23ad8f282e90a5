/** The sort `ImportString::push` applies to each group: `slice::sort`,
    which is stable, under `Ord for Import` (path order). A stable sort has
    exactly one possible result, so insertion sort models it exactly. */
module Sorting {
  import opened Text
  import opened ImportEntry

  predicate SortedByPath(s: seq<Import>) {
    forall i, j :: 0 <= i < j < |s| ==> PathLessEq(s[i], s[j])
  }

  /** The entries of `s` with path `p`, in their order in `s`. Stability
      means this subsequence is the same before and after sorting. */
  function WithPath(s: seq<Import>, p: String): seq<Import>
  {
    if |s| == 0 then []
    else (if s[0].path == p then [s[0]] else []) + WithPath(s[1..], p)
  }

  /** Puts `x` in front of the first entry it sorts no later than. */
  function Insert(x: Import, s: seq<Import>): (r: seq<Import>)
    ensures multiset(r) == multiset(s) + multiset{x}
    ensures SortedByPath(s) ==> SortedByPath(r)
  {
    if |s| == 0 || PathLessEq(x, s[0]) then
      var r := [x] + s;
      assert r[1..] == s;
      InsertFrontSorted(x, s);
      r
    else
      var t := Insert(x, s[1..]);
      var r := [s[0]] + t;
      assert r[1..] == t;
      assert s == [s[0]] + s[1..];
      LessEqTotal(x.path, s[0].path);
      InsertBehindSorted(x, s, t);
      r
  }

  /** Inserting puts `x` in front of the entries that have its path, and
      leaves every other path's entries as they were. */
  lemma {:induction false} InsertKeepsPath(x: Import, s: seq<Import>, p: String)
    ensures WithPath(Insert(x, s), p) == (if x.path == p then [x] else []) + WithPath(s, p)
    decreases |s|
  {
    if |s| == 0 || PathLessEq(x, s[0]) {
      WithPathCons(x, s, p);
    } else {
      var t := Insert(x, s[1..]);
      var hx := if x.path == p then [x] else [];
      var h0 := if s[0].path == p then [s[0]] else [];
      var w := WithPath(s[1..], p);
      assert WithPath(Insert(x, s), p) == h0 + (hx + w) by {
        assert Insert(x, s) == [s[0]] + t;
        WithPathCons(s[0], t, p);
        InsertKeepsPath(x, s[1..], p);
      }
      assert WithPath(s, p) == h0 + w by {
        WithPathCons(s[0], s[1..], p);
        assert [s[0]] + s[1..] == s;
      }
      assert h0 + (hx + w) == hx + (h0 + w) by {
        if x.path == p {
          assert x.path != s[0].path;
          assert h0 + (hx + w) == hx + w;
        } else {
          assert hx + (h0 + w) == h0 + w;
        }
      }
    }
  }

  lemma WithPathCons(x: Import, s: seq<Import>, p: String)
    ensures WithPath([x] + s, p) == (if x.path == p then [x] else []) + WithPath(s, p)
  {
    assert ([x] + s)[1..] == s;
  }

  lemma InsertKeepsPaths(x: Import, s: seq<Import>)
    ensures forall p :: WithPath(Insert(x, s), p) == (if x.path == p then [x] else []) + WithPath(s, p)
  {
    forall p ensures WithPath(Insert(x, s), p) == (if x.path == p then [x] else []) + WithPath(s, p) {
      InsertKeepsPath(x, s, p);
    }
  }

  lemma InsertFrontSorted(x: Import, s: seq<Import>)
    requires |s| == 0 || PathLessEq(x, s[0])
    ensures SortedByPath(s) ==> SortedByPath([x] + s)
  {
    var r := [x] + s;
    if SortedByPath(s) {
      forall i, j | 0 <= i < j < |r| ensures PathLessEq(r[i], r[j]) {
        if i == 0 && j > 1 {
          LessEqTransitive(x.path, s[0].path, s[j - 1].path);
        }
      }
    }
  }

  lemma InsertBehindSorted(x: Import, s: seq<Import>, t: seq<Import>)
    requires |s| > 0 && PathLessEq(s[0], x)
    requires multiset(t) == multiset(s[1..]) + multiset{x}
    requires SortedByPath(s[1..]) ==> SortedByPath(t)
    ensures SortedByPath(s) ==> SortedByPath([s[0]] + t)
  {
    var r := [s[0]] + t;
    if SortedByPath(s) {
      assert SortedByPath(s[1..]) by {
        forall i, j | 0 <= i < j < |s[1..]| ensures PathLessEq(s[1..][i], s[1..][j]) {
          assert s[1..][i] == s[i + 1] && s[1..][j] == s[j + 1];
        }
      }
      forall i, j | 0 <= i < j < |r| ensures PathLessEq(r[i], r[j]) {
        if i == 0 {
          assert r[j] == t[j - 1];
          assert r[j] in multiset(t);
          assert r[j] == x || r[j] in multiset(s[1..]);
          if r[j] != x {
            var k :| 0 <= k < |s[1..]| && s[1..][k] == r[j];
            assert s[k + 1] == r[j];
          }
        } else {
          assert r[i] == t[i - 1] && r[j] == t[j - 1];
        }
      }
    }
  }

  /** Insertion sort by path, stable: an entry is inserted in front of the
      entries of the same path that came after it. */
  function SortByPath(s: seq<Import>): (r: seq<Import>)
    ensures SortedByPath(r)
    ensures multiset(r) == multiset(s)
    ensures forall p :: WithPath(r, p) == WithPath(s, p)
  {
    if |s| == 0 then []
    else
      assert s == [s[0]] + s[1..];
      InsertKeepsPaths(s[0], SortByPath(s[1..]));
      Insert(s[0], SortByPath(s[1..]))
  }

  /** Sorting a sorted group changes nothing. */
  lemma {:induction false} SortSortedIsIdentity(s: seq<Import>)
    requires SortedByPath(s)
    ensures SortByPath(s) == s
  {
    if |s| > 0 {
      assert SortedByPath(s[1..]) by {
        forall i, j | 0 <= i < j < |s[1..]| ensures PathLessEq(s[1..][i], s[1..][j]) {
          assert s[1..][i] == s[i + 1] && s[1..][j] == s[j + 1];
        }
      }
      SortSortedIsIdentity(s[1..]);
      assert s == [s[0]] + s[1..];
    }
  }

  lemma {:induction false} WithPathFirst(s: seq<Import>)
    requires |s| > 0
    ensures WithPath(s, s[0].path) == [s[0]] + WithPath(s[1..], s[0].path)
  {
  }

  lemma {:induction false} WithPathWitness(s: seq<Import>, p: String)
    requires WithPath(s, p) != []
    ensures exists i :: 0 <= i < |s| && s[i].path == p
    decreases |s|
  {
    if s[0].path != p {
      WithPathWitness(s[1..], p);
      var i :| 0 <= i < |s[1..]| && s[1..][i].path == p;
      assert s[i + 1].path == p;
    }
  }

  lemma WithPathTails(a: seq<Import>, b: seq<Import>)
    requires |a| > 0 && |b| > 0 && a[0] == b[0]
    requires forall p :: WithPath(a, p) == WithPath(b, p)
    ensures forall p :: WithPath(a[1..], p) == WithPath(b[1..], p)
  {
    forall p ensures WithPath(a[1..], p) == WithPath(b[1..], p) {
      var h := if a[0].path == p then [a[0]] else [];
      assert WithPath(a, p) == h + WithPath(a[1..], p);
      assert WithPath(b, p) == h + WithPath(b[1..], p);
      assert (h + WithPath(a[1..], p))[|h|..] == WithPath(a[1..], p);
      assert (h + WithPath(b[1..], p))[|h|..] == WithPath(b[1..], p);
    }
  }

  /** The sort is determined by its contract: any sorted arrangement that
      keeps the order among entries of equal path is the sorted result.
      So the insertion sort above is the result `slice::sort` produces. */
  lemma {:induction false} StableSortUnique(a: seq<Import>, b: seq<Import>)
    requires SortedByPath(a) && SortedByPath(b)
    requires forall p :: WithPath(a, p) == WithPath(b, p)
    ensures a == b
    decreases |a| + |b|
  {
    if |a| == 0 || |b| == 0 {
      if |b| > 0 {
        WithPathFirst(b);
      } else if |a| > 0 {
        WithPathFirst(a);
      }
    } else {
      var pa, pb := a[0].path, b[0].path;
      assert WithPath(a, pa) != [];
      WithPathWitness(b, pa);
      var i :| 0 <= i < |b| && b[i].path == pa;
      assert LessEq(pb, pa) by {
        if i > 0 {
          assert PathLessEq(b[0], b[i]);
        }
      }
      assert WithPath(b, pb) != [];
      WithPathWitness(a, pb);
      var j :| 0 <= j < |a| && a[j].path == pb;
      assert LessEq(pa, pb) by {
        if j > 0 {
          assert PathLessEq(a[0], a[j]);
        }
      }
      LessEqAntisymmetric(pa, pb);
      WithPathFirst(a);
      WithPathFirst(b);
      assert a[0] == b[0] by {
        assert WithPath(a, pa)[0] == WithPath(b, pa)[0];
      }
      WithPathTails(a, b);
      assert SortedByPath(a[1..]) by {
        forall x, y | 0 <= x < y < |a[1..]| ensures PathLessEq(a[1..][x], a[1..][y]) {
          assert a[1..][x] == a[x + 1] && a[1..][y] == a[y + 1];
        }
      }
      assert SortedByPath(b[1..]) by {
        forall x, y | 0 <= x < y < |b[1..]| ensures PathLessEq(b[1..][x], b[1..][y]) {
          assert b[1..][x] == b[x + 1] && b[1..][y] == b[y + 1];
        }
      }
      StableSortUnique(a[1..], b[1..]);
      assert a == [a[0]] + a[1..] && b == [b[0]] + b[1..];
    }
  }

  /** Two entries whose paths are out of order trade places. */
  lemma SwapPair(a: Import, b: Import)
    requires Compare(b.path, a.path) == Less
    ensures SortByPath([a, b]) == [b, a]
  {
    CompareReverse(b.path, a.path);
    assert !PathLessEq(a, b);
    assert SortByPath([b]) == [b];
    assert [a, b][1..] == [b];
  }
}
