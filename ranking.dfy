/**
 * Python's `sorted(items, key=lambda x: x[1], reverse=True)` on (category, amount)
 * pairs: a stable sort into non-increasing amount order, written as an insertion sort.
 */
module Ranking {
  import opened Dicts

  /** Non-increasing in amount. */
  predicate SortedDesc(t: seq<(string, int)>)
  {
    forall i, j :: 0 <= i < j < |t| ==> t[i].1 >= t[j].1
  }

  /** Inserts `x` before the first entry whose amount is not larger, so `x` stays ahead of its equals. */
  function Insert(x: (string, int), t: seq<(string, int)>): seq<(string, int)>
  {
    if t == [] || x.1 >= t[0].1 then [x] + t else [t[0]] + Insert(x, t[1..])
  }

  /** The sorted copy; an earlier entry stays ahead of a later entry with the same amount. */
  function SortDesc(s: seq<(string, int)>): seq<(string, int)>
  {
    if s == [] then [] else Insert(s[0], SortDesc(s[1..]))
  }

  /** The entries with amount `v`, in order. */
  function WithAmount(t: seq<(string, int)>, v: int): seq<(string, int)>
  {
    if t == [] then [] else (if t[0].1 == v then [t[0]] else []) + WithAmount(t[1..], v)
  }

  lemma {:induction false} InsertPerm(x: (string, int), t: seq<(string, int)>)
    ensures multiset(Insert(x, t)) == multiset([x] + t)
  {
    if t != [] && x.1 < t[0].1 {
      InsertPerm(x, t[1..]);
      assert t == [t[0]] + t[1..];
    }
  }

  /** Sorting permutes the entries. */
  lemma {:induction false} SortDescPerm(s: seq<(string, int)>)
    ensures multiset(SortDesc(s)) == multiset(s)
  {
    if s != [] {
      SortDescPerm(s[1..]);
      InsertPerm(s[0], SortDesc(s[1..]));
      assert s == [s[0]] + s[1..];
    }
  }

  lemma {:induction false} InsertSorted(x: (string, int), t: seq<(string, int)>)
    requires SortedDesc(t)
    ensures SortedDesc(Insert(x, t))
  {
    if t != [] && x.1 < t[0].1 {
      var h, r := t[0], t[1..];
      assert SortedDesc(r) by {
        forall i, j | 0 <= i < j < |r| ensures r[i].1 >= r[j].1 {
          assert r[i] == t[i + 1] && r[j] == t[j + 1];
        }
      }
      InsertSorted(x, r);
      var ir := Insert(x, r);
      assert Insert(x, t) == [h] + ir;
      assert ir[0] == x || ir[0] == r[0];
      assert ir[0].1 <= h.1 by {
        if ir[0] != x {
          assert r[0] == t[1];
        }
      }
      var u := [h] + ir;
      forall i, j | 0 <= i < j < |u| ensures u[i].1 >= u[j].1 {
        if i == 0 {
          assert u[j] == ir[j - 1];
          if j > 1 {
            assert ir[0].1 >= ir[j - 1].1;
          }
        } else {
          assert u[i] == ir[i - 1] && u[j] == ir[j - 1];
        }
      }
    }
  }

  /** Sorting orders the entries by non-increasing amount. */
  lemma {:induction false} SortDescSorted(s: seq<(string, int)>)
    ensures SortedDesc(SortDesc(s))
  {
    if s != [] {
      SortDescSorted(s[1..]);
      InsertSorted(s[0], SortDesc(s[1..]));
    }
  }

  lemma WithAmountCons(h: (string, int), r: seq<(string, int)>, v: int)
    ensures WithAmount([h] + r, v) == (if h.1 == v then [h] else []) + WithAmount(r, v)
  {
    assert ([h] + r)[1..] == r;
  }

  lemma {:induction false} InsertStable(x: (string, int), t: seq<(string, int)>, v: int)
    requires SortedDesc(t)
    ensures WithAmount(Insert(x, t), v) == (if x.1 == v then [x] else []) + WithAmount(t, v)
  {
    if t != [] && x.1 < t[0].1 {
      var h, r := t[0], t[1..];
      assert t == [h] + r;
      assert SortedDesc(r) by {
        forall i, j | 0 <= i < j < |r| ensures r[i].1 >= r[j].1 {
          assert r[i] == t[i + 1] && r[j] == t[j + 1];
        }
      }
      InsertStable(x, r, v);
      assert Insert(x, t) == [h] + Insert(x, r);
      WithAmountCons(h, Insert(x, r), v);
      WithAmountCons(h, r, v);
      if x.1 == v {
        assert h.1 != v;
      }
    } else {
      WithAmountCons(x, t, v);
    }
  }

  /** Stability: for every amount, the entries with that amount keep their relative order. */
  lemma {:induction false} SortDescStable(s: seq<(string, int)>, v: int)
    ensures WithAmount(SortDesc(s), v) == WithAmount(s, v)
  {
    if s != [] {
      SortDescStable(s[1..], v);
      SortDescSorted(s[1..]);
      InsertStable(s[0], SortDesc(s[1..]), v);
    }
  }

  /** Sorting keeps keys distinct. */
  lemma SortDescDistinct(s: seq<(string, int)>)
    requires DistinctKeys(s)
    ensures DistinctKeys(SortDesc(s))
  {
    var t := SortDesc(s);
    SortDescPerm(s);
    forall i, j | 0 <= i < j < |t| ensures t[i].0 != t[j].0 {
      assert t[i] in multiset(s) && t[j] in multiset(s);
      var a :| 0 <= a < |s| && s[a] == t[i];
      var b :| 0 <= b < |s| && s[b] == t[j];
      if a == b {
        // the same entry twice in `t` would occur twice in `s`
        assert t[i] == t[j];
        CountTwice(t, i, j);
        CountOnce(s, a);
        assert false;
      }
    }
  }

  lemma CountTwice(t: seq<(string, int)>, i: nat, j: nat)
    requires i < j < |t| && t[i] == t[j]
    ensures multiset(t)[t[i]] >= 2
  {
    assert t == t[..i] + [t[i]] + t[i + 1..j] + [t[j]] + t[j + 1..];
  }

  lemma CountOnce(s: seq<(string, int)>, a: nat)
    requires DistinctKeys(s) && a < |s|
    ensures multiset(s)[s[a]] == 1
  {
    assert s == s[..a] + [s[a]] + s[a + 1..];
    assert s[a] !in s[..a] by {
      forall k | 0 <= k < a ensures s[k] != s[a] {
        assert s[k].0 != s[a].0;
      }
    }
    assert s[a] !in s[a + 1..] by {
      forall k | a + 1 <= k < |s| ensures s[k] != s[a] {
        assert s[k].0 != s[a].0;
      }
    }
  }

  /** `a` occurs somewhere before `b` in `t`. */
  predicate Before(t: seq<(string, int)>, a: (string, int), b: (string, int))
  {
    exists i, j :: 0 <= i < j < |t| && t[i] == a && t[j] == b
  }

  lemma BeforeCons(h: (string, int), r: seq<(string, int)>, a: (string, int), b: (string, int))
    ensures Before([h] + r, a, b) <==> (h == a && b in r) || Before(r, a, b)
  {
    var t := [h] + r;
    if Before(t, a, b) {
      var i, j :| 0 <= i < j < |t| && t[i] == a && t[j] == b;
      if i > 0 {
        assert r[i - 1] == a && r[j - 1] == b;
      } else {
        assert r[j - 1] == b;
      }
    }
    if h == a && b in r {
      var j :| 0 <= j < |r| && r[j] == b;
      assert t[0] == a && t[j + 1] == b;
    }
    if Before(r, a, b) {
      var i, j :| 0 <= i < j < |r| && r[i] == a && r[j] == b;
      assert t[i + 1] == a && t[j + 1] == b;
    }
  }

  lemma {:induction false} InWithAmount(t: seq<(string, int)>, b: (string, int), v: int)
    requires b.1 == v
    ensures b in WithAmount(t, v) <==> b in t
  {
    if t != [] {
      InWithAmount(t[1..], b, v);
      assert t == [t[0]] + t[1..];
    }
  }

  /** Keeping only the entries with amount `v` keeps the relative order of those entries. */
  lemma {:induction false} BeforeWithAmount(t: seq<(string, int)>, a: (string, int), b: (string, int), v: int)
    requires a.1 == v && b.1 == v
    ensures Before(t, a, b) <==> Before(WithAmount(t, v), a, b)
  {
    if t != [] {
      var h, r := t[0], t[1..];
      assert t == [h] + r;
      BeforeWithAmount(r, a, b, v);
      BeforeCons(h, r, a, b);
      InWithAmount(r, b, v);
      if h.1 == v {
        assert WithAmount(t, v) == [h] + WithAmount(r, v);
        BeforeCons(h, WithAmount(r, v), a, b);
      } else {
        assert WithAmount(t, v) == WithAmount(r, v);
      }
    }
  }

  /** Two entries with equal amounts appear in the sorted copy in the order they had before sorting. */
  lemma SortDescKeepsTies(s: seq<(string, int)>, i: nat, j: nat)
    requires i < j < |SortDesc(s)| && SortDesc(s)[i].1 == SortDesc(s)[j].1
    ensures Before(s, SortDesc(s)[i], SortDesc(s)[j])
  {
    var t := SortDesc(s);
    var v := t[i].1;
    assert Before(t, t[i], t[j]);
    BeforeWithAmount(t, t[i], t[j], v);
    SortDescStable(s, v);
    BeforeWithAmount(s, t[i], t[j], v);
  }
}
