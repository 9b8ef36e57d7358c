/**
 * Per-category spending totals, shared by `analyze_simple` in `main.py` and by
 * `AnalyzeSpendingTool` in `ai_agent_system.py`: both fold the transactions into
 * an insertion-ordered dict with `d[c] = d.get(c, 0) + amount`.
 */
module Spending {
  import opened Wrappers
  import opened Dicts

  /** The two fields of a transaction the aggregation reads. */
  datatype Spend = Spend(category: string, amount: int)

  /** The sum of all amounts. */
  function SumAmounts(s: seq<Spend>): int
  {
    if s == [] then 0 else SumAmounts(s[..|s| - 1]) + s[|s| - 1].amount
  }

  /** The sum of the amounts spent in category `c`. */
  function CategorySum(s: seq<Spend>, c: string): int
  {
    if s == [] then 0
    else CategorySum(s[..|s| - 1], c) + (if s[|s| - 1].category == c then s[|s| - 1].amount else 0)
  }

  /** Category `c` occurs among the transactions. */
  predicate Appears(s: seq<Spend>, c: string)
  {
    exists i :: 0 <= i < |s| && s[i].category == c
  }

  /** The position of the first transaction in category `c`. */
  function FirstIndex(s: seq<Spend>, c: string): (i: nat)
    requires Appears(s, c)
    ensures i < |s| && s[i].category == c
    ensures forall j :: 0 <= j < i ==> s[j].category != c
  {
    var t := s[..|s| - 1];
    AppearsSnoc(s, c);
    if Appears(t, c) then
      var i := FirstIndex(t, c);
      assert s[i] == t[i];
      assert forall j :: 0 <= j < i ==> s[j] == t[j];
      i
    else
      assert forall j :: 0 <= j < |s| - 1 ==> s[j].category != c by {
        forall j | 0 <= j < |s| - 1 ensures s[j].category != c {
          assert t[j] == s[j];
        }
      }
      |s| - 1
  }

  /** The sum of a dict's values. */
  function SumValues(d: seq<(string, int)>): int
  {
    if d == [] then 0 else d[0].1 + SumValues(d[1..])
  }

  /** One step of the aggregation loop: `d[c] = d.get(c, 0) + amount`. */
  function Tally(d: seq<(string, int)>, x: Spend): seq<(string, int)>
  {
    Put(d, x.category, GetOr(d, x.category, 0) + x.amount)
  }

  /** The dict the aggregation loop leaves after reading all of `s`. */
  function Totals(s: seq<Spend>): seq<(string, int)>
  {
    if s == [] then [] else Tally(Totals(s[..|s| - 1]), s[|s| - 1])
  }

  /** The dict is empty exactly when there are no transactions. */
  lemma TotalsEmpty(s: seq<Spend>)
    ensures Totals(s) == [] <==> s == []
  {
  }

  /** A category that does not occur contributes nothing. */
  lemma {:induction false} AbsentSumsToZero(s: seq<Spend>, c: string)
    requires !Appears(s, c)
    ensures CategorySum(s, c) == 0
  {
    if s != [] {
      var t := s[..|s| - 1];
      AppearsSnoc(s, c);
      AbsentSumsToZero(t, c);
    }
  }

  /** A category occurs in `s` exactly when it occurs before the last transaction or is the last one's. */
  lemma AppearsSnoc(s: seq<Spend>, c: string)
    requires s != []
    ensures Appears(s, c) <==> Appears(s[..|s| - 1], c) || s[|s| - 1].category == c
  {
    var t := s[..|s| - 1];
    if Appears(t, c) {
      var i :| 0 <= i < |t| && t[i].category == c;
      assert s[i].category == c;
    }
    if Appears(s, c) && s[|s| - 1].category != c {
      var i :| 0 <= i < |s| && s[i].category == c;
      assert t[i].category == c;
    }
  }

  /** After one aggregation step the transaction's category reads its old value (0 when absent) plus the amount; other categories read as before. */
  lemma GetTally(d: seq<(string, int)>, x: Spend, c: string)
    ensures Get(Tally(d, x), c) == if c == x.category then Some(GetOr(d, c, 0) + x.amount) else Get(d, c)
  {
    GetPut(d, x.category, GetOr(d, x.category, 0) + x.amount, c);
  }

  /** The dict holds, for exactly the categories that occur, the sum of their amounts. */
  lemma {:induction false} TotalsGet(s: seq<Spend>, c: string)
    ensures Get(Totals(s), c) == if Appears(s, c) then Some(CategorySum(s, c)) else None
  {
    if s != [] {
      var t := s[..|s| - 1];
      var x := s[|s| - 1];
      var d := Totals(t);
      assert Totals(s) == Tally(d, x);
      GetTally(d, x, c);
      TotalsGet(t, c);
      AppearsSnoc(s, c);
      if c == x.category {
        if !Appears(t, c) {
          AbsentSumsToZero(t, c);
        }
        assert GetOr(d, c, 0) == CategorySum(t, c);
      }
    }
  }

  /** Each category is a key once. */
  lemma {:induction false} TotalsDistinct(s: seq<Spend>)
    ensures DistinctKeys(Totals(s))
  {
    if s != [] {
      var t := s[..|s| - 1];
      var x := s[|s| - 1];
      var d := Totals(t);
      var v := GetOr(d, x.category, 0) + x.amount;
      assert Totals(s) == Tally(d, x) == Put(d, x.category, v);
      TotalsDistinct(t);
      DistinctPut(d, x.category, v);
    }
  }

  /** The keys are exactly the categories that occur. */
  lemma TotalsKeys(s: seq<Spend>, c: string)
    ensures c in Keys(Totals(s)) <==> Appears(s, c)
  {
    TotalsGet(s, c);
    GetFound(Totals(s), c);
  }

  /** One aggregation step adds the transaction's amount to the sum of the values. */
  lemma {:induction false} SumValuesTally(d: seq<(string, int)>, x: Spend)
    ensures SumValues(Tally(d, x)) == SumValues(d) + x.amount
  {
    var k := x.category;
    if d == [] {
      assert Tally(d, x) == [(k, x.amount)];
    } else if d[0].0 == k {
      assert GetOr(d, k, 0) == d[0].1;
      assert Tally(d, x) == [(k, d[0].1 + x.amount)] + d[1..];
    } else {
      var r := d[1..];
      var v := GetOr(r, k, 0) + x.amount;
      assert Get(d, k) == Get(r, k);
      assert Tally(r, x) == Put(r, k, v);
      assert Tally(d, x) == Put(d, k, v) == [d[0]] + Put(r, k, v);
      SumValuesTally(r, x);
      assert SumValues([d[0]] + Put(r, k, v)) == d[0].1 + SumValues(Put(r, k, v));
    }
  }

  /** The category totals add up to the overall total. */
  lemma {:induction false} TotalsSum(s: seq<Spend>)
    ensures SumValues(Totals(s)) == SumAmounts(s)
  {
    if s != [] {
      var t := s[..|s| - 1];
      var x := s[|s| - 1];
      var d := Totals(t);
      assert Totals(s) == Tally(d, x);
      assert SumAmounts(s) == SumAmounts(t) + x.amount;
      TotalsSum(t);
      SumValuesTally(d, x);
    }
  }

  /** The first occurrence of `c` in `s` is its first occurrence before the last transaction, if it has one. */
  lemma FirstIndexSnoc(s: seq<Spend>, c: string)
    requires s != [] && Appears(s, c)
    ensures var t := s[..|s| - 1];
            if Appears(t, c) then FirstIndex(s, c) == FirstIndex(t, c) < |t| else FirstIndex(s, c) == |t|
  {
  }

  /** Keys come in order of first appearance: an earlier key first occurs earlier in the transactions. */
  lemma {:induction false} TotalsOrder(s: seq<Spend>, p: nat, q: nat)
    requires p < q < |Totals(s)|
    ensures Appears(s, Totals(s)[p].0) && Appears(s, Totals(s)[q].0)
    ensures FirstIndex(s, Totals(s)[p].0) < FirstIndex(s, Totals(s)[q].0)
  {
    var d := Totals(s);
    var t := s[..|s| - 1];
    var x := s[|s| - 1];
    var prev := Totals(t);
    var v := GetOr(prev, x.category, 0) + x.amount;
    assert d == Tally(prev, x) == Put(prev, x.category, v);
    KeysPut(prev, x.category, v);
    var kp, kq := Keys(d)[p], Keys(d)[q];
    assert kp == d[p].0 && kq == d[q].0;
    TotalsKeys(s, kp);
    TotalsKeys(s, kq);
    FirstIndexSnoc(s, kp);
    FirstIndexSnoc(s, kq);
    if q < |prev| {
      assert Keys(prev)[p] == kp && Keys(prev)[q] == kq;
      assert prev[p].0 == kp && prev[q].0 == kq;
      TotalsKeys(t, kp);
      TotalsKeys(t, kq);
      TotalsOrder(t, p, q);
    } else {
      // only a key added by the last step lies beyond the old dict
      assert x.category !in Keys(prev) by {
        assert |Keys(d)| == |d| > q >= |prev| == |Keys(prev)|;
      }
      assert Keys(d) == Keys(prev) + [x.category];
      assert Keys(prev)[p] == kp && prev[p].0 == kp;
      TotalsKeys(t, kp);
      TotalsKeys(t, x.category);
    }
  }

  /** Python's `max(d, key=d.get)`: the position of the first key with the largest value. */
  function ArgMax(d: seq<(string, int)>): (i: nat)
    requires |d| > 0
    ensures i < |d|
    ensures forall j :: 0 <= j < |d| ==> d[j].1 <= d[i].1
    ensures forall j :: 0 <= j < i ==> d[j].1 < d[i].1
  {
    if |d| == 1 then 0
    else
      var i := ArgMax(d[..|d| - 1]);
      assert forall j :: 0 <= j < |d| - 1 ==> d[..|d| - 1][j] == d[j];
      if d[|d| - 1].1 > d[i].1 then |d| - 1 else i
  }
}
