/**
 * Upload progress (client/src/Multipart.js): the `percentage` map from
 * part index to the rounded percentage of that part's bytes sent, and
 * `percentageCount`, the rounded mean of its entries that the progress bar
 * shows.
 */
module Progress {

  /**
   * One entry of the map. `Math.round(loaded * 100 / total)` is a whole
   * number when `total` is positive; with `total == 0` (the empty last part)
   * it is `NaN`, which `percentage[cur] || 0` counts as 0.
   */
  datatype Entry = Percent(value: nat) | NotANumber
  {
    function Counted(): nat
    {
      if Percent? then value else 0
    }
  }

  /** `Math.round(x / y)` for `x >= 0` and `y > 0`: the integer nearest `x / y`, halves rounded up. */
  function RoundDiv(x: nat, y: nat): (q: nat)
    requires y > 0
    ensures q * (2 * y) <= 2 * x + y < (q + 1) * (2 * y)
  {
    (2 * x + y) / (2 * y)
  }

  /** A rounded quotient of at most `bound` plus a half stays at most `bound`. */
  lemma RoundDivAtMost(x: nat, y: nat, bound: nat)
    requires y > 0
    requires x <= bound * y
    ensures RoundDiv(x, y) <= bound
  {
    var q := RoundDiv(x, y);
    assert 2 * x + y < (bound + 1) * (2 * y);
    if q > bound {
      assert (bound + 1) * (2 * y) <= q * (2 * y) by {
        MulMonotone(bound + 1, q, 2 * y);
      }
    }
  }

  lemma MulMonotone(a: nat, b: nat, c: nat)
    requires a <= b
    ensures a * c <= b * c
  {
  }

  /** The entry recorded for a progress event reporting `loaded` of `total` bytes. */
  function Percentage(loaded: nat, total: nat): (e: Entry)
    ensures total == 0 <==> e == NotANumber
    ensures total > 0 ==> e.Counted() * (2 * total) <= 200 * loaded + total < (e.Counted() + 1) * (2 * total)
  {
    if total == 0 then NotANumber else Percent(RoundDiv(loaded * 100, total))
  }

  /** A part that has sent no more than its size is at most 100 percent done, and exactly 100 when all sent. */
  lemma PercentageBounds(loaded: nat, total: nat)
    requires loaded <= total
    ensures Percentage(loaded, total).Counted() <= 100
    ensures 0 < total == loaded ==> Percentage(loaded, total) == Percent(100)
  {
    if total > 0 {
      MulMonotone(loaded, total, 100);
      RoundDivAtMost(loaded * 100, total, 100);
      if loaded == total {
        var q := RoundDiv(loaded * 100, total);
        if q < 100 {
          MulMonotone(q + 1, 100, 2 * total);
        }
      }
    }
  }

  /** The sum of the counted entries: the `reduce` in `percentageCount`. */
  ghost function Sum(m: map<nat, Entry>): nat
    decreases |m|
  {
    if m == map[] then 0
    else
      var k :| k in m;
      m[k].Counted() + Sum(m - {k})
  }

  /** The sum does not depend on the order in which the keys are visited. */
  lemma {:induction false} SumWithout(m: map<nat, Entry>, k: nat)
    requires k in m
    ensures Sum(m) == m[k].Counted() + Sum(m - {k})
    decreases |m|
  {
    var j :| j in m && Sum(m) == m[j].Counted() + Sum(m - {j});
    if j != k {
      assert m - {j} - {k} == m - {k} - {j};
      SumWithout(m - {j}, k);
      SumWithout(m - {k}, j);
    }
  }

  /** If every entry is at most `bound`, the sum is at most `bound` per entry. */
  lemma {:induction false} SumAtMost(m: map<nat, Entry>, bound: nat)
    requires forall k :: k in m ==> m[k].Counted() <= bound
    ensures Sum(m) <= bound * |m|
    decreases |m|
  {
    if m != map[] {
      var k :| k in m;
      SumWithout(m, k);
      SumAtMost(m - {k}, bound);
      assert |m - {k}| == |m| - 1;
      assert bound * |m| == bound * (|m| - 1) + bound;
    }
  }

  /** `percentageCount`: 0 for an empty map, otherwise the rounded mean of the entries. */
  ghost function PercentageCount(m: map<nat, Entry>): nat
  {
    if |m| == 0 then 0 else RoundDiv(Sum(m), |m|)
  }

  /** The bar never passes 100 percent while every part's entry is at most 100. */
  lemma PercentageCountAtMost100(m: map<nat, Entry>)
    requires forall k :: k in m ==> m[k].Counted() <= 100
    ensures PercentageCount(m) <= 100
  {
    if |m| > 0 {
      SumAtMost(m, 100);
      RoundDivAtMost(Sum(m), |m|, 100);
    }
  }

  /** `setPercentage(prev => ({ ...prev, [index]: value }))`. */
  function Record(m: map<nat, Entry>, index: nat, loaded: nat, total: nat): (m': map<nat, Entry>)
    ensures m'.Keys == m.Keys + {index}
    ensures m'[index] == Percentage(loaded, total)
    ensures forall k :: k in m && k != index ==> m'[k] == m[k]
  {
    m[index := Percentage(loaded, total)]
  }

  /** Recording an event adds the new entry to the sum in place of the part's old one. */
  lemma RecordSum(m: map<nat, Entry>, index: nat, loaded: nat, total: nat)
    ensures var m' := Record(m, index, loaded, total);
      Sum(m') == Sum(m) - (if index in m then m[index].Counted() else 0) + Percentage(loaded, total).Counted()
  {
    var m' := Record(m, index, loaded, total);
    SumWithout(m', index);
    assert m' - {index} == m - {index};
    if index in m {
      SumWithout(m, index);
    } else {
      assert m - {index} == m;
    }
  }

  /**
   * The shown percentage can go down: a part that finishes first shows 100,
   * and the first event of a second part that has sent nothing yet halves it.
   */
  lemma PercentageCanDecrease()
    ensures PercentageCount(Record(map[], 0, 10, 10)) == 100
    ensures PercentageCount(Record(Record(map[], 0, 10, 10), 1, 0, 10)) == 50
  {
    PercentageBounds(10, 10);
    var m1 := Record(map[], 0, 10, 10);
    assert m1 == map[0 := Percent(100)];
    assert Sum(map[]) == 0;
    RecordSum(map[], 0, 10, 10);
    assert |m1| == 1;
    assert RoundDiv(100, 1) == 100;
    assert Percentage(0, 10) == Percent(0);
    var m2 := Record(m1, 1, 0, 10);
    assert m2 == map[0 := Percent(100), 1 := Percent(0)];
    RecordSum(m1, 1, 0, 10);
    assert m2.Keys == {0, 1};
    assert |m2| == 2;
    assert RoundDiv(100, 2) == 50;
  }
}
