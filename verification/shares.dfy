/**
 * The share-of-total column of the breakdown tables: each row's amount as a
 * percentage of the sum of all amounts, `amount / rows.reduce(+, 0) * 100`.
 * Division is exact (over the reals); a zero sum, which the component does
 * not guard against, gives no number at all.
 */
module Shares {
  import opened Charts

  /** `xs.reduce((sum, x) => sum + x, 0)`: a left fold from 0. */
  function Sum(xs: seq<real>): real
    decreases |xs|
  {
    if |xs| == 0 then 0.0 else Sum(xs[..|xs| - 1]) + xs[|xs| - 1]
  }

  /** One row of a breakdown table: a name with its amount and its number of transactions. */
  datatype Row = Row(name: string, amount: int, count: int)

  /** The amount column of a breakdown table. */
  function Amounts(rows: seq<Row>): (xs: seq<real>)
    ensures |xs| == |rows|
    ensures forall i :: 0 <= i < |rows| ==> xs[i] == rows[i].amount as real
  {
    seq(|rows|, i requires 0 <= i < |rows| => rows[i].amount as real)
  }

  lemma SumOfThree(a: real, b: real, c: real)
    ensures Sum([a, b, c]) == a + b + c
  {
    calc {
      Sum([a, b, c]);
      { assert [a, b, c][..2] == [a, b]; }
      Sum([a, b]) + c;
      { assert [a, b][..1] == [a]; }
      Sum([a]) + b + c;
      { assert [a][..0] == []; }
      a + b + c;
    }
  }

  /** The value a share cell shows: a number, or NaN/Infinity when the total is 0. */
  datatype Percent = Finite(value: real) | Undefined

  function ShareOfTotal(amount: real, total: real): (p: Percent)
    ensures p.Finite? <==> total != 0.0
  {
    if total == 0.0 then Undefined else Finite(amount / total * 100.0)
  }

  /** The column for a given total: every row's share of that one total. */
  function Column(amounts: seq<real>, total: real): (ps: seq<Percent>)
    ensures |ps| == |amounts|
    ensures forall i :: 0 <= i < |ps| ==> ps[i] == ShareOfTotal(amounts[i], total)
  {
    seq(|amounts|, i requires 0 <= i < |amounts| => ShareOfTotal(amounts[i], total))
  }

  /** The share column of a table: each row against the sum of the whole list. */
  function ShareColumn(amounts: seq<real>): (ps: seq<Percent>)
  {
    Column(amounts, Sum(amounts))
  }

  /** The numbers of a column whose total is non-zero. */
  function Values(ps: seq<Percent>): (vs: seq<real>)
    requires forall i :: 0 <= i < |ps| ==> ps[i].Finite?
    ensures |vs| == |ps|
    ensures forall i :: 0 <= i < |ps| ==> vs[i] == ps[i].value
  {
    seq(|ps|, i requires 0 <= i < |ps| => ps[i].value)
  }

  /** The sum is linear: scaling every amount scales the sum. */
  lemma {:induction false} SumScaled(xs: seq<real>, c: real)
    ensures Sum(Scale(xs, c)) == Sum(xs) * c
    decreases |xs|
  {
    if |xs| > 0 {
      var n := |xs|;
      var front, scaledFront := Scale(xs, c)[..n - 1], Scale(xs[..n - 1], c);
      forall i | 0 <= i < n - 1 ensures front[i] == scaledFront[i] {
        assert xs[..n - 1][i] == xs[i];
      }
      assert front == scaledFront;
      SumScaled(xs[..n - 1], c);
      var frontSum, last := Sum(xs[..n - 1]), xs[n - 1];
      calc {
        Sum(Scale(xs, c));
        Sum(scaledFront) + last * c;
        frontSum * c + last * c;
        { Distributes(frontSum, last, c); }
        (frontSum + last) * c;
      }
    }
  }

  /** Multiplication distributes over a sum of two. */
  lemma Distributes(a: real, b: real, c: real)
    ensures a * c + b * c == (a + b) * c
  {
  }

  /** The sum of non-negative amounts is non-negative and bounds each of them. */
  lemma {:induction false} SumBoundsParts(xs: seq<real>)
    requires forall i :: 0 <= i < |xs| ==> xs[i] >= 0.0
    ensures Sum(xs) >= 0.0
    ensures forall i :: 0 <= i < |xs| ==> xs[i] <= Sum(xs)
    decreases |xs|
  {
    if |xs| > 0 {
      SumBoundsParts(xs[..|xs| - 1]);
    }
  }

  /** Non-negative amounts of which one is positive have a positive sum. */
  lemma SumPositive(xs: seq<real>, k: int)
    requires forall i :: 0 <= i < |xs| ==> xs[i] >= 0.0
    requires 0 <= k < |xs| && xs[k] > 0.0
    ensures Sum(xs) > 0.0
  {
    SumBoundsParts(xs);
  }

  /** `a / t * 100` is `a` scaled by the one factor `100 / t`. */
  lemma PercentIsScaling(a: real, t: real)
    requires t != 0.0
    ensures a / t * 100.0 == a * (100.0 / t)
  {
    var q, c := a / t, 100.0 / t;
    assert q * t == a;
    assert c * t == 100.0;
    calc {
      q * 100.0;
      q * (c * t);
      (q * t) * c;
      a * c;
    }
  }

  /** Against a non-zero total every cell is a number, and the column is the amounts scaled by the one factor `100 / total`. */
  lemma ColumnScales(amounts: seq<real>, total: real)
    requires total != 0.0
    ensures forall i :: 0 <= i < |amounts| ==> Column(amounts, total)[i].Finite?
    ensures Values(Column(amounts, total)) == Scale(amounts, 100.0 / total)
  {
    var ps := Column(amounts, total);
    var f := 100.0 / total;
    forall i | 0 <= i < |amounts| ensures ps[i] == Finite(amounts[i] * f) && Values(ps)[i] == Scale(amounts, f)[i] {
      PercentIsScaling(amounts[i], total);
    }
    assert Values(ps) == Scale(amounts, 100.0 / total);
  }

  /** A non-zero total times `100 / total` is 100. */
  lemma FactorCancels(total: real)
    requires total != 0.0
    ensures total * (100.0 / total) == 100.0
  {
  }

  /** Scaling amounts by `100 / total`, where total is their sum, gives numbers that add up to 100. */
  lemma ScaledSumIs100(xs: seq<real>, total: real)
    requires total != 0.0 && total == Sum(xs)
    ensures Sum(Scale(xs, 100.0 / total)) == 100.0
  {
    SumScaled(xs, 100.0 / total);
    FactorCancels(total);
  }

  /** A column against the sum of its own amounts adds up to 100. */
  lemma ColumnSumsTo100(amounts: seq<real>, total: real)
    requires total != 0.0 && total == Sum(amounts)
    ensures forall i :: 0 <= i < |amounts| ==> Column(amounts, total)[i].Finite?
    ensures Sum(Values(Column(amounts, total))) == 100.0
  {
    ColumnScales(amounts, total);
    ScaledSumIs100(amounts, total);
  }

  /**
   * When the total is non-zero every cell is a number, the column is the
   * amounts scaled by one common factor (the shares are proportional to the
   * amounts), and the column adds up to 100.
   */
  lemma SharesSumTo100(amounts: seq<real>)
    requires Sum(amounts) != 0.0
    ensures forall i :: 0 <= i < |amounts| ==> ShareColumn(amounts)[i].Finite?
    ensures Values(ShareColumn(amounts)) == Scale(amounts, 100.0 / Sum(amounts))
    ensures Sum(Values(ShareColumn(amounts))) == 100.0
  {
    var total := Sum(amounts);
    assert ShareColumn(amounts) == Column(amounts, total);
    ColumnScales(amounts, total);
    ColumnSumsTo100(amounts, total);
  }

  /** A zero total (every amount zero, say) leaves every cell without a number. */
  lemma ZeroTotalUndefined(amounts: seq<real>)
    requires Sum(amounts) == 0.0
    ensures forall i :: 0 <= i < |amounts| ==> ShareColumn(amounts)[i] == Undefined
  {
  }

  /** A share of a positive total that the amount does not exceed lies between 0 and 100. */
  lemma ShareBounded(a: real, total: real)
    requires 0.0 <= a <= total && total > 0.0
    ensures 0.0 <= ShareOfTotal(a, total).value <= 100.0
  {
    var q := a / total;
    assert q * total == a;
    assert (1.0 - q) * total == total - a;
  }

  /** With non-negative amounts and a positive total every share lies between 0 and 100. */
  lemma SharesBounded(amounts: seq<real>)
    requires forall i :: 0 <= i < |amounts| ==> amounts[i] >= 0.0
    requires Sum(amounts) > 0.0
    ensures forall i :: 0 <= i < |amounts| ==>
      0.0 <= ShareColumn(amounts)[i].value <= 100.0
  {
    SumBoundsParts(amounts);
    forall i | 0 <= i < |amounts| ensures 0.0 <= ShareColumn(amounts)[i].value <= 100.0 {
      ShareBounded(amounts[i], Sum(amounts));
    }
  }
}
