/**
 * The merchant page: the merchant table with search and sorting, the chart
 * of the ten merchants with the largest totals, and the split of each
 * merchant's volume over its main and secondary payment channel.
 */
module MerchantData {
  import opened Records
  import opened Sorting
  import opened TableView
  import opened Charts
  import opened Text

  /** The merchants the page lists. */
  const Merchants: seq<Record> := [
    Record(1, "商户A", 100000, 500, 99.5, 5.2),
    Record(2, "商户B", 80000, 400, 99.2, -2.1),
    Record(3, "商户C", 120000, 600, 99.8, 6.1),
    Record(4, "商户D", 90000, 450, 99.6, -1.5),
    Record(5, "商户E", 110000, 550, 99.7, 5.8),
    Record(6, "商户F", 95000, 475, 99.4, 0.3),
    Record(7, "商户G", 105000, 525, 99.6, 5.6),
    Record(8, "商户H", 85000, 425, 99.3, -0.9),
    Record(9, "商户I", 115000, 575, 99.7, 5.9),
    Record(10, "商户J", 98000, 490, 99.5, 3.2)]

  /** A merchant name 商户 followed by one character matches a one-letter term exactly when the letters agree up to case. */
  lemma LetterNameMatch(r: Record, c: char, t: char)
    requires r.name == "商户" + [c] && ('A' <= t <= 'Z' || 'a' <= t <= 'z')
    ensures Matches(r, [t]) <==> LowerChar(c) == LowerChar(t)
  {
    var n := Lower(r.name);
    assert n == ['商', '户', LowerChar(c)];
    assert Lower([t]) == [LowerChar(t)];
    IncludesIffOccurs(n, Lower([t]));
    if LowerChar(c) == LowerChar(t) {
      assert OccursAt(n, Lower([t]), 2);
    } else {
      forall i ensures !OccursAt(n, Lower([t]), i) {
        if 0 <= i < 3 {
          assert n[i..i + 1] == [n[i]];
        }
      }
    }
  }

  /** Searching for "a" or "A" lists 商户A alone: the search ignores case and needs the letter in the name. */
  lemma SearchForA()
    ensures Filter(Merchants, "a") == [Merchants[0]]
    ensures Filter(Merchants, "A") == [Merchants[0]]
  {
    var letters := "ABCDEFGHIJ";
    forall i, t | 0 <= i < |Merchants| && t in "aA"
      ensures Matches(Merchants[i], [t]) <==> i == 0
    {
      LetterNameMatch(Merchants[i], letters[i], t);
    }
    assert "a" == ['a'] && "A" == ['A'];
    FilterOnly(Merchants, "a", 0);
    FilterOnly(Merchants, "A", 0);
  }

  /** How many merchants the ranking chart shows. */
  const TopCount: nat := 10

  /** The page's table state, as it is when the page opens. */
  method NewTable() returns (t: RecordTable)
    ensures fresh(t)
    ensures t.data == Merchants && t.topCount == TopCount
    ensures t.searchTerm == "" && t.State() == InitialSort
  {
    t := new RecordTable(Merchants, TopCount);
  }

  /** The ranking chart of the page. */
  function RankingChart(): ChartData
  {
    TopChart(TopN(Merchants, TopCount))
  }

  /**
   * There are ten merchants, so the ranking holds every one of them,
   * largest total first, and its chart has one bar group per merchant.
   */
  lemma RankingHoldsEveryMerchant()
    ensures multiset(TopN(Merchants, TopCount)) == multiset(Merchants)
    ensures forall i, j :: 0 <= i < j < |TopN(Merchants, TopCount)| ==>
      TopN(Merchants, TopCount)[i].totalPayments >= TopN(Merchants, TopCount)[j].totalPayments
    ensures |RankingChart().labels| == |Merchants| && Aligned(RankingChart()) && BindingHolds(RankingChart())
  {
    RankingOfWholeTable(Merchants, TopCount);
  }

  /** `Math.round`: to the nearest whole number, halves rounded up. */
  function Round(x: real): int
  {
    (x + 0.5).Floor
  }

  /** The rounded value is within one half of the exact one, and a half rounds up. */
  lemma RoundNearest(x: real)
    ensures x - 0.5 < Round(x) as real <= x + 0.5
    ensures (x + 0.5).Floor as real == x + 0.5 ==> Round(x) as real == x + 0.5
  {
  }

  /** The share of a merchant's volume shown under its main channel. */
  const MainShare: real := 0.6

  /** The share of a merchant's volume shown under its secondary channel. */
  const SecondaryShare: real := 0.3

  /** One channel cell: the amount and the rounded number of transactions. */
  datatype ChannelCell = ChannelCell(amount: real, count: int)

  function ChannelSplit(m: Record, share: real): ChannelCell
  {
    ChannelCell(m.totalPayments as real * share, Round(m.transactionCount as real * share))
  }

  /**
   * The main channel is shown with twice the secondary channel's amount,
   * the two together with nine tenths of the total, and each count within
   * one half of its exact share of the transactions.
   */
  lemma ChannelSplitShares(m: Record)
    ensures ChannelSplit(m, MainShare).amount == 2.0 * ChannelSplit(m, SecondaryShare).amount
    ensures ChannelSplit(m, MainShare).amount + ChannelSplit(m, SecondaryShare).amount == 0.9 * m.totalPayments as real
    ensures var exact := m.transactionCount as real * MainShare;
      exact - 0.5 < ChannelSplit(m, MainShare).count as real <= exact + 0.5
    ensures var exact := m.transactionCount as real * SecondaryShare;
      exact - 0.5 < ChannelSplit(m, SecondaryShare).count as real <= exact + 0.5
  {
    RoundNearest(m.transactionCount as real * MainShare);
    RoundNearest(m.transactionCount as real * SecondaryShare);
  }
}
