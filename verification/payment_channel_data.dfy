/**
 * The payment-channel page: the channel table with search and sorting, and
 * the chart of the five channels with the largest totals.
 */
module PaymentChannelData {
  import opened Records
  import opened Sorting
  import opened TableView
  import opened Charts

  /** The channels the page lists. */
  const Channels: seq<Record> := [
    Record(1, "信用卡", 250000, 1800, 99.8, 5.2),
    Record(2, "移动支付", 180000, 2200, 99.5, 7.8),
    Record(3, "银行转账", 120000, 600, 99.9, -1.5),
    Record(4, "微信支付", 160000, 2000, 99.7, 6.3),
    Record(5, "支付宝", 140000, 1800, 99.6, 4.9)]

  /** How many channels the ranking chart shows. */
  const TopCount: nat := 5

  /** The page's table state, as it is when the page opens. */
  method NewTable() returns (t: RecordTable)
    ensures fresh(t)
    ensures t.data == Channels && t.topCount == TopCount
    ensures t.searchTerm == "" && t.State() == InitialSort
  {
    t := new RecordTable(Channels, TopCount);
  }

  /** The ranking chart of the page. */
  function RankingChart(): ChartData
  {
    TopChart(TopN(Channels, TopCount))
  }

  /**
   * There are five channels, so the ranking holds every one of them,
   * largest total first, and its chart has one bar group per channel.
   */
  lemma RankingHoldsEveryChannel()
    ensures multiset(TopN(Channels, TopCount)) == multiset(Channels)
    ensures forall i, j :: 0 <= i < j < |TopN(Channels, TopCount)| ==>
      TopN(Channels, TopCount)[i].totalPayments >= TopN(Channels, TopCount)[j].totalPayments
    ensures |RankingChart().labels| == |Channels| && Aligned(RankingChart()) && BindingHolds(RankingChart())
  {
    RankingOfWholeTable(Channels, TopCount);
  }
}
