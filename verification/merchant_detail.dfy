/**
 * The merchant detail view: the transaction chart for the selected
 * granularity and the payment-channel breakdown with its share column.
 * The selected ranges are parameters; the random stream of `Math.random()`
 * is the sequence `us`.
 */
module MerchantDetail {
  import opened Series
  import opened Charts
  import opened Shares

  /** One call builds the whole table of granularities, so it always takes 52 + 52 draws. */
  const DrawsPerCall: nat := 2 * WeeksPerYear

  /** The labels of the yearly entry. */
  const Years: seq<string> := ["2019", "2020", "2021", "2022", "2023"]

  /** The `baseData` entry of one granularity. */
  function Table(g: Granularity, us: seq<real>): BaseSeries
    requires DrawsPerCall <= |us|
  {
    match g
    case Hourly => BaseSeries(HourLabels,
      [5000.0, 4000.0, 6000.0, 7000.0, 5500.0, 4800.0, 3000.0, 5000.0, 4000.0, 6000.0, 7000.0, 5500.0],
      [4800.0, 3800.0, 5700.0, 6700.0, 5200.0, 4500.0, 2800.0, 4800.0, 3800.0, 5700.0, 6700.0, 5200.0])
    case Daily => BaseSeries(DayLabels,
      [80000.0, 95000.0, 88000.0, 102000.0, 85000.0, 110000.0, 75000.0],
      [76000.0, 90000.0, 84000.0, 97000.0, 81000.0, 105000.0, 71000.0])
    case Weekly => BaseSeries(WeekLabels(),
      RandomSeries(us, 0, 500000, 300000),
      RandomSeries(us, WeeksPerYear, 450000, 280000))
    case Monthly => BaseSeries(MonthLabels,
      [1500000.0, 1400000.0, 1600000.0, 1550000.0, 1700000.0, 1650000.0,
       1800000.0, 1750000.0, 1900000.0, 1850000.0, 2000000.0, 1950000.0],
      [1450000.0, 1350000.0, 1550000.0, 1500000.0, 1650000.0, 1600000.0,
       1750000.0, 1700000.0, 1850000.0, 1800000.0, 1950000.0, 1900000.0])
    case Yearly => BaseSeries(Years,
      [15000000.0, 14000000.0, 16000000.0, 18000000.0, 20000000.0],
      [14500000.0, 13500000.0, 15500000.0, 17500000.0, 19500000.0])
  }

  /** The number of categories of each granularity. */
  function LabelCount(g: Granularity): nat
  {
    match g
    case Hourly => 12
    case Daily => 7
    case Weekly => 52
    case Monthly => 12
    case Yearly => 5
  }

  /**
   * `getChartData`: the chart of the selected range. A key that names no
   * granularity finds no entry, and reading its labels fails: `None`.
   */
  function GetChartData(timeRange: string, us: seq<real>): (r: Option<ChartData>)
    requires DrawsPerCall <= |us|
    ensures r.Some? <==> Parse(timeRange).Some?
  {
    match Parse(timeRange)
    case None => None
    case Some(g) => Some(DualAxis(Table(g, us)))
  }

  /** Every entry has one current and one average value per label, and the expected number of labels. */
  lemma TableShapes(g: Granularity, us: seq<real>)
    requires DrawsPerCall <= |us|
    ensures WellShaped(Table(g, us))
    ensures |Table(g, us).labels| == LabelCount(g)
  {
  }

  /** Only the weekly entry reads the random stream; every other entry is a fixed table. */
  lemma TablesFixed(g: Granularity, us: seq<real>, vs: seq<real>)
    requires DrawsPerCall <= |us| && DrawsPerCall <= |vs| && g != Weekly
    ensures Table(g, us) == Table(g, vs)
  {
  }

  /** Weekly current values are whole numbers in [300000, 800000), averages in [280000, 730000). */
  lemma WeeklyBounds(us: seq<real>)
    requires DrawsPerCall <= |us| && UnitInterval(us)
    ensures forall i :: 0 <= i < WeeksPerYear ==>
      var v := Table(Weekly, us).current[i];
      v == v.Floor as real && 300000.0 <= v < 800000.0
    ensures forall i :: 0 <= i < WeeksPerYear ==>
      var v := Table(Weekly, us).average[i];
      v == v.Floor as real && 280000.0 <= v < 730000.0
  {
    RandomSeriesBounds(us, 0, 500000, 300000);
    RandomSeriesBounds(us, WeeksPerYear, 450000, 280000);
  }

  /**
   * For every granularity the chart has the entry's labels, four series
   * of that length in the order current bar, current line, average bar,
   * average line, bars on `y`, lines on `y1`, and lines that are the bars
   * divided by the average ticket.
   */
  lemma ChartShape(timeRange: string, us: seq<real>)
    requires DrawsPerCall <= |us|
    ensures match Parse(timeRange)
      case None => GetChartData(timeRange, us) == None
      case Some(g) =>
        var c := GetChartData(timeRange, us).value;
        && |c.labels| == LabelCount(g) && Aligned(c) && BindingHolds(c)
        && Kinds(c) == [Bar, Line, Bar, Line]
        && c.datasets[0].data == Table(g, us).current
        && c.datasets[1].data == Volume(Table(g, us).current)
        && c.datasets[2].data == Table(g, us).average
        && c.datasets[3].data == Volume(Table(g, us).average)
  {
    match Parse(timeRange)
    case None =>
    case Some(g) =>
      TableShapes(g, us);
      DualAxisShape(Table(g, us));
  }

  /** The ranges the breakdown's buttons select. */
  const ChannelRanges: seq<string> := ["daily", "weekly", "monthly", "yearly"]

  /** `getChannelData`: the breakdown rows of the selected range, `None` where the table has no entry. */
  function ChannelRows(channelTimeRange: string): (r: Option<seq<Row>>)
    ensures r.Some? <==> channelTimeRange in ChannelRanges
  {
    if channelTimeRange == "daily" then
      Some([Row("支付宝", 50000, 250), Row("微信支付", 30000, 150), Row("银联", 20000, 100)])
    else if channelTimeRange == "weekly" then
      Some([Row("支付宝", 350000, 1750), Row("微信支付", 210000, 1050), Row("银联", 140000, 700)])
    else if channelTimeRange == "monthly" then
      Some([Row("支付宝", 1500000, 7500), Row("微信支付", 900000, 4500), Row("银联", 600000, 3000)])
    else if channelTimeRange == "yearly" then
      Some([Row("支付宝", 18000000, 90000), Row("微信支付", 10800000, 54000), Row("银联", 7200000, 36000)])
    else None
  }

  /** The share column of the selected range's breakdown. */
  function ChannelShares(channelTimeRange: string): (ps: Option<seq<Percent>>)
    ensures ps.Some? <==> channelTimeRange in ChannelRanges
  {
    match ChannelRows(channelTimeRange)
    case None => None
    case Some(rows) => Some(ShareColumn(Amounts(rows)))
  }

  /**
   * Every range a button selects has the same three channels in the same
   * order, each at 200 per transaction, and splits its amount 50/30/20;
   * the hourly range, which the chart offers, has no breakdown.
   */
  lemma ChannelBreakdown(channelTimeRange: string)
    requires channelTimeRange in ChannelRanges
    ensures var rows := ChannelRows(channelTimeRange).value;
      && |rows| == 3
      && rows[0].name == "支付宝" && rows[1].name == "微信支付" && rows[2].name == "银联"
      && (forall i :: 0 <= i < 3 ==> rows[i].amount == 200 * rows[i].count)
      && ChannelShares(channelTimeRange).value == [Finite(50.0), Finite(30.0), Finite(20.0)]
    ensures ChannelRows(Key(Hourly)) == None
  {
    var rows := ChannelRows(channelTimeRange).value;
    var xs := Amounts(rows);
    assert xs == [rows[0].amount as real, rows[1].amount as real, rows[2].amount as real];
    SumOfThree(xs[0], xs[1], xs[2]);
    var ps := ShareColumn(xs);
    assert ps[0] == Finite(50.0) && ps[1] == Finite(30.0) && ps[2] == Finite(20.0);
    assert ps == [Finite(50.0), Finite(30.0), Finite(20.0)];
  }
}
