/**
 * The payment-channel detail view: the transaction chart of the channel for
 * the selected granularity, and the breakdown of its volume by merchant
 * with a share column. The random stream of `Math.random()` is `us`.
 */
module PaymentChannelDetail {
  import opened Series
  import opened Charts
  import opened Shares

  /** One call builds the whole table of granularities, so it always takes 52 + 52 draws. */
  const DrawsPerCall: nat := 2 * WeeksPerYear

  /** The labels of the yearly entry. */
  const Years: seq<string> := ["2019", "2020", "2021", "2022", "2023"]

  /** The `baseData` entry of one granularity. */
  function Table(g: Granularity, us: seq<real>): BaseSeries
    requires DrawsPerCall <= |us|
  {
    match g
    case Hourly => BaseSeries(HourLabels,
      [25000.0, 20000.0, 30000.0, 35000.0, 27500.0, 24000.0, 15000.0, 25000.0, 20000.0, 30000.0, 35000.0, 27500.0],
      [24000.0, 19000.0, 28500.0, 33500.0, 26000.0, 22500.0, 14000.0, 24000.0, 19000.0, 28500.0, 33500.0, 26000.0])
    case Daily => BaseSeries(DayLabels,
      [400000.0, 475000.0, 440000.0, 510000.0, 425000.0, 550000.0, 375000.0],
      [380000.0, 450000.0, 420000.0, 485000.0, 405000.0, 525000.0, 355000.0])
    case Weekly => BaseSeries(WeekLabels(),
      RandomSeries(us, 0, 2500000, 1500000),
      RandomSeries(us, WeeksPerYear, 2250000, 1350000))
    case Monthly => BaseSeries(MonthLabels,
      [7500000.0, 7000000.0, 8000000.0, 7750000.0, 8500000.0, 8250000.0,
       9000000.0, 8750000.0, 9500000.0, 9250000.0, 10000000.0, 9750000.0],
      [7250000.0, 6750000.0, 7750000.0, 7500000.0, 8250000.0, 8000000.0,
       8750000.0, 8500000.0, 9250000.0, 9000000.0, 9750000.0, 9500000.0])
    case Yearly => BaseSeries(Years,
      [75000000.0, 70000000.0, 80000000.0, 90000000.0, 100000000.0],
      [72500000.0, 67500000.0, 77500000.0, 87500000.0, 97500000.0])
  }

  /** The number of categories of each granularity. */
  function LabelCount(g: Granularity): nat
  {
    match g
    case Hourly => 12
    case Daily => 7
    case Weekly => 52
    case Monthly => 12
    case Yearly => 5
  }

  /**
   * `getChartData`: the chart of the selected range. A key that names no
   * granularity finds no entry, and reading its labels fails: `None`.
   */
  function GetChartData(timeRange: string, us: seq<real>): (r: Option<ChartData>)
    requires DrawsPerCall <= |us|
    ensures r.Some? <==> Parse(timeRange).Some?
  {
    match Parse(timeRange)
    case None => None
    case Some(g) => Some(DualAxis(Table(g, us)))
  }

  /** Every entry has one current and one average value per label, and the expected number of labels. */
  lemma TableShapes(g: Granularity, us: seq<real>)
    requires DrawsPerCall <= |us|
    ensures WellShaped(Table(g, us))
    ensures |Table(g, us).labels| == LabelCount(g)
  {
  }

  /** Only the weekly entry reads the random stream; for every other range the chart is fixed. */
  lemma TablesFixed(g: Granularity, us: seq<real>, vs: seq<real>)
    requires DrawsPerCall <= |us| && DrawsPerCall <= |vs| && g != Weekly
    ensures Table(g, us) == Table(g, vs)
  {
  }

  /** Weekly current values are whole numbers in [1500000, 4000000), averages in [1350000, 3600000). */
  lemma WeeklyBounds(us: seq<real>)
    requires DrawsPerCall <= |us| && UnitInterval(us)
    ensures forall i :: 0 <= i < WeeksPerYear ==>
      var v := Table(Weekly, us).current[i];
      v == v.Floor as real && 1500000.0 <= v < 4000000.0
    ensures forall i :: 0 <= i < WeeksPerYear ==>
      var v := Table(Weekly, us).average[i];
      v == v.Floor as real && 1350000.0 <= v < 3600000.0
  {
    RandomSeriesBounds(us, 0, 2500000, 1500000);
    RandomSeriesBounds(us, WeeksPerYear, 2250000, 1350000);
  }

  /**
   * For every granularity the chart has the entry's labels, four series
   * of that length in the order current bar, current line, average bar,
   * average line, bars on `y`, lines on `y1`, and lines that are the bars
   * divided by the average ticket.
   */
  lemma ChartShape(timeRange: string, us: seq<real>)
    requires DrawsPerCall <= |us|
    ensures match Parse(timeRange)
      case None => GetChartData(timeRange, us) == None
      case Some(g) =>
        var c := GetChartData(timeRange, us).value;
        && |c.labels| == LabelCount(g) && Aligned(c) && BindingHolds(c)
        && Kinds(c) == [Bar, Line, Bar, Line]
        && c.datasets[0].data == Table(g, us).current
        && c.datasets[1].data == Volume(Table(g, us).current)
        && c.datasets[2].data == Table(g, us).average
        && c.datasets[3].data == Volume(Table(g, us).average)
  {
    match Parse(timeRange)
    case None =>
    case Some(g) =>
      TableShapes(g, us);
      DualAxisShape(Table(g, us));
  }

  /** `getMerchantData`: the channel's merchants, largest first. */
  const MerchantRows: seq<Row> := [
    Row("商户A", 150000, 750),
    Row("商户B", 100000, 500),
    Row("商户C", 80000, 400),
    Row("商户D", 70000, 350),
    Row("商户E", 60000, 300)]

  /**
   * The merchant share column: every cell is a number between 0 and 100,
   * each share is its merchant's amount times one common factor, and the
   * column adds up to 100.
   */
  lemma MerchantShares()
    ensures Sum(Amounts(MerchantRows)) > 0.0
    ensures forall i :: 0 <= i < |MerchantRows| ==> ShareColumn(Amounts(MerchantRows))[i].Finite?
    ensures forall i :: 0 <= i < |MerchantRows| ==> 0.0 <= ShareColumn(Amounts(MerchantRows))[i].value <= 100.0
    ensures Values(ShareColumn(Amounts(MerchantRows))) == Scale(Amounts(MerchantRows), 100.0 / Sum(Amounts(MerchantRows)))
    ensures Sum(Values(ShareColumn(Amounts(MerchantRows)))) == 100.0
  {
    var xs := Amounts(MerchantRows);
    SumPositive(xs, 0);
    SharesSumTo100(xs);
    SharesBounded(xs);
  }
}
