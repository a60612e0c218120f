/**
 * The overview page: one chart of the whole platform's transactions for
 * the selected granularity. Every range but the yearly one shows amount
 * and volume against a baseline; the yearly range shows only the two
 * current series. The random stream of `Math.random()` is `us`.
 */
module Overview {
  import opened Series
  import opened Charts

  /** The weekly branch draws four series of 52 values; no other branch draws. */
  const DrawsPerCall: nat := 4 * WeeksPerYear

  /** The labels of the yearly branch. */
  const Years: seq<string> := ["2017", "2018", "2019", "2020", "2021", "2022", "2023"]

  /** The chart of one granularity: the `case` of the `switch` that handles it. */
  function Chart(g: Granularity, us: seq<real>): ChartData
    requires DrawsPerCall <= |us|
  {
    match g
    case Hourly => ChartData(HourLabels, [
      Dataset(Bar, "交易额",
        [65000.0, 59000.0, 80000.0, 81000.0, 56000.0, 55000.0, 40000.0, 65000.0, 59000.0, 80000.0, 81000.0, 56000.0], Y),
      Dataset(Line, "交易量",
        [120.0, 110.0, 150.0, 155.0, 100.0, 95.0, 80.0, 120.0, 110.0, 150.0, 155.0, 100.0], Y1),
      Dataset(Bar, "7天平均交易额",
        [62000.0, 57000.0, 75000.0, 78000.0, 54000.0, 53000.0, 38000.0, 62000.0, 57000.0, 75000.0, 78000.0, 54000.0], Y),
      Dataset(Line, "7天平均交易量",
        [115.0, 105.0, 140.0, 145.0, 95.0, 90.0, 75.0, 115.0, 105.0, 140.0, 145.0, 95.0], Y1)])
    case Daily => ChartData(DayLabels, [
      Dataset(Bar, "本周交易额", [1200000.0, 1500000.0, 1400000.0, 1600000.0, 1300000.0, 1700000.0, 1100000.0], Y),
      Dataset(Line, "本周交易量", [5000.0, 6200.0, 5800.0, 6500.0, 5500.0, 7000.0, 4800.0], Y1),
      Dataset(Bar, "前7天平均交易额", [1150000.0, 1450000.0, 1350000.0, 1550000.0, 1250000.0, 1650000.0, 1050000.0], Y),
      Dataset(Line, "前7天平均交易量", [4800.0, 6000.0, 5600.0, 6300.0, 5300.0, 6800.0, 4600.0], Y1)])
    case Weekly => ChartData(WeekLabels(), [
      Dataset(Bar, "本年交易额", RandomSeries(us, 0, 10000000, 5000000), Y),
      Dataset(Line, "本年交易量", RandomSeries(us, WeeksPerYear, 50000, 20000), Y1),
      Dataset(Bar, "上年同期交易额", RandomSeries(us, 2 * WeeksPerYear, 9000000, 4500000), Y),
      Dataset(Line, "上年同期交易量", RandomSeries(us, 3 * WeeksPerYear, 45000, 18000), Y1)])
    case Monthly => ChartData(MonthLabels, [
      Dataset(Bar, "本年交易额",
        [30000000.0, 28000000.0, 35000000.0, 32000000.0, 40000000.0, 38000000.0,
         42000000.0, 45000000.0, 41000000.0, 38000000.0, 43000000.0, 48000000.0], Y),
      Dataset(Line, "本年交易量",
        [150000.0, 140000.0, 170000.0, 160000.0, 200000.0, 190000.0,
         210000.0, 220000.0, 205000.0, 190000.0, 215000.0, 240000.0], Y1),
      Dataset(Bar, "上年同期交易额",
        [28000000.0, 26000000.0, 33000000.0, 30000000.0, 38000000.0, 36000000.0,
         40000000.0, 43000000.0, 39000000.0, 36000000.0, 41000000.0, 46000000.0], Y),
      Dataset(Line, "上年同期交易量",
        [140000.0, 130000.0, 160000.0, 150000.0, 190000.0, 180000.0,
         200000.0, 210000.0, 195000.0, 180000.0, 205000.0, 230000.0], Y1)])
    case Yearly => ChartData(Years, [
      Dataset(Bar, "交易额",
        [300000000.0, 350000000.0, 400000000.0, 380000000.0, 450000000.0, 500000000.0, 550000000.0], Y),
      Dataset(Line, "交易量",
        [1500000.0, 1750000.0, 2000000.0, 1900000.0, 2250000.0, 2500000.0, 2750000.0], Y1)])
  }

  /** `getChartData`: the `switch` on `timeRange`, whose `default` returns an empty chart. */
  function GetChartData(timeRange: string, us: seq<real>): ChartData
    requires DrawsPerCall <= |us|
  {
    match Parse(timeRange)
    case None => ChartData([], [])
    case Some(g) => Chart(g, us)
  }

  /** The number of categories of each granularity. */
  function LabelCount(g: Granularity): nat
  {
    match g
    case Hourly => 12
    case Daily => 7
    case Weekly => 52
    case Monthly => 12
    case Yearly => 7
  }

  /**
   * In every branch each series has one value per label, bars sit on `y`
   * and lines on `y1`; every branch but the yearly one has a current bar
   * and line followed by a baseline bar and line, the yearly one only the
   * current pair.
   */
  lemma ChartShape(g: Granularity, us: seq<real>)
    requires DrawsPerCall <= |us|
    ensures var c := Chart(g, us);
      && |c.labels| == LabelCount(g) && Aligned(c) && BindingHolds(c)
      && Kinds(c) == (if g == Yearly then [Bar, Line] else [Bar, Line, Bar, Line])
  {
    var c := Chart(g, us);
    if g == Yearly {
      assert Kinds(c) == [Bar, Line];
    } else {
      assert Kinds(c) == [Bar, Line, Bar, Line];
    }
  }

  /** A key that names no granularity gives no labels and no series; a key that names one gives that branch. */
  lemma UnknownRangeEmpty(timeRange: string, us: seq<real>)
    requires DrawsPerCall <= |us|
    ensures Parse(timeRange) == None ==> GetChartData(timeRange, us) == ChartData([], [])
    ensures Parse(timeRange) != None ==> |GetChartData(timeRange, us).datasets| >= 2
  {
    match Parse(timeRange)
    case None =>
    case Some(g) => ChartShape(g, us);
  }

  /**
   * Weekly amounts are whole numbers in [5000000, 15000000), volumes in
   * [20000, 70000); last year's amounts in [4500000, 13500000), its
   * volumes in [18000, 63000).
   */
  lemma WeeklyBounds(us: seq<real>)
    requires DrawsPerCall <= |us| && UnitInterval(us)
    ensures forall i :: 0 <= i < WeeksPerYear ==>
      var v := Chart(Weekly, us).datasets[0].data[i];
      v == v.Floor as real && 5000000.0 <= v < 15000000.0
    ensures forall i :: 0 <= i < WeeksPerYear ==>
      var v := Chart(Weekly, us).datasets[1].data[i];
      v == v.Floor as real && 20000.0 <= v < 70000.0
    ensures forall i :: 0 <= i < WeeksPerYear ==>
      var v := Chart(Weekly, us).datasets[2].data[i];
      v == v.Floor as real && 4500000.0 <= v < 13500000.0
    ensures forall i :: 0 <= i < WeeksPerYear ==>
      var v := Chart(Weekly, us).datasets[3].data[i];
      v == v.Floor as real && 18000.0 <= v < 63000.0
  {
    RandomSeriesBounds(us, 0, 10000000, 5000000);
    RandomSeriesBounds(us, WeeksPerYear, 50000, 20000);
    RandomSeriesBounds(us, 2 * WeeksPerYear, 9000000, 4500000);
    RandomSeriesBounds(us, 3 * WeeksPerYear, 45000, 18000);
  }

  /** Only the weekly branch reads the random stream. */
  lemma ChartsFixed(g: Granularity, us: seq<real>, vs: seq<real>)
    requires DrawsPerCall <= |us| && DrawsPerCall <= |vs| && g != Weekly
    ensures Chart(g, us) == Chart(g, vs)
  {
  }
}
