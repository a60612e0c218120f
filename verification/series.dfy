/**
 * What the three time-series views share: the five granularities a range
 * button selects, the title word each one shows, the category labels, the
 * weekly series drawn from `Math.random`, and the dual-axis chart the two
 * detail views assemble from a current and an average series.
 */
module Series {
  import opened Text
  import opened Charts

  datatype Option<T> = None | Some(value: T)

  datatype Granularity = Hourly | Daily | Weekly | Monthly | Yearly

  /** The `timeRange` key a range button stores. */
  function Key(g: Granularity): string
  {
    match g
    case Hourly => "hourly"
    case Daily => "daily"
    case Weekly => "weekly"
    case Monthly => "monthly"
    case Yearly => "yearly"
  }

  /** Looks a `timeRange` key up among the five granularities. */
  function Parse(key: string): (r: Option<Granularity>)
    ensures r.Some? ==> Key(r.value) == key
  {
    if key == "hourly" then Some(Hourly)
    else if key == "daily" then Some(Daily)
    else if key == "weekly" then Some(Weekly)
    else if key == "monthly" then Some(Monthly)
    else if key == "yearly" then Some(Yearly)
    else None
  }

  /** Every granularity's key parses back to it, so a key names exactly one granularity. */
  lemma ParseKey(g: Granularity)
    ensures Parse(Key(g)) == Some(g)
  {
  }

  /** The word for one granularity. */
  function Word(g: Granularity): string
  {
    match g
    case Hourly => "每小时"
    case Daily => "每天"
    case Weekly => "每周"
    case Monthly => "每月"
    case Yearly => "每年"
  }

  /** The title's chain of conditionals on `timeRange`; every other key ends in the last branch. */
  function TitleWord(key: string): string
  {
    if key == "hourly" then "每小时"
    else if key == "daily" then "每天"
    else if key == "weekly" then "每周"
    else if key == "monthly" then "每月"
    else "每年"
  }

  /**
   * The title names the selected granularity, any key that is not one of
   * the five reads as yearly, and different granularities read differently.
   */
  lemma TitleWordMapping(key: string, g: Granularity, h: Granularity)
    ensures Parse(key) == Some(g) ==> TitleWord(key) == Word(g)
    ensures Parse(key) == None ==> TitleWord(key) == Word(Yearly)
    ensures Word(g) == Word(h) ==> g == h
  {
  }

  /** The hour labels: every second hour of the day. */
  const HourLabels: seq<string> :=
    ["00:00", "02:00", "04:00", "06:00", "08:00", "10:00", "12:00", "14:00", "16:00", "18:00", "20:00", "22:00"]

  /** The weekday labels, Sunday first. */
  const DayLabels: seq<string> := ["周日", "周一", "周二", "周三", "周四", "周五", "周六"]

  const MonthLabels: seq<string> :=
    ["1月", "2月", "3月", "4月", "5月", "6月", "7月", "8月", "9月", "10月", "11月", "12月"]

  /** The hour `2k` written with two digits. */
  function HourLabel(k: nat): string
    requires k < 12
  {
    [DigitChar(2 * k / 10), DigitChar(2 * k % 10)] + ":00"
  }

  /** The hour labels are the even hours from 00:00 to 22:00, in order. */
  lemma HourLabelsEveryTwoHours()
    ensures |HourLabels| == 12
    ensures forall k :: 0 <= k < 12 ==> HourLabels[k] == HourLabel(k)
  {
  }

  /** The month labels are 1月 to 12月, in order. */
  lemma MonthLabelsInOrder()
    ensures |MonthLabels| == 12
    ensures forall k :: 0 <= k < 12 ==> MonthLabels[k] == NatToString(k + 1) + "月"
  {
    TwoDigits(10);
    TwoDigits(11);
    TwoDigits(12);
  }

  /** A two-digit number renders as its tens digit followed by its units digit. */
  lemma TwoDigits(n: nat)
    requires 10 <= n < 100
    ensures NatToString(n) == [DigitChar(n / 10), DigitChar(n % 10)]
  {
    assert NatToString(n / 10) == [DigitChar(n / 10)];
  }

  /** `第${i + 1}周`. */
  function WeekLabel(i: nat): string
  {
    "第" + NatToString(i + 1) + "周"
  }

  const WeeksPerYear: nat := 52

  /** `Array.from({ length: 52 }, (_, i) => `第${i + 1}周`)`. */
  function WeekLabels(): (ls: seq<string>)
    ensures |ls| == WeeksPerYear
    ensures forall i :: 0 <= i < |ls| ==> ls[i] == WeekLabel(i)
  {
    seq(WeeksPerYear, i requires 0 <= i < WeeksPerYear => WeekLabel(i))
  }

  /** Two weeks never share a label. */
  lemma WeekLabelsDistinct(i: nat, j: nat)
    requires i < j < WeeksPerYear
    ensures WeekLabels()[i] != WeekLabels()[j]
  {
    WeekLabelNumbered(i);
    WeekLabelNumbered(j);
  }

  /**
   * The label of week `i` is 第, the decimal rendering of `i + 1` (digits
   * only, no leading zero), and 周.
   */
  lemma WeekLabelNumbered(i: nat)
    requires i < WeeksPerYear
    ensures var l := WeekLabels()[i];
      && 3 <= |l| && l[0] == '第' && l[|l| - 1] == '周'
      && (forall c :: 1 <= c < |l| - 1 ==> '0' <= l[c] <= '9')
      && (|l| > 3 ==> l[1] != '0')
      && DigitsValue(l[1..|l| - 1]) == i + 1
  {
    var l := WeekLabels()[i];
    var d := NatToString(i + 1);
    assert l == ['第'] + d + ['周'];
    assert l[1..|l| - 1] == d;
  }

  /** `Math.floor(u * k) + base` for one value `u` of `Math.random()`. */
  function Draw(u: real, k: nat, base: int): int
  {
    (u * k as real).Floor + base
  }

  /** Since `Math.random()` lies in [0, 1), a draw is a whole number in [base, base + k). */
  lemma DrawBounds(u: real, k: nat, base: int)
    requires 0.0 <= u < 1.0 && k > 0
    ensures base <= Draw(u, k, base) < base + k
  {
    var x := u * k as real;
    assert 0.0 <= x;
    assert x < k as real by {
      assert (1.0 - u) * k as real > 0.0;
    }
  }

  /** The random stream the views read from: every value in [0, 1). */
  ghost predicate UnitInterval(us: seq<real>)
  {
    forall i :: 0 <= i < |us| ==> 0.0 <= us[i] < 1.0
  }

  /** `Array.from({ length: 52 }, () => Math.floor(Math.random() * k) + base)`, drawing from position `from` on. */
  function RandomSeries(us: seq<real>, from: nat, k: nat, base: int): (r: seq<real>)
    requires from + WeeksPerYear <= |us|
    ensures |r| == WeeksPerYear
  {
    seq(WeeksPerYear, i requires 0 <= i < WeeksPerYear => Draw(us[from + i], k, base) as real)
  }

  /** Every value of a random series is a whole number in [base, base + k). */
  lemma RandomSeriesBounds(us: seq<real>, from: nat, k: nat, base: int)
    requires from + WeeksPerYear <= |us| && UnitInterval(us) && k > 0
    ensures forall i :: 0 <= i < WeeksPerYear ==>
      var v := RandomSeries(us, from, k, base)[i];
      v == v.Floor as real && base as real <= v < (base + k) as real
  {
    forall i | 0 <= i < WeeksPerYear
      ensures var v := RandomSeries(us, from, k, base)[i];
        v == v.Floor as real && base as real <= v < (base + k) as real
    {
      DrawBounds(us[from + i], k, base);
    }
  }

  /** One granularity of a detail view: labels with a current and an average series. */
  datatype BaseSeries = BaseSeries(labels: seq<string>, current: seq<real>, average: seq<real>)

  predicate WellShaped(b: BaseSeries)
  {
    |b.current| == |b.labels| && |b.average| == |b.labels|
  }

  /** The four datasets of a detail chart: each amount series as bars, and its volume as a line. */
  function DualAxis(b: BaseSeries): ChartData
  {
    ChartData(b.labels, [
      Dataset(Bar, "当前交易额", b.current, Y),
      Dataset(Line, "当前交易量", Volume(b.current), Y1),
      Dataset(Bar, "平均交易额", b.average, Y),
      Dataset(Line, "平均交易量", Volume(b.average), Y1)])
  }

  /**
   * The detail chart: four series as long as the labels, bars of the
   * amounts on `y` and lines of their volumes on `y1`, current before
   * average, each volume the amount divided by the average ticket.
   */
  lemma DualAxisShape(b: BaseSeries)
    requires WellShaped(b)
    ensures var c := DualAxis(b);
      && c.labels == b.labels && Aligned(c) && BindingHolds(c)
      && Kinds(c) == [Bar, Line, Bar, Line]
      && c.datasets[0].data == b.current && c.datasets[2].data == b.average
      && c.datasets[1].data == Volume(b.current) && c.datasets[3].data == Volume(b.average)
      && (forall i :: 0 <= i < |b.labels| ==>
            c.datasets[1].data[i] * AverageTicket == b.current[i]
            && c.datasets[3].data[i] * AverageTicket == b.average[i])
  {
    var c := DualAxis(b);
    VolumeInverts(b.current);
    VolumeInverts(b.average);
    assert Kinds(c) == [Bar, Line, Bar, Line];
  }
}
