/**
 * The table view shared by the merchant and payment-channel pages: the
 * search filter, the sort state that header clicks drive, the sort icons,
 * the top-N ranking that feeds the bar chart, and the growth cell.
 */
module TableView {
  import opened Text
  import opened Records
  import opened Sorting
  import opened Charts

  /** A row is kept when its lower-cased name contains the lower-cased search term. */
  predicate Matches(r: Record, term: string)
  {
    Includes(Lower(r.name), Lower(term))
  }

  /** `data.filter(row => row.name.toLowerCase().includes(term.toLowerCase()))`. */
  function Filter(s: seq<Record>, term: string): (r: seq<Record>)
    ensures |r| <= |s|
    ensures forall i :: 0 <= i < |r| ==> Matches(r[i], term)
    decreases |s|
  {
    if |s| == 0 then []
    else Filter(s[..|s| - 1], term) + (if Matches(s[|s| - 1], term) then [s[|s| - 1]] else [])
  }

  /**
   * The search ignores case: a term and its lower-cased form match the same
   * rows, and names or terms that differ only in the case of their letters
   * match alike.
   */
  lemma SearchIgnoresCase(r: Record, r': Record, term: string, term': string)
    requires Lower(r.name) == Lower(r'.name) && Lower(term) == Lower(term')
    ensures Matches(r, term) <==> Matches(r, Lower(term))
    ensures Matches(r, term) <==> Matches(r', term')
  {
    LowerIdempotent(term);
  }

  /** Filtering a concatenation filters each part and keeps them in order. */
  lemma {:induction false} FilterConcat(s: seq<Record>, t: seq<Record>, term: string)
    ensures Filter(s + t, term) == Filter(s, term) + Filter(t, term)
    decreases |t|
  {
    if |t| == 0 {
      assert s + t == s;
    } else {
      var t' := t[..|t| - 1];
      assert (s + t)[..|s + t| - 1] == s + t';
      FilterConcat(s, t', term);
    }
  }

  /** The filter keeps every matching row, as often as it occurs, and no other. */
  lemma {:induction false} FilterCount(s: seq<Record>, term: string, x: Record)
    ensures multiset(Filter(s, term))[x] == if Matches(x, term) then multiset(s)[x] else 0
    decreases |s|
  {
    if |s| > 0 {
      FilterCount(s[..|s| - 1], term, x);
      assert s == s[..|s| - 1] + [s[|s| - 1]];
    }
  }

  /** An empty search term keeps the whole table in its order. */
  lemma {:induction false} FilterEmptyTerm(s: seq<Record>)
    ensures Filter(s, "") == s
    decreases |s|
  {
    if |s| > 0 {
      FilterEmptyTerm(s[..|s| - 1]);
      IncludesEmpty(Lower(s[|s| - 1].name));
      assert Lower("") == "";
    }
  }

  /** A term that no row matches leaves the table empty. */
  lemma {:induction false} FilterNone(s: seq<Record>, term: string)
    requires forall i :: 0 <= i < |s| ==> !Matches(s[i], term)
    ensures Filter(s, term) == []
    decreases |s|
  {
    if |s| > 0 {
      FilterNone(s[..|s| - 1], term);
    }
  }

  /** A term that exactly one row matches leaves that row alone. */
  lemma FilterOnly(s: seq<Record>, term: string, j: int)
    requires 0 <= j < |s| && Matches(s[j], term)
    requires forall i :: 0 <= i < |s| && i != j ==> !Matches(s[i], term)
    ensures Filter(s, term) == [s[j]]
  {
    var before, after := s[..j], s[j + 1..];
    assert s == before + ([s[j]] + after);
    FilterNone(before, term);
    FilterNone(after, term);
    FilterConcat(before, [s[j]] + after, term);
    FilterConcat([s[j]], after, term);
    assert [s[j]][..0] == [];
  }

  /** Searching again for the same term changes nothing. */
  lemma {:induction false} FilterIdempotent(s: seq<Record>, term: string)
    ensures Filter(Filter(s, term), term) == Filter(s, term)
    decreases |s|
  {
    if |s| > 0 {
      var s', x := s[..|s| - 1], s[|s| - 1];
      FilterIdempotent(s', term);
      var keep := if Matches(x, term) then [x] else [];
      FilterConcat(Filter(s', term), keep, term);
      if Matches(x, term) {
        assert Filter(keep, term) == Filter([], term) + [x];
      } else {
        assert Filter(keep, term) == [];
      }
    }
  }

  datatype SortState = SortState(column: Column, direction: Direction)

  /** The state a table starts in: largest total payments first. */
  const InitialSort := SortState(TotalPayments, Desc)

  /** handleSort: the active column flips its direction, another column becomes active descending. */
  function OnHeaderClick(s: SortState, column: Column): (r: SortState)
    ensures r.column == column
    ensures column == s.column ==> r.direction != s.direction
    ensures column != s.column ==> r.direction == Desc
  {
    if column == s.column then SortState(column, if s.direction == Asc then Desc else Asc)
    else SortState(column, Desc)
  }

  /** Clicking the active column twice restores the sort state. */
  lemma ClickTwiceRestores(s: SortState)
    ensures OnHeaderClick(OnHeaderClick(s, s.column), s.column) == s
  {
  }

  /** After clicking a column, whatever state came before, a second click on it sorts ascending. */
  lemma NewColumnThenToggle(s: SortState, column: Column)
    requires column != s.column
    ensures OnHeaderClick(OnHeaderClick(s, column), column) == SortState(column, Asc)
  {
  }

  datatype Icon = Neutral | Up | Down

  /** renderSortIcon: neutral for an inactive column, the direction arrow for the active one. */
  function SortIcon(s: SortState, column: Column): (i: Icon)
    ensures column != s.column ==> i == Neutral
    ensures column == s.column && s.direction == Asc ==> i == Up
    ensures column == s.column && s.direction == Desc ==> i == Down
  {
    if column != s.column then Neutral
    else if s.direction == Asc then Up
    else Down
  }

  /** After a click exactly the clicked column shows an arrow, and the arrow points the new way. */
  lemma IconsAfterClick(s: SortState, clicked: Column, other: Column)
    requires other != clicked
    ensures SortIcon(OnHeaderClick(s, clicked), other) == Neutral
    ensures clicked != s.column ==> SortIcon(OnHeaderClick(s, clicked), clicked) == Down
    ensures clicked == s.column ==> SortIcon(OnHeaderClick(s, clicked), clicked) != SortIcon(s, clicked)
  {
  }

  /** The rows the table renders: the filtered rows in the stable order the sort state asks for. */
  function View(data: seq<Record>, term: string, s: SortState): seq<Record>
  {
    SortBy(s.column, s.direction, Filter(data, term))
  }

  /**
   * The rendered rows are the matching rows, rearranged: ordered by the
   * active column, with rows of equal value left in their data order.
   */
  lemma ViewCorrect(data: seq<Record>, term: string, s: SortState)
    ensures multiset(View(data, term, s)) == multiset(Filter(data, term))
    ensures forall i :: 0 <= i < |View(data, term, s)| ==> Matches(View(data, term, s)[i], term)
    ensures forall i, j :: 0 <= i < j < |View(data, term, s)| ==>
      InOrder(s.column, s.direction, View(data, term, s)[i], View(data, term, s)[j])
    ensures forall k :: KeyClass(s.column, View(data, term, s), k) == KeyClass(s.column, Filter(data, term), k)
  {
    var f := Filter(data, term);
    SortByPermutes(s.column, s.direction, f);
    SortByOrdered(s.column, s.direction, f);
    OrderedPairwise(s.column, s.direction, SortBy(s.column, s.direction, f));
    forall i | 0 <= i < |View(data, term, s)| ensures Matches(View(data, term, s)[i], term) {
      var v := View(data, term, s);
      assert v[i] in multiset(f);
    }
    forall k ensures KeyClass(s.column, View(data, term, s), k) == KeyClass(s.column, f, k) {
      SortByStable(s.column, s.direction, f, k);
    }
  }

  /** `b.totalPayments - a.totalPayments`: the comparator of the top-N ranking. */
  function RankCompare(a: Record, b: Record): int
  {
    b.totalPayments - a.totalPayments
  }

  /** The ranking comparator orders every pair as the table does when sorted by total payments descending. */
  lemma RankCompareAgrees(a: Record, b: Record)
    ensures RankCompare(a, b) < 0 <==> Compare(TotalPayments, Desc, a, b) < 0
    ensures RankCompare(a, b) > 0 <==> Compare(TotalPayments, Desc, a, b) > 0
    ensures RankCompare(a, b) == 0 <==> Compare(TotalPayments, Desc, a, b) == 0
  {
  }

  /** `slice(0, n)`: the first min(n, |s|) rows of `s`, in order. */
  function Take(s: seq<Record>, n: nat): (r: seq<Record>)
    ensures |r| == if n < |s| then n else |s|
    ensures forall i :: 0 <= i < |r| ==> r[i] == s[i]
  {
    s[..if n < |s| then n else |s|]
  }

  /** `[...data].sort(rank).slice(0, n)`: the n largest totals, ties in data order. */
  function TopN(data: seq<Record>, n: nat): seq<Record>
  {
    Take(SortBy(TotalPayments, Desc, data), n)
  }

  /** The data sorted by the ranking has non-increasing totals, every pair apart. */
  lemma RankedTotalsDescend(data: seq<Record>)
    ensures forall i, j :: 0 <= i < j < |SortBy(TotalPayments, Desc, data)| ==>
      SortBy(TotalPayments, Desc, data)[i].totalPayments >= SortBy(TotalPayments, Desc, data)[j].totalPayments
  {
    var sorted := SortBy(TotalPayments, Desc, data);
    SortByOrdered(TotalPayments, Desc, data);
    OrderedPairwise(TotalPayments, Desc, sorted);
    forall i, j | 0 <= i < j < |sorted| ensures sorted[i].totalPayments >= sorted[j].totalPayments {
      InOrderMeaning(TotalPayments, Desc, sorted[i], sorted[j]);
    }
  }

  /** The top-N rows are a prefix of the ranked data, so they are rows of the data, every row when N covers it. */
  lemma TopNRows(data: seq<Record>, n: nat)
    ensures multiset(TopN(data, n)) <= multiset(data)
    ensures n >= |data| ==> multiset(TopN(data, n)) == multiset(data)
  {
    var sorted := SortBy(TotalPayments, Desc, data);
    var m := if n < |data| then n else |data|;
    SortByPermutes(TotalPayments, Desc, data);
    assert TopN(data, n) == sorted[..m];
    assert sorted == sorted[..m] + sorted[m..];
    assert multiset(sorted) == multiset(sorted[..m]) + multiset(sorted[m..]);
  }

  /**
   * The top-N rows are rows of the data, at most n of them, ranked by total
   * payments; no row left out has a larger total than a row kept; and when n
   * covers the data every row is kept.
   */
  lemma TopNRanking(data: seq<Record>, n: nat)
    ensures |TopN(data, n)| == if n < |data| then n else |data|
    ensures multiset(TopN(data, n)) <= multiset(data)
    ensures forall i, j :: 0 <= i < j < |TopN(data, n)| ==>
      TopN(data, n)[i].totalPayments >= TopN(data, n)[j].totalPayments
    ensures forall i, j :: 0 <= i < |TopN(data, n)| <= j < |data| ==>
      TopN(data, n)[i].totalPayments >= SortBy(TotalPayments, Desc, data)[j].totalPayments
    ensures n >= |data| ==> multiset(TopN(data, n)) == multiset(data)
  {
    TopNRows(data, n);
    RankedTotalsDescend(data);
    var sorted, top := SortBy(TotalPayments, Desc, data), TopN(data, n);
    forall i, j | 0 <= i < j < |top| ensures top[i].totalPayments >= top[j].totalPayments {
      assert top[i] == sorted[i] && top[j] == sorted[j];
    }
    forall i, j | 0 <= i < |top| <= j < |data| ensures top[i].totalPayments >= sorted[j].totalPayments {
      assert top[i] == sorted[i];
    }
  }

  /** Copies the data into a fresh array, sorts it in place by the ranking, and keeps the first n. */
  method SelectTop(data: seq<Record>, n: nat) returns (top: seq<Record>)
    ensures top == TopN(data, n)
  {
    var a := new Record[|data|](i requires 0 <= i < |data| => data[i]);
    assert a[..] == data;
    SortInPlace(a, TotalPayments, Desc);
    top := a[..if n < a.Length then n else a.Length];
  }

  /**
   * When N covers the whole table the ranking chart shows every row, largest
   * total first, with one label and one value of each series per row.
   */
  lemma RankingOfWholeTable(data: seq<Record>, n: nat)
    requires |data| <= n
    ensures multiset(TopN(data, n)) == multiset(data)
    ensures forall i, j :: 0 <= i < j < |TopN(data, n)| ==> TopN(data, n)[i].totalPayments >= TopN(data, n)[j].totalPayments
    ensures |TopChart(TopN(data, n)).labels| == |data|
    ensures Aligned(TopChart(TopN(data, n))) && BindingHolds(TopChart(TopN(data, n)))
  {
    TopNRanking(data, n);
    TopChartShape(TopN(data, n));
  }

  /** The one growth-rate cell: its sign prefix and its colour. */
  datatype Tone = Green | Red | Grey

  function GrowthTone(rate: real): Tone
  {
    if rate > 0.0 then Green else if rate < 0.0 then Red else Grey
  }

  function GrowthPrefix(rate: real): string
  {
    if rate > 0.0 then "+" else ""
  }

  /** Green with a '+' for growth, red for decline, grey for zero; the '+' shows exactly with the green. */
  lemma GrowthCell(rate: real)
    ensures GrowthPrefix(rate) == "+" <==> rate > 0.0
    ensures GrowthPrefix(rate) == "+" <==> GrowthTone(rate) == Green
    ensures GrowthTone(rate) == Red <==> rate < 0.0
    ensures GrowthTone(rate) == Grey <==> rate == 0.0
  {
  }

  /**
   * The ranking chart: names as labels; bars of totals and of 95 % of them
   * on `y`; lines of counts and of 95 % of them on `y1`.
   */
  function TopChart(top: seq<Record>): (c: ChartData)
  {
    var amounts := seq(|top|, i requires 0 <= i < |top| => top[i].totalPayments as real);
    var counts := seq(|top|, i requires 0 <= i < |top| => top[i].transactionCount as real);
    ChartData(
      seq(|top|, i requires 0 <= i < |top| => top[i].name),
      [ Dataset(Bar, "交易金额", amounts, Y),
        Dataset(Line, "交易数量", counts, Y1),
        Dataset(Bar, "7天平均交易金额", Scale(amounts, 0.95), Y),
        Dataset(Line, "7天平均交易数量", Scale(counts, 0.95), Y1) ])
  }

  /** The four series line up with the labels, the baselines are 95 % of the current values, and bars and lines sit on their axes. */
  lemma TopChartShape(top: seq<Record>)
    ensures var c := TopChart(top);
      && Aligned(c) && BindingHolds(c) && |c.labels| == |top|
      && Kinds(c) == [Bar, Line, Bar, Line]
      && (forall i :: 0 <= i < |top| ==>
            c.labels[i] == top[i].name
            && c.datasets[0].data[i] == top[i].totalPayments as real
            && c.datasets[1].data[i] == top[i].transactionCount as real
            && c.datasets[2].data[i] == 0.95 * c.datasets[0].data[i]
            && c.datasets[3].data[i] == 0.95 * c.datasets[1].data[i])
  {
    var c := TopChart(top);
    assert Kinds(c) == [Bar, Line, Bar, Line];
  }

  /**
   * The state of one table page: the search box and the sort header. The
   * data and the chart's N are fixed for the page.
   */
  class RecordTable {
    const data: seq<Record>
    const topCount: nat
    var searchTerm: string
    var sortColumn: Column
    var sortDirection: Direction

    constructor (data: seq<Record>, topCount: nat)
      ensures this.data == data && this.topCount == topCount
      ensures searchTerm == "" && State() == InitialSort
    {
      this.data := data;
      this.topCount := topCount;
      searchTerm := "";
      sortColumn := TotalPayments;
      sortDirection := Desc;
    }

    function State(): SortState
      reads this
    {
      SortState(sortColumn, sortDirection)
    }

    /** The search box's change handler. */
    method SetSearchTerm(term: string)
      modifies this
      ensures searchTerm == term && State() == old(State())
    {
      searchTerm := term;
    }

    /** A click on the header of `column`. */
    method HandleSort(column: Column)
      modifies this
      ensures State() == OnHeaderClick(old(State()), column)
      ensures searchTerm == old(searchTerm)
    {
      if column == sortColumn {
        sortDirection := if sortDirection == Asc then Desc else Asc;
      } else {
        sortColumn := column;
        sortDirection := Desc;
      }
    }

    /** The rows to render: filter, then sort a fresh copy in place. */
    method FilteredAndSorted() returns (rows: seq<Record>)
      ensures rows == View(data, searchTerm, State())
    {
      var kept := Filter(data, searchTerm);
      var a := new Record[|kept|](i requires 0 <= i < |kept| => kept[i]);
      assert a[..] == kept;
      SortInPlace(a, sortColumn, sortDirection);
      rows := a[..];
    }

    /** The rows of the ranking chart; they read neither the search term nor the sort state. */
    method TopRows() returns (top: seq<Record>)
      ensures top == TopN(data, topCount)
    {
      top := SelectTop(data, topCount);
    }
  }
}
