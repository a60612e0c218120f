# Payments dashboard — a verified model of its data logic

This project models the data logic of a payments dashboard. The dashboard has five views.

- **Merchant table and payment-channel table.** Each table page has:
  - a search box;
  - sortable column headers with sort icons;
  - a ranking chart of the N rows with the largest total payments (N is 10 for merchants, 5 for channels);
  - growth-rate cells;
  - on the merchant page only, the fixed 60 % / 30 % split of each merchant's volume over its main and secondary channel.
- **Merchant detail and payment-channel detail.** Each detail view has:
  - a dual-axis chart of current and average transaction amounts for a selected granularity (hourly, daily, weekly, monthly, yearly);
  - a title word naming that granularity;
  - a breakdown table whose share column gives each row's amount as a percentage of the table's total.
- **Overview.** A platform-wide chart with one `switch` branch per granularity and an empty default.

The model is in Dafny:

- `Text`: ASCII lower-casing, substring search, string order, decimal rendering.
- `Records`: the table record and the column comparator.
- `Sorting`: the stable sort. It has a specification function (`SortBy`) and an in-place insertion sort on an array (`SortInPlace`) proved equal to it.
- `TableView`: the filter, the header-click state machine, the sort icon, the ranking, the ranking chart, and the class `RecordTable` that holds the page state (search term, sort column, sort direction).
- `Charts`: the chart description and its binding rule (bars on `y`, lines on `y1`).
- `Series`: granularities, labels, and random series.
- `Shares`: the share-of-total column.
- One module per view: `MerchantData`, `PaymentChannelData`, `MerchantDetail`, `PaymentChannelDetail`, `Overview`.

Sources of randomness and outside calls:

- `Math.random()` is the parameter `us: seq<real>`, a stream of values in [0, 1).
- Each detail view reads 104 values per call, because it builds every granularity's table on each call. The overview reads 208, in its weekly branch only.
- The selected time ranges are parameters.
- Numbers are exact reals, so there is no floating-point rounding in the model.
- A `timeRange` that names no table entry makes the detail views read a property of `undefined`. The model returns `None` in that case.

## Model

| member | source | states |
|---|---|---|
| Text.Lower | src/components/MerchantData.tsx:33 | lower-casing keeps the length, turns each ASCII letter A–Z into its a–z counterpart, and changes no other character |
| Text.LowerIdempotent | src/components/MerchantData.tsx:33 | lower-casing an already lower-cased string changes nothing |
| Text.IncludesIffOccurs | src/components/MerchantData.tsx:33 | `includes` holds exactly when the term occurs at some position of the name |
| Text.IncludesEmpty | src/components/MerchantData.tsx:33 | every name includes the empty term |
| Text.StrLessIrreflexive | src/components/MerchantData.tsx:36 | no name is less than itself under string `<` |
| Text.StrLessAsymmetric | src/components/MerchantData.tsx:36-37 | two names are never each less than the other |
| Text.StrLessTrichotomy | src/components/MerchantData.tsx:36-38 | two different names are always ordered one way or the other |
| Text.StrLessTransitive | src/components/MerchantData.tsx:36-37 | string `<` is transitive |
| Text.NatToString | src/components/MerchantDetail.tsx:56 | the rendering of a number is a non-empty run of decimal digits with no leading zero whose decimal value is the number |
| Text.NatToStringInjective | src/components/MerchantDetail.tsx:56 | different week numbers render differently |
| Records.KeyLessAsymmetric | src/components/MerchantData.tsx:36-37 | `<` between two values of one column never holds both ways |
| Records.KeyLessIrreflexive | src/components/MerchantData.tsx:36-37 | no column value is less than itself |
| Records.KeyLessTransitive | src/components/MerchantData.tsx:36-37 | `<` on one column's values is transitive |
| Records.KeyTrichotomy | src/components/MerchantData.tsx:36-38 | two values of one column are equal or ordered one way or the other |
| Records.CompareAntisymmetric | src/components/MerchantData.tsx:35-39 | swapping the comparator's operands negates its result |
| Records.CompareZeroIffSameKey | src/components/MerchantData.tsx:38 | the comparator returns 0 exactly when the two records have the same value in the sort column |
| Records.InOrderMeaning | src/components/MerchantData.tsx:36-37 | descending puts the larger value first and ascending the smaller, in both directions of the equivalence |
| Records.InOrderTransitive | src/components/MerchantData.tsx:35-39 | the order the comparator induces is transitive |
| Records.CompareFlipDirection | src/components/MerchantData.tsx:36-37 | ascending order compares like descending order with the operands swapped |
| Sorting.InsertLast | src/components/MerchantData.tsx:35-39 | inserting one record into a sorted prefix adds exactly one element |
| Sorting.SortBy | src/components/MerchantData.tsx:35-39 | the stable sort keeps the number of rows |
| Sorting.InsertLastPermutes | src/components/MerchantData.tsx:35-39 | one insertion step adds the record to the multiset and nothing else |
| Sorting.SortByPermutes | src/components/MerchantData.tsx:35-39 | the sorted rows are a permutation of the input rows |
| Sorting.InsertLastOrdered | src/components/MerchantData.tsx:35-39 | inserting into an ordered prefix keeps it ordered |
| Sorting.SortByOrdered | src/components/MerchantData.tsx:35-39 | every adjacent pair of the sorted rows is in the comparator's order |
| Sorting.KeyClassCount | src/components/MerchantData.tsx:35-39 | the group of rows with a given column value holds every row with that value, as often as the table has it, and no other row (the group keeps table order by its definition, which `SortByStable` compares before and after sorting) |
| Sorting.InsertLastStable | src/components/MerchantData.tsx:35-39 | an insertion step appends the new row to its group of equal values and leaves the other groups alone |
| Sorting.SortByStable | src/components/MerchantData.tsx:35-39 | for every column value, the rows with that value keep their input order after sorting |
| Sorting.OrderedPairwise | src/components/MerchantData.tsx:35-39 | in sorted rows, every earlier row may stand before every later one |
| Sorting.OrderedUnique | src/components/MerchantData.tsx:35-39 | with distinct column values, two ordered arrangements of the same rows are the same sequence |
| Sorting.Reverse | src/components/MerchantData.tsx:36-37 | reversal reads the rows from the other end and keeps the multiset |
| Sorting.AscIsReversedDesc | src/components/MerchantData.tsx:36-37 | with distinct column values, the ascending table is the descending table reversed |
| Sorting.InsertLastAt | src/components/MerchantData.tsx:35-39 | the insertion step places the record right after the last row that may precede it |
| Sorting.InsertAt | src/components/MerchantData.tsx:35-39 | one pass of the in-place insertion sort turns the array's prefix into the sorted insertion of the next element and leaves the rest of the array alone |
| Sorting.SortInPlace | src/components/MerchantData.tsx:35-39 | sorting the array in place leaves exactly the stable sorted sequence of its old contents |
| TableView.Filter | src/components/MerchantData.tsx:31-34 | the filter keeps no more rows than it is given, and only rows whose lower-cased name includes the lower-cased term |
| TableView.FilterConcat | src/components/MerchantData.tsx:31-34 | filtering keeps the data order: the filter of a concatenation is the concatenation of the filters |
| TableView.FilterCount | src/components/MerchantData.tsx:31-34 | every matching row is kept as often as it occurs in the data, and no other row is kept |
| TableView.FilterEmptyTerm | src/components/MerchantData.tsx:31-34 | an empty search term keeps the whole table in its order |
| TableView.FilterIdempotent | src/components/PaymentChannelData.tsx:26-29 | filtering the filtered rows again with the same term changes nothing |
| TableView.SearchIgnoresCase | src/components/MerchantData.tsx:31-34 | a term and its lower-cased form match the same rows, and names or terms that differ only in letter case match alike |
| TableView.FilterNone | src/components/MerchantData.tsx:31-34 | a term no row matches leaves the table empty |
| TableView.FilterOnly | src/components/MerchantData.tsx:31-34 | a term exactly one row matches leaves that row alone |
| TableView.OnHeaderClick | src/components/MerchantData.tsx:42-49 | a click always makes the clicked column active; on the active column it flips the direction; on another column it sets descending |
| TableView.ClickTwiceRestores | src/components/MerchantData.tsx:43-44 | two clicks on the active column restore the sort state |
| TableView.NewColumnThenToggle | src/components/MerchantData.tsx:45-48 | a click on a new column gives descending whatever came before, so a second click gives ascending |
| TableView.SortIcon | src/components/MerchantData.tsx:51-60 | an inactive column shows the neutral icon; the active column shows up when ascending and down when descending |
| TableView.IconsAfterClick | src/components/PaymentChannelData.tsx:46-55 | after a click only the clicked column shows an arrow: down for a new column, the other arrow for the active one |
| TableView.ViewCorrect | src/components/MerchantData.tsx:30-40 | the rendered rows are a permutation of the matching rows; they all match; every pair is in the comparator's order; rows with equal values keep their data order |
| TableView.RankCompareAgrees | src/components/MerchantData.tsx:63 | `b.totalPayments - a.totalPayments` has the sign of the table comparator on total payments, descending |
| TableView.Take | src/components/MerchantData.tsx:63 | `slice(0, n)` keeps min(n, length) rows: the first rows of the sequence, in order |
| TableView.RankedTotalsDescend | src/components/MerchantData.tsx:63 | the data sorted by the ranking has non-increasing totals for every pair of positions |
| TableView.TopNRows | src/components/MerchantData.tsx:63 | the top-N rows are rows of the data, and all of them when N covers the data |
| TableView.TopNRanking | src/components/MerchantData.tsx:62-64 | the top-N rows are min(N, length) rows of the data in descending total payments; no row left out has a larger total than a row kept; when N covers the data, every row is kept |
| TableView.SelectTop | src/components/PaymentChannelData.tsx:57-59 | sorting a fresh copy of the data in place and slicing gives exactly the specified top-N rows |
| TableView.RankingOfWholeTable | src/components/MerchantData.tsx:62-96 | when N is at least the number of rows, the ranking holds every row, largest total first, and the chart has one label and one value per series for each row |
| TableView.GrowthCell | src/components/PaymentChannelData.tsx:180-181 | the `+` prefix shows exactly when the rate is positive, which is exactly when the cell is green; red exactly when negative; grey exactly when zero |
| TableView.TopChartShape | src/components/MerchantData.tsx:66-96 | the ranking chart labels the rows by name; its four series line up with the labels; the baselines are 95 % of the totals and the counts; bars sit on `y` and lines on `y1` |
| TableView.RecordTable.constructor | src/components/MerchantData.tsx:26-28 | a new page has an empty search term and is sorted by total payments, descending |
| TableView.RecordTable.SetSearchTerm | src/components/MerchantData.tsx:143 | typing sets the search term and leaves the sort state alone |
| TableView.RecordTable.HandleSort | src/components/MerchantData.tsx:42-49 | a header click moves the sort state by the click rule and leaves the search term alone |
| TableView.RecordTable.FilteredAndSorted | src/components/PaymentChannelData.tsx:25-35 | filtering and then sorting a fresh array in place gives exactly the specified view of the current state |
| TableView.RecordTable.TopRows | src/components/PaymentChannelData.tsx:57-59 | the ranking rows depend only on the data and N, not on the search term or the sort state |
| MerchantData.NewTable | src/components/MerchantData.tsx:12-28 | the merchant page opens on its ten merchants, N = 10, no search term, sorted by total payments descending |
| MerchantData.LetterNameMatch | src/components/MerchantData.tsx:31-34 | a name 商户 plus one character matches a one-letter term exactly when the two letters agree up to case |
| MerchantData.SearchForA | src/components/MerchantData.tsx:13-34 | searching the merchant table for "a" or for "A" lists 商户A alone |
| MerchantData.RankingHoldsEveryMerchant | src/components/MerchantData.tsx:62-96 | with ten merchants and N = 10, the ranking chart shows every merchant, largest total first |
| MerchantData.RoundNearest | src/components/MerchantData.tsx:195 | `Math.round` lands within one half of the exact value, and a half rounds up |
| MerchantData.ChannelSplitShares | src/components/MerchantData.tsx:191-204 | the main channel shows twice the secondary amount; the two together show 90 % of the total; each count is within one half of its exact share |
| PaymentChannelData.NewTable | src/components/PaymentChannelData.tsx:12-23 | the channel page opens on its five channels, N = 5, no search term, sorted by total payments descending |
| PaymentChannelData.RankingHoldsEveryChannel | src/components/PaymentChannelData.tsx:57-91 | with five channels and N = 5, the ranking chart shows every channel, largest total first |
| Charts.VolumeInverts | src/components/MerchantDetail.tsx:87 | the volume series has one count per amount, and multiplying a count by 200 gives its amount back |
| Series.Parse | src/components/MerchantDetail.tsx:44-72 | a key that is found names the granularity whose key it is |
| Series.ParseKey | src/components/MerchantDetail.tsx:44-70 | every granularity's key finds that granularity |
| Series.TitleWordMapping | src/components/MerchantDetail.tsx:121-126 | the title word names the selected granularity, any other key reads as yearly, and different granularities read differently |
| Series.HourLabelsEveryTwoHours | src/components/MerchantDetail.tsx:46 | the hour labels are the twelve even hours 00:00 to 22:00, in order |
| Series.MonthLabelsInOrder | src/components/MerchantDetail.tsx:61 | the month labels are 1月 to 12月, in order |
| Series.WeekLabelNumbered | src/components/MerchantDetail.tsx:56 | label i of the week axis is 第, the decimal rendering of i + 1 (digits only, no leading zero, denoting i + 1), and 周 |
| Series.WeekLabelsDistinct | src/components/PaymentChannelDetail.tsx:49 | no two weeks share a label |
| Series.DrawBounds | src/components/MerchantDetail.tsx:57 | a draw `Math.floor(u * k) + base` with u in [0, 1) lies in [base, base + k) |
| Series.RandomSeries | src/components/MerchantDetail.tsx:57-58 | a random series has 52 values |
| Series.RandomSeriesBounds | src/components/PaymentChannelDetail.tsx:50-51 | every value of a random series is a whole number in [base, base + k) |
| Series.DualAxisShape | src/components/MerchantDetail.tsx:74-106 | the detail chart has exactly four datasets (current bar, current line, average bar, average line), each as long as the labels; bars sit on `y` and lines on `y1`; each line is its bar divided by 200 |
| Shares.SumOfThree | src/components/MerchantDetail.tsx:281 | the `reduce` over three amounts is their sum |
| Shares.ShareOfTotal | src/components/MerchantDetail.tsx:281 | a share is a number exactly when the total is not zero |
| Shares.SumScaled | src/components/MerchantDetail.tsx:281 | the sum is linear: scaling every amount by c scales the sum by c |
| Shares.SumBoundsParts | src/components/PaymentChannelDetail.tsx:233 | the sum of non-negative amounts is non-negative and at least each amount |
| Shares.SumPositive | src/components/PaymentChannelDetail.tsx:233 | non-negative amounts, one of them positive, have a positive sum |
| Shares.PercentIsScaling | src/components/MerchantDetail.tsx:281 | `a / t * 100` is `a` times the one factor `100 / t` |
| Shares.ColumnScales | src/components/MerchantDetail.tsx:281 | against a non-zero total, every cell is a number, and the column is the amounts times `100 / total` |
| Shares.ScaledSumIs100 | src/components/MerchantDetail.tsx:281 | amounts scaled by 100 over their own non-zero sum add up to 100 |
| Shares.ColumnSumsTo100 | src/components/MerchantDetail.tsx:281 | a column taken against the sum of its own amounts adds up to 100 |
| Shares.SharesSumTo100 | src/components/MerchantDetail.tsx:281 | with a non-zero sum, every share is a number, the shares are proportional to the amounts, and they add up to 100 |
| Shares.ZeroTotalUndefined | src/components/PaymentChannelDetail.tsx:233 | with no guard on a zero sum, every cell of a zero-sum table is not a number |
| Shares.ShareBounded | src/components/PaymentChannelDetail.tsx:233 | a share of a positive total that the amount does not exceed lies in [0, 100] |
| Shares.SharesBounded | src/components/PaymentChannelDetail.tsx:233 | with non-negative amounts and a positive sum, every share lies in [0, 100] |
| MerchantDetail.GetChartData | src/components/MerchantDetail.tsx:41-107 | the chart exists exactly for the five granularity keys |
| MerchantDetail.TableShapes | src/components/MerchantDetail.tsx:44-70 | each entry has as many current and average values as labels: 12, 7, 52, 12, 5 |
| MerchantDetail.TablesFixed | src/components/MerchantDetail.tsx:44-69 | every entry but the weekly one is a fixed table that does not depend on the random stream |
| MerchantDetail.WeeklyBounds | src/components/MerchantDetail.tsx:57-58 | weekly current values are whole numbers in [300000, 800000); averages in [280000, 730000) |
| MerchantDetail.ChartShape | src/components/MerchantDetail.tsx:72-106 | an unknown key gives no chart; otherwise, four datasets as long as the granularity's labels, in the order current bar, current line, average bar, average line, with bars on `y`, lines on `y1`, and lines equal to volumes of the bars |
| MerchantDetail.ChannelRows | src/components/MerchantDetail.tsx:154-181 | the breakdown exists exactly for the four ranges its buttons offer |
| MerchantDetail.ChannelShares | src/components/MerchantDetail.tsx:281 | the share column exists exactly for the four ranges its buttons offer |
| MerchantDetail.ChannelBreakdown | src/components/MerchantDetail.tsx:157-181 | every offered range lists 支付宝, 微信支付, 银联 in that order at 200 per transaction, with shares exactly 50, 30 and 20; hourly has no breakdown |
| PaymentChannelDetail.GetChartData | src/components/PaymentChannelDetail.tsx:34-100 | the chart exists exactly for the five granularity keys |
| PaymentChannelDetail.TableShapes | src/components/PaymentChannelDetail.tsx:38-62 | each entry has as many current and average values as labels: 12, 7, 52, 12, 5 |
| PaymentChannelDetail.TablesFixed | src/components/PaymentChannelDetail.tsx:38-62 | every entry but the weekly one is a fixed table that does not depend on the random stream |
| PaymentChannelDetail.WeeklyBounds | src/components/PaymentChannelDetail.tsx:49-51 | weekly current values are whole numbers in [1500000, 4000000); averages in [1350000, 3600000) |
| PaymentChannelDetail.ChartShape | src/components/PaymentChannelDetail.tsx:65-99 | an unknown key gives no chart; otherwise, four aligned datasets in the order current bar, current line, average bar, average line, with bars on `y`, lines on `y1`, and lines equal to volumes of the bars |
| PaymentChannelDetail.MerchantShares | src/components/PaymentChannelDetail.tsx:147-157 | the merchant list has a positive total; every share is a number in [0, 100]; shares are proportional to amounts and add up to 100 |
| Overview.ChartShape | src/components/Overview.tsx:21-176 | each branch's series have one value per label (12, 7, 52, 12, 7); bars sit on `y` and lines on `y1`; yearly has only the current bar and line, every other branch four datasets |
| Overview.UnknownRangeEmpty | src/components/Overview.tsx:177-178 | an unknown key gives empty labels and no datasets; a known one gives at least two datasets |
| Overview.WeeklyBounds | src/components/Overview.tsx:89-122 | weekly amounts are whole numbers in [5000000, 15000000); volumes in [20000, 70000); last year's amounts in [4500000, 13500000); its volumes in [18000, 63000) |
| Overview.ChartsFixed | src/components/Overview.tsx:21-86 | every branch but the weekly one is a fixed chart that does not depend on the random stream |

## Left out

- Rendering is not modelled: JSX layout, CSS classes, colours, icons, Chart.js registration and options, and the `<Bar>` and `<Doughnut>` components. The model stops at the chart description (`ChartData`).
- `src/App.tsx` is not part of this model. It holds tab navigation and the selected merchant or channel id.
- `Math.random` is not modelled. Its values are the parameter `us`, assumed to lie in [0, 1) (`UnitInterval`).
- IEEE-754 arithmetic is not modelled. `/ 200`, `* 0.95`, `* 0.6`, `* 0.3` and the percentage division are exact reals. A zero sum, which gives NaN or Infinity in JavaScript, is `Percent.Undefined`.
- Number formatting is not modelled: `toLocaleString`, `toFixed(1)` and `toFixed(2)`, and the `¥` and `%` decorations.
- Text.Lower: lower-cases ASCII letters only. Full Unicode `toLowerCase` is not modelled. The names are CJK characters plus ASCII letters.
- String `<` is modelled as lexicographic order on Dafny characters. Ordering by UTF-16 code units is not modelled; it differs only for characters outside the Basic Multilingual Plane.
- `useMemo` and React re-rendering are not modelled. The view and the ranking are computed from the current state on demand, and state updates take effect at once.
- `Array.prototype.sort` is modelled as a stable insertion sort. The engine's actual algorithm is not modelled. The model proves that the sorted order is unique only for rows with distinct values in the sort column (`Sorting.OrderedUnique`). That every stable sort with this comparator gives the same result when values repeat is not proved.
- Row clicks (`onMerchantSelect` and `onChannelSelect`) are not modelled. They only report an id to the enclosing app.
- Per-row display columns that feed no computation are not modelled: the merchant's main and secondary channel names and the channel icons. The success rate is modelled as a sortable column; only its `%` cell rendering is not modelled.
- The summary cards of the two detail views (the fixed `merchantData` and `channelData` objects) are not modelled. They are displayed as written.
- The button captions of the range selectors (今日, 本周, 本月, 今年 and the like) are not modelled. Only the keys the buttons store are modelled.
- The text around the title word (`商户 … 的…交易数据`) is not modelled. Only the granularity word is modelled; the Overview title at `src/components/Overview.tsx:194` uses the same mapping (`Series.TitleWord`).
- The share column takes the sum once per table. The source recomputes `getChannelData().reduce(...)` for every row; this gives the same value each time, because the data is fixed.
- The year labels (2019–2023 and 2017–2023) are stated as the literal lists, with no lemma that they are consecutive years.
