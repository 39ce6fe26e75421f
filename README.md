# YouTube trending dashboard: the data layer

The dashboard in `app/app.py` loads a table of trending records. The table has
one row per video per trending day. It draws two tabs of charts from that table:

- a daily tab, driven by a date selector;
- a weekly tab, driven by a range slider over the table's distinct trending dates.

This project models the table-shaping code inside the chart callbacks. The
plotting around it is not modelled. Each step becomes a Dafny function over
`seq<Row>` with a contract:

- choosing a period, and de-duplicating to each video's first or last row;
- top-10 selections and value counts;
- the "top 5 or Others" relabelling;
- the half-hour bins and the pivots built on them;
- the publish-day resample, the channel leaderboard, the country map and the
  rank-tier matrix;
- the word-cloud texts and the channel view-gain lines.

The three loops of the modelled code are `while`/`for` methods proved against
specification functions:

- the slider marks;
- `create_bins`;
- the dropdown buttons.

The other loops of `app/app.py` build plot traces or download images, which are
left out.

Modules, one per file:

- `Records` (`records.dfy`): the row, the metrics, the channel key and the error kinds.
- `Sequences` and `Sorting`: the generic table operations.
  - Filter, map, key sets and de-duplication.
  - A stable insertion sort under a total preorder. It stands for `sort_values`.
- `Windows`: the date domain, the daily and weekly filters, and the slider marks.
- `Dedup`: the first-seen and last-seen projections.
- `Counting`: value counts, top-n, and `map_others`.
- `Labels`: `create_bins`, `shorten_title` and `replace_empty`.
- `Text`: split, join, `tags_split`, and the order on channel titles.
- `Pivot`: the zero-filled two-key count matrix and its row, column and grand totals.
- `Charts`: the top-10 tables, the top-ranked table, category counts, the
  leaderboard and the country map.
- `Histograms`: the publish-hour and publish-day charts.
- `RankTiers`: the Social Blade rank chart.
- `ViewGains`: the channel view-gain lines and their dropdown.
- `Callbacks`: the weekly callbacks, composed from the modules above.

Edge cases of the code, as the model treats them:

- An inverted slider range selects no rows in the code, and so it does in the
  model (`Windows.WeeklyInverted`).
- A slider position past the end of the domain raises an index error in the
  code, so the model returns `Err(IndexOutOfRange)`.
- A country code outside the 16-entry table makes the code's dictionary lookup
  raise, so the model returns `Err(UnknownCountryCode)`.
- A weekly range with no video first trending in it makes the publish-day chart
  raise, and a rank tier missing from the range makes the rank chart raise. The
  model keeps both as-written versions beside corrected ones (see Findings).

## Model

| member | source | states |
|---|---|---|
| Windows.DateDomain | app/app.py:133-134 | the domain is strictly ascending, so it has no repeats, and it holds exactly the trending dates of the table |
| Windows.DateDomainCovers | app/app.py:133-134 | every row's trending date is a point of the domain |
| Windows.SliderMarks | app/app.py:136-143 | the marks have exactly the keys 0 .. len(domain) - 1; mark i is the formatted date i in white |
| Windows.Daily | app/app.py:901 | a row occurs in the daily table as often as in the input when it trends on that day, and otherwise not at all |
| Windows.DailyPartition | app/app.py:901 | the daily tables of all dates of the domain add up to the whole table |
| Windows.Weekly | app/app.py:420 | it raises for a position past the domain; otherwise a row occurs as often as in the input when its date lies between domain[i] and domain[j], and otherwise not at all |
| Windows.WeeklySingleDay | app/app.py:420 | the range [i, i] is the daily table of domain[i] |
| Windows.WeeklyInverted | app/app.py:420 | a range whose right handle is before its left one selects nothing |
| Windows.WeeklyFullRange | app/app.py:418-420 | the slider's default range [0, len - 1] keeps the whole table |
| Sorting.SortBySorted | app/app.py:146 | under a total preorder the sort's output is ordered |
| Sorting.SortByOrdered | app/app.py:146 | sorting an already ordered table changes nothing |
| Sorting.SortByStable | app/app.py:146 | among rows that compare equal, the sort keeps the input order (the model's tie rule) |
| Dedup.FirstSeen | app/app.py:146-147 | one row per distinct video id, with the same ids as the input; the rows come from the input, in date order |
| Dedup.FirstSeenEarliest | app/app.py:146-147 | the kept row of a video has that video's minimum trending date |
| Dedup.FirstSeenIdempotent | app/app.py:146-147 | applying first-seen twice changes nothing |
| Dedup.LastSeen | app/app.py:150-151 | one row per distinct video id, with the same ids as the input; the rows come from the input, in date order |
| Dedup.LastSeenLatest | app/app.py:150-151 | the kept row of a video has that video's maximum trending date |
| Dedup.LastSeenIdempotent | app/app.py:150-151 | applying last-seen twice changes nothing |
| Counting.Tally | app/app.py:422 | one entry per distinct label; each carries that label's number of occurrences, which is positive |
| Counting.TallyTotal | app/app.py:422 | the counts add up to the number of labels counted |
| Counting.ValueCounts | app/app.py:422 | value_counts: non-increasing counts, distinct labels, exactly the labels of the input, each with its occurrence count |
| Counting.ValueCountsTotal | app/app.py:422 | the counts of value_counts add up to the number of rows |
| Counting.TopCounts | app/app.py:713-715 | at most n entries, or all labels when fewer; ordered by count; distinct labels from the input with their counts; no label left out occurs more often than one kept |
| Counting.TopLabels | app/app.py:664-666 | at most n distinct labels from the input, or all labels when fewer; no dropped label is more frequent than a kept one |
| Counting.MapOthers | app/app.py:668-672 | a kept label is unchanged; any other label becomes "Others" |
| Counting.RelabelCounts | app/app.py:668-674 | relabelling keeps each kept label's count (other than "Others"), and no other label survives it |
| Labels.HalfHourBins | app/app.py:651-656 | exactly 48 bins, bin k is the label of hour k / 2 and minute 00 or 30, and no bin repeats |
| Labels.CreateBins | app/app.py:651-656 | the loop's output is the 48 half-hour bins, bin k labelled for position k |
| Labels.HalfHourRoundTrip | app/app.py:653-655 | a bin label reads back to its position |
| Labels.HalfHourInjective | app/app.py:653-655 | different positions have different labels |
| Labels.HalfHourBinsEnds | app/app.py:653-655 | the bins start "0:00", "0:30", have "10:00" at position 20 and end "23:30" |
| Labels.DecimalRoundTrip | app/app.py:654-655 | str(i) of a natural number reads back to it |
| Labels.PyPrefix | app/app.py:476 | Python's x[:k] for both signs of k: its length; x[..k] for 0 <= k <= len(x), the whole of x past the end, and x without its last -k characters for negative k |
| Labels.ShortenTitle | app/app.py:471-478 | a title shorter than n is kept; otherwise an override title becomes x[:n-1] + "...1" and any other x[:n] + "...", both of length n + 3 |
| Labels.ShortenTitleBound | app/app.py:471-478 | no label is longer than n + 3 |
| Labels.OverrideDistinct | app/app.py:543-556 | the label of an override title, short or long, never equals the label of a title outside the override set |
| Labels.GenericLabels | app/app.py:471-478 | two long non-override titles get the same label exactly when their first n characters agree |
| Labels.BlackpinkLabel | app/app.py:471-478 | the overridden title gets "BLACKPINK - 'How Yo...1" where the generic rule would give "BLACKPINK - 'How You..." |
| Labels.ReplaceEmpty | app/app.py:782-786 | an empty rank becomes "N/A", any other rank is kept, and the result is never empty |
| Text.Split | app/app.py:607 | x.split(c) has at least one piece, and no piece contains c |
| Text.Replace | app/app.py:609-610 | the result has the same length, with c replaced by d at every position |
| Text.JoinSplit | app/app.py:609-610 | joining the '\|'-pieces with spaces replaces every '\|' by a space |
| Text.SplitJoin | app/app.py:589-590 | pieces without commas, joined by commas, split back into the same pieces |
| Text.TagsSplit | app/app.py:603-607 | "[none]" gives no tags; otherwise at least one tag, and none contains '\|' |
| Text.TagText | app/app.py:609-610 | "[none]" gives the empty text; otherwise the tags string with each '\|' turned into a space |
| Text.CloudText | app/app.py:589-590 | splitting the comma-joined cloud text on commas gives back the rows' texts, when none holds a comma |
| Text.StrLeTotalPreorder | app/app.py:837 | the order on channel titles is a total preorder |
| Text.StrLeAntisymmetric | app/app.py:837 | two titles each at or below the other are equal |
| Pivot.Grid | app/app.py:683-687 | a row per row label and a column per column label, zero-filled; cell (i, j) is the number of records carrying that pair |
| Pivot.GridTotal | app/app.py:683-687 | over distinct labels the matrix sums to the records whose pair lies in the grid |
| Pivot.GridRowTotal | app/app.py:683-687 | over distinct columns row i sums to the records with that row label |
| Pivot.GridColumnTotal | app/app.py:805-806 | over distinct rows column j sums to the records with that column label |
| Charts.TopByMetric | app/app.py:468-469 | min(10, n) rows, ascending by the metric, a sub-multiset of the input; no row left out has a larger metric than a kept row |
| Charts.KeySuffix | app/app.py:468-469 | a suffix of a table sorted by an integer key is sorted, is a sub-multiset, and leaves out only smaller keys |
| Charts.BarLabels | app/app.py:478-481 | one label per row, the row's title shortened to 20 characters under the chart's override set |
| Charts.TopRanked | app/app.py:919-920 | ascending by rank; a row occurs as often as in the input when its rank is at most 10, and otherwise not at all |
| Charts.CategoryCounts | app/app.py:422 | non-increasing counts over distinct categories, exactly those of the table; each count is the number of rows of that category, and the counts add up to the table's size |
| Charts.Leaderboard | app/app.py:713-715 | at most 10 distinct channel keys of the table by non-increasing count, and every channel when fewer than 10 are listed; each count is the number of rows with that key; a channel left out has no more rows than any listed one |
| Charts.ToIso | app/app.py:753 | succeeds exactly when every code is in the table, each mapped to its alpha-3 code; otherwise it raises for a code outside the table |
| Charts.CountryCounts | app/app.py:751-753 | succeeds exactly when every non-empty code is in the table; then exactly one location per distinct non-empty code, each with its alpha-3 code and its number of rows; an error names an unknown non-empty code |
| Charts.CountryCountsTotal | app/app.py:751-753 | the map's counts add up to the rows with a non-empty country code |
| Charts.ToIsoExample | app/app.py:748-749 | ID maps to IDN and US to USA |
| Charts.CountryCountsExample | app/app.py:751-753 | the codes ID, ID, US and the empty code give ID counted 2 (IDN) and US counted 1 (USA); the empty code is dropped |
| Histograms.HourTop | app/app.py:664-666 | at most five distinct categories of the source table; all of them when fewer; no dropped category is more frequent than a kept one |
| Histograms.HourCategories | app/app.py:683 | the chart's category columns are distinct, and are the relabelled categories of the rows published in a bin |
| Histograms.HourCategoriesKept | app/app.py:668-674 | every category column is a top-5 category or "Others" |
| Histograms.PublishHour | app/app.py:658-687 | one row per bin and one column per category; cell (b, c) counts the window's rows published in b whose relabelled category is c, and is zero otherwise |
| Histograms.PublishHourTotal | app/app.py:677-687 | over distinct bins the chart counts every row published in a bin exactly once |
| Histograms.PublishHourBinTotal | app/app.py:677-687 | each bin's stacked bar adds up to the window's rows published in that bin |
| Histograms.DayBars | app/app.py:631-634 | one bar per day from the first to the last publish day, each counting that day's rows; only the last bar is yellow |
| Histograms.PublishDayChart | app/app.py:631-634 | an empty window raises; otherwise consecutive days from the earliest to the latest publish day in the window, each counting its rows, with only the last bar yellow |
| Histograms.DayBarsTotal | app/app.py:631 | the day bars add up to the number of days counted |
| Histograms.PublishDayTotal | app/app.py:631 | the bars add up to the number of videos in the window |
| Histograms.PublishDayBars | app/app.py:631-634 | an empty window gives no bars, any other gives the code's bars; the bars add up to the window's size |
| RankTiers.TypeTop | app/app.py:792-794 | at most five distinct channel types of the rows; all of them when fewer; no dropped type has more rows than a kept one |
| RankTiers.ChannelTypes | app/app.py:803-805 | the chart's rows are distinct, and are the relabelled channel types that occur |
| RankTiers.ChannelTypesKept | app/app.py:796-801 | every chart row is a top-5 type or "Others" |
| RankTiers.RankTierMatrix | app/app.py:780-808 | the tier columns are the fixed list; cell (type, tier) counts the rows whose relabelled type and tier ("N/A" for empty) are that pair, zero-filled |
| RankTiers.RankTierColumnTotal | app/app.py:780-806 | each tier column sums to the rows of that tier |
| RankTiers.RankTierTotal | app/app.py:780-806 | over distinct tiers the matrix counts every row whose tier is listed exactly once |
| RankTiers.RankTierMatrixAsWritten | app/app.py:805-808 | the code's column selection succeeds exactly when every listed tier occurs, and then equals the zero-filled matrix; otherwise it raises for a listed tier that does not occur |
| RankTiers.AsWrittenEmptyWindow | app/app.py:807-808 | an empty window makes the code raise, for tier "A++" |
| RankTiers.AsWrittenSingleTier | app/app.py:807-808 | one video of tier "A" makes the code raise, for tier "A++" |
| RankTiers.SingleTierCounted | app/app.py:803-806 | the zero-filled matrix counts that one video |
| ViewGains.DropEnds | app/app.py:834 | iloc[:, 9:-1]: max(0, n - 10) points, point k being the original point k + 9 |
| ViewGains.LastPerChannel | app/app.py:836-837 | ascending by channel title with one row per title, with the same titles as the input; its rows are the last rows of their channels |
| ViewGains.ViewGainSeries | app/app.py:830-840 | one line per channel title of the table, in strictly ascending title order; each line is the trimmed gains of that channel's last row |
| ViewGains.SeriesFromLast | app/app.py:836 | the row kept for a channel is its last row in the table |
| ViewGains.DropdownButtons | app/app.py:856-866 | button i is labelled and titled with channel i, and makes line i and no other visible |
| Callbacks.FirstWindow | app/app.py:420 | it raises for a position past the domain; otherwise one row per video, each the video's first row, restricted to the range; every video first trending in the range is present |
| Callbacks.LastWindow | app/app.py:462-466 | it raises for a position past the domain; otherwise each video's latest row up to the range's end, restricted to the range; every video trending in the range is present |
| Callbacks.WeeklyCategories | app/app.py:418-422 | the category counts of the videos first trending in the range: ordered by count over distinct categories, exactly the categories of those videos, each with its number of videos; the counts add up to the number of those videos |
| Callbacks.WeeklyTop | app/app.py:461-469 | the top-10 table of the range's last rows: min(10, n) distinct videos of the range, a sub-multiset of those rows, ascending by the metric, each on its latest row; no video left out has a larger metric |
| Callbacks.WeeklyPublishDay | app/app.py:629-634 | the code's chart succeeds exactly when the range is valid and some video first trends in it; then it is the publish-day chart of those videos: consecutive days spanning their publish days, each bar counting that day's videos, only the last bar yellow, the bars adding up to the videos |
| Callbacks.PublishDayRaisesWithoutNewVideos | app/app.py:629-634 | a valid range in which no video first trends makes the code raise |
| Callbacks.PublishDaySecondDayRaises | app/app.py:629-634 | one video trending on days 0 and 1, range [1, 1]: the code raises |
| Callbacks.PublishDayBarsSecondDay | app/app.py:629-634 | the same input gives the corrected chart no bars |
| Callbacks.DailyWithoutDateRaises | app/app.py:1054-1059 | a selector value matching no trending date of the table gives an empty daily window, and the daily publish-day chart raises |
| Callbacks.WeeklyPublishDayBars | app/app.py:629-634 | the corrected chart succeeds exactly when the range is valid; it is empty exactly when no video first trends in the range; otherwise it equals the code's chart; the bars add up to those videos |
| Callbacks.WeeklyPublishHour | app/app.py:648-687 | the publish-hour chart of the videos first trending in the range: the 48 half-hour bins; columns are top-5 categories of the whole first-seen table or "Others"; cell counts as in `Histograms.PublishHour`; the matrix counts every such video published in a bin |
| Callbacks.WeeklyLeaderboard | app/app.py:710-715 | the leaderboard of the raw range: at most 10 distinct channels by non-increasing count, every channel of the range when fewer are listed; each count is the channel's number of rows in the range |
| Callbacks.WeeklyCountries | app/app.py:741-753 | on a valid range it is the country map of the range's last rows: it succeeds exactly when every non-empty code there is in the table, and otherwise raises for an unknown code; one location per distinct non-empty code, with its alpha-3 code and its number of videos; the counts add up to the videos with a country |
| Callbacks.WeeklyRankTiers | app/app.py:773-808 | the zero-filled rank matrix of the range's last rows over the fixed tier columns, cell counts as in `RankTiers.RankTierMatrix`; the matrix counts every such video whose tier is listed |
| Callbacks.WeeklyRankTiersAsWritten | app/app.py:773-808 | on a valid range the code's chart succeeds exactly when every tier occurs among the range's last rows, and then equals the zero-filled chart; otherwise a tier is missing |
| Callbacks.WeeklyClouds | app/app.py:585-611 | an empty range gives three empty texts; the title, description and tag texts split on commas into one piece per video (its title tokens, description tokens or tags joined by spaces) when no piece holds a comma |

## Left out

- Dash setup, layout, tabs, the modal and the callback wiring: user interface and the reactive framework.
- Loading the pickled table: file input. The model takes the table as a parameter.
- Thumbnail and avatar downloads and their base64 encoding: network and foreign calls.
- Stylecloud image generation and the HTML image wrapper: a foreign library and image output. Only the texts fed to it are modelled.
- Plotly figure construction: rendering only.
- The Pearson correlation of the daily tab: floating point and rounding.
- The "x.xM" views formatting: floating point and rounding.
- Calendar types: dates and publish days are integer day numbers. The slider mark's date format is a parameter of `Windows.SliderMarks`.
- The daily tab's callbacks: they apply the same chart functions to `Windows.Daily` of the selected date instead of a weekly window, and get no members of their own. Clearing the date selector sends no date. The daily window is then empty, and the daily publish-day chart raises (app/app.py:1055-1059), as `Callbacks.DailyWithoutDateRaises` shows, with the cleared selector modelled as a date outside the domain.
- `Sorting.SortBy`: it is a stable sort, while pandas' default quicksort is not. Rows that compare equal keep input order in the model, while the code leaves their order open. This fixes which row wins a tie in de-duplication, in the top-10 cut and among equal counts.
- Group-key order of `groupby` and `pivot`: pandas sorts keys, and the model keeps first-appearance order. Besides the display order of columns and rows, this order breaks ties among equal counts at the top-5 cut (app/app.py:664-666, 792-794) and the top-10 cut of the leaderboard (app/app.py:713-715). At such a tie the code and the model can keep different labels, and so the counts of "Others" and of the kept labels can differ. The model promises only which counts a kept label must dominate, as `Counting.TopLabels` states.
- WeeklyClouds: when a title token, description token or tag holds a comma, the model states nothing about how the comma-joined text splits, because the pieces then no longer correspond to videos.
- `groupby` dropping missing keys: model rows have no missing values.
- The expansion of view gains into columns: the model assumes that every channel's history covers the same days, so that `iloc[:, 9:-1]` trims each history on its own.
- The rank chart's intermediate descending sort: it affects order only, because the counts are regrouped afterwards.
- `Charts.TopByMetric`, `Charts.TopRanked`: they describe the selected rows. The extra columns the code adds for display (short title, formatted views) are modelled separately (`Charts.BarLabels`) or left out.

## Findings

| source | as written | input that shows it | evidently intended | confidence | as-written member | corrected member |
|---|---|---|---|---|---|---|
| app/app.py:805-808 | after pivot and fillna(0), `filtered_df[all_ranks]` selects ten fixed tier columns, and raises KeyError when a tier has no video in the range | the range's last rows are one video of tier "A" (`RankTiers.AsWrittenSingleTier`), or the range is empty (`RankTiers.AsWrittenEmptyWindow`) | a tier without videos is a zero column, as the fillna(0) before it intends | medium, not executed | RankTiers.RankTierMatrixAsWritten | RankTiers.RankTierMatrix |
| app/app.py:629-634 | `filtered_df.iloc[-1,2] = 'Yellow'` highlights the last publish-day bar, and raises IndexError when the resampled table is empty | one video trending on days 0 and 1 with the slider on [1, 1]: no video first trends in the range (`Callbacks.PublishDaySecondDayRaises`); the daily chart at app/app.py:1055-1059 reaches the same crash when the date selector is cleared (`Callbacks.DailyWithoutDateRaises`) | an empty range draws an empty chart | medium, not executed | Callbacks.WeeklyPublishDay | Callbacks.WeeklyPublishDayBars |
