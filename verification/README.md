# ecommerce-dashboard data shaping, in Dafny

This project models the data-shaping logic behind the two charts of the ecommerce
dashboard. It has five parts:

- **The data-loading hook.** This covers the per-field coercion the CSV parser applies, how `loadCSVFile` wraps fetch and parse failures, and the four-field state (`worldData`, `amazonData`, `isLoading`, `error`) that `loadData` fills: the world file first, then the Amazon file.
- **The row helpers.** These are available segments and years, the per-year projection, the segment-major flattening, and the Amazon year filter.
- **The Amazon chart's period presets.**
- **The world chart's pipeline.** This covers the fixed segment list, the filter-relabel-sort pipeline and the checkbox toggle.
- **The language context.** This is two static dictionaries and the lookup `t`, which falls back to the key.

Modules, one per source file:

| module | file | source |
|---|---|---|
| `Wrappers` | wrappers.dfy | `Option` and `Result` |
| `Sequences` | sequences.dfy | subsequence, no-duplicates and remove-all, shared by the rest |
| `DataLoader` | data_loader.dfy | src/hooks/useDataLoader.ts |
| `Utils` | utils.dfy | src/lib/utils.ts |
| `Language` | language.dfy | src/contexts/LanguageContext.tsx |
| `AmazonRevenueChart` | amazon_revenue_chart.dfy | src/components/AmazonRevenueChart.tsx |
| `WorldRevenueChart` | world_revenue_chart.dfy | src/components/WorldRevenueChart.tsx |

Representation choices:

- **Rows.** A parsed CSV row is a `Row`: its keys in enumeration order plus a map from key to `Value`.
- **Values.** A `Value` is a number (`real`), a text, or `Undefined`, which stands for JavaScript's `undefined`. Reading an absent key gives `Undefined`, never 0.
- **Amazon rows.** The Amazon chart works on typed `AmazonRow(year, revenue)` records.
- **Environment as parameters.** `fetch`, `response.text()`, the CSV parser (Papa.parse) and `parseFloat` are parameters that yield abstract outcomes. The calendar year that `filterAmazonDataByYear` reads from the clock is also a parameter.

### Which load failures carry the prefix

Only a failed `fetch` or a non-ok response gets the prefix `Error loading CSV file: `.
A parse failure carries the parser's own message. This is because `loadCSVFile` returns
the parsing promise from inside its `try` without `await`, so a rejection from the
parser's `complete` or `error` callback never reaches the `catch`
(`DataLoader.LoadCsvFile`, `DataLoader.ParseFailuresAreNotPrefixed`).

The loads also run strictly in sequence, and nothing is rolled back. If the Amazon load
fails, `worldData` keeps the rows already stored.

## Model

| member | source | states |
|---|---|---|
| DataLoader.Transform | src/hooks/useDataLoader.ts:52-58 | the `segment` field and empty fields stay text unchanged; any other field becomes a number exactly when `parseFloat` yields one, and otherwise stays text |
| DataLoader.TransformRecords | src/hooks/useDataLoader.ts:49-58 | each parsed record keeps its keys and their order, with every field coerced by the transform, record by record |
| DataLoader.LoadCsvFile | src/hooks/useDataLoader.ts:40-76 | success exactly when the response is ok and the parser completes with no errors, and then the rows are the transformed records; a network failure or non-ok response fails with the prefix and "Failed to fetch <url>: <statusText>"; a parse failure fails with the parser's first error message, unprefixed |
| DataLoader.FetchFailuresArePrefixed | src/hooks/useDataLoader.ts:41-75 | every fetch failure and non-ok response fails with a message starting "Error loading CSV file: " |
| DataLoader.ParseFailuresAreNotPrefixed | src/hooks/useDataLoader.ts:48-65 | a parser error list fails the load with exactly its first message |
| DataLoader.DataLoaderHook.constructor | src/hooks/useDataLoader.ts:35-38 | initial state: no world rows, no Amazon rows, loading, no error |
| DataLoader.DataLoaderHook.LoadData | src/hooks/useDataLoader.ts:79-95 | afterwards loading is false; a world failure stores its message and changes no data; otherwise the world rows are stored, then an Amazon failure stores its message and leaves the Amazon rows as they were, or the Amazon rows are stored with no error |
| DataLoader.UseDataLoader | src/hooks/useDataLoader.ts:34-106 | after mount and one load: not loading; an error exactly when either file failed; a world failure leaves both datasets empty; an Amazon failure keeps the world rows and leaves the Amazon rows empty; success exposes both |
| Utils.GetAvailableSegments | src/lib/utils.ts:9-15 | empty data gives no segments; otherwise the first row's keys in order without `Year`, with membership exactly "a key of the first row other than `Year`" |
| Utils.GetAvailableYears | src/lib/utils.ts:17-23 | empty data gives no years; otherwise the first row's keys (strings) in order without `segment`, with membership exactly "a key of the first row other than `segment`" |
| Utils.GetSegmentDataForYear | src/lib/utils.ts:25-31 | one entry per row, in row order; entry i carries row i's `segment` and row i's value under the year's decimal key, or `Undefined` when the row lacks that key |
| Utils.YearKeyInjective | src/lib/utils.ts:26 | two years share a column key exactly when they are equal |
| Utils.DecimalRoundTrip | src/lib/utils.ts:26 | reading a year's decimal spelling back gives the year |
| Utils.SegmentMajorLength | src/lib/utils.ts:33-44 | the flattening has one entry per segment and row |
| Utils.SegmentMajorAt | src/lib/utils.ts:36-41 | entry k·|rows| + i is segment k paired with row i's value under segment k |
| Utils.FormatWorldRevenueData | src/lib/utils.ts:33-44 | the loop builds exactly the segment-major flattening over the available segments |
| Utils.FilterYears | src/lib/utils.ts:48 | the kept rows are an order-preserving subsequence of the input, every kept row lies in the closed year range, and each row occurs as often as in the input if in range and otherwise not at all |
| Utils.FilterAmazonDataByYear | src/lib/utils.ts:46-49 | a zero end year means the current calendar year; the result is the in-range rows of the input, in order, with their multiplicities |
| Utils.LaterStartKeepsSubsequence | src/lib/utils.ts:48 | raising the start year keeps a subsequence of the earlier result |
| AmazonRevenueChart.StartYear | src/components/AmazonRevenueChart.tsx:48-61 | five years starts at 2019 (2024 − 5), ten years at 2014, all time at 2004 |
| AmazonRevenueChart.GetFilteredData | src/components/AmazonRevenueChart.tsx:47-66 | the year filter from the preset's start year to 2024, whatever the calendar year: an in-order subsequence of the in-range rows |
| AmazonRevenueChart.PeriodsNest | src/components/AmazonRevenueChart.tsx:47-63 | the five-year result is a subsequence of the ten-year result, which is a subsequence of the all-time result |
| AmazonRevenueChart.AmazonRevenueChart.constructor | src/components/AmazonRevenueChart.tsx:45 | the default period is all time |
| AmazonRevenueChart.AmazonRevenueChart.SetTimePeriod | src/components/AmazonRevenueChart.tsx:123 | the selected period becomes the chosen one |
| WorldRevenueChart.SegmentsDistinct | src/components/WorldRevenueChart.tsx:43-57 | the segment list has 13 entries and no duplicates |
| WorldRevenueChart.SegmentsTranslated | src/contexts/LanguageContext.tsx:55-129 | every listed segment has a `segment.<key>` entry in both dictionaries, so its label is that entry and never the raw key |
| WorldRevenueChart.Toggle | src/components/WorldRevenueChart.tsx:82-86 | a selected segment loses all its occurrences and the others keep their order and counts; an unselected one is appended at the end |
| WorldRevenueChart.ToggleKeepsNoDuplicates | src/components/WorldRevenueChart.tsx:82-86 | toggling keeps a duplicate-free selection duplicate-free |
| WorldRevenueChart.ToggleTwiceRestores | src/components/WorldRevenueChart.tsx:82-86 | toggling an unselected segment twice restores the exact original selection |
| WorldRevenueChart.ToggleSelectedTwiceMovesToEnd | src/components/WorldRevenueChart.tsx:82-86 | toggling a selected segment twice moves it, once, to the end |
| WorldRevenueChart.WorldRevenueChart.constructor | src/components/WorldRevenueChart.tsx:62-63 | the initial year is 2025 and the initial selection is the 13 listed segments, duplicate-free |
| WorldRevenueChart.WorldRevenueChart.HandleSegmentToggle | src/components/WorldRevenueChart.tsx:81-87 | the selection becomes its toggle, stays duplicate-free, and the year is unchanged |
| WorldRevenueChart.WorldRevenueChart.SetSelectedYear | src/components/WorldRevenueChart.tsx:141 | the year becomes the chosen one and the selection is unchanged |
| WorldRevenueChart.SelectAndRelabel | src/components/WorldRevenueChart.tsx:69-75 | the entries come, in order, from year entries whose segment is selected, each labelled `t("segment." + key)`, and every selected year entry appears relabelled |
| WorldRevenueChart.SelectAndRelabelCounts | src/components/WorldRevenueChart.tsx:70 | the filter keeps every occurrence: a year entry with a selected segment is the source of as many entries as it occurs, any other of none |
| WorldRevenueChart.SortByRevenueDescending | src/components/WorldRevenueChart.tsx:76 | the sort is a permutation of its input |
| WorldRevenueChart.SortIsNonIncreasing | src/components/WorldRevenueChart.tsx:76 | when every revenue converts to a number (numbers, and blank texts as 0), the sorted entries are non-increasing by that number |
| WorldRevenueChart.SortIsStable | src/components/WorldRevenueChart.tsx:76 | entries whose revenues convert to the same number, or both to NaN, keep their relative order |
| WorldRevenueChart.BlankRevenueSortsAsZero | src/components/WorldRevenueChart.tsx:76 | an empty text revenue sorts as 0: revenues 1, empty and 5 come out as 5, 1, empty |
| WorldRevenueChart.GetFilteredData | src/components/WorldRevenueChart.tsx:67-77 | at most one bar per world row; the bars are a permutation of the selected, relabelled entries; each bar's key is selected, its label is the key's translation, and its key and revenue come from one world row; every world row with a selected segment yields a bar |
| WorldRevenueChart.FilteredDataIsSorted | src/components/WorldRevenueChart.tsx:76 | when every selected revenue converts to a number, the bars are non-increasing by revenue |
| WorldRevenueChart.FilteredDataKeepsTieOrder | src/components/WorldRevenueChart.tsx:76 | bars whose revenues convert to the same number keep the order of their world rows |
| WorldRevenueChart.FilteredDataCounts | src/components/WorldRevenueChart.tsx:67-77 | each year entry with a selected segment is the source of exactly as many bars as it occurs; any other entry of none |
| Language.Lookup | src/contexts/LanguageContext.tsx:141-143 | a present, non-empty entry is returned; an absent key, or a present key whose entry is empty, comes back unchanged; the result is always the key or a dictionary value, and is empty only for the empty key |
| Language.Translate | src/contexts/LanguageContext.tsx:141-143 | `t` for a language (also `LanguageProvider.T` for the provider's language): a key of that dictionary translates to its entry, which is non-empty; the key comes back unchanged exactly when the dictionary lacks it |
| Language.KeySetsAgree | src/contexts/LanguageContext.tsx:14-136 | the English and French dictionaries define the same keys |
| Language.CurrencyFormatHasPlaceholder | src/contexts/LanguageContext.tsx:23-83 | both currency formats contain `{value}` |
| Language.LanguageProvider.constructor | src/contexts/LanguageContext.tsx:139 | the default language is English |
| Language.LanguageProvider.SetLanguage | src/contexts/LanguageContext.tsx:139 | the selected language becomes the chosen one |

## Left out

- JSX rendering, the recharts charts, the cards, selects, checkboxes and badges, and both tooltip components are presentation only. This includes the `toFixed(1)` formatting and the `{value}` replacement in the tooltips; the model only proves that the placeholder is present.
- `cn` in src/lib/utils.ts wraps clsx and tailwind-merge, neither of which is part of this model.
- `fetch`, `response.text()`, the CSV parser and `parseFloat` are parameters.
  - A failure of `response.text()` is folded into the network-failure outcome.
  - `parseFloat`'s lenient prefix parsing and NaN are behind its abstract `Option` result.
- DataLoader.UseDataLoader: React's state scheduling, `useEffect` and the async interleaving of renders are not modelled; the hook is one constructor call followed by one complete load.
- DataLoader.LoadData: the `"Failed to load data"` fallback for a non-`Error` rejection cannot arise, because every modelled rejection is an `Error` with a message.
- The unchecked `as AmazonData[]` cast is not modelled. The Amazon chart's filter works on typed `AmazonRow` values rather than on the rows the loader stores.
- JavaScript's object-key enumeration order, which puts integer-like keys first, is not modelled: a `Row`'s key list is whatever order the parser gives.
- WorldRevenueChart.SortByRevenueDescending:
  - The comparator `b.revenue - a.revenue` converts each revenue to a number. A number stays itself and a blank text (the empty text included) becomes 0. Any other text, or `undefined`, becomes NaN.
  - A NaN difference counts as a tie. That makes the comparator inconsistent, and JavaScript then leaves the order up to the engine.
  - The model fixes one such order: a stable insertion sort with those ties. The ordering property is therefore stated only when every revenue converts to a number.
  - The conversion assumes a text revenue is one `parseFloat` rejected, as the transform guarantees.
- Language.Lookup: a key that names an inherited object property (such as `constructor`) is not modelled. The model's dictionaries hold only their own 41 entries.
- `useLanguage`'s throw outside a provider is framework plumbing.
- The `parseInt` of the year selector's text is done by the caller of WorldRevenueChart.WorldRevenueChart.SetSelectedYear.
- The calendar-year read in `filterAmazonDataByYear` is the `currentYear` parameter.
