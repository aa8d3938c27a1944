/**
 * The worldwide revenue chart's data selection: the fixed segment list, the selected
 * year and segments, the filter-relabel-sort pipeline behind the bars, and the
 * checkbox toggle that updates the selection.
 */
module WorldRevenueChart {
  import opened Wrappers
  import opened Sequences
  import opened DataLoader
  import opened Utils
  import opened Language

  /** The segments offered as checkboxes, all selected at first. */
  const Segments: seq<string> := [
    "beverages",
    "media",
    "diy_hardware_store",
    "otc_pharmaceuticals",
    "tobacco_products",
    "toys_hobby",
    "electronics",
    "beauty_personal_care",
    "food",
    "household_essentials",
    "fashion",
    "furniture",
    "eyewear"
  ]

  /** The year selected when the chart mounts. */
  const DefaultYear := 2025

  /** One bar: the translated label, the segment key and the revenue. */
  datatype ChartEntry = ChartEntry(segment: string, segmentKey: string, revenue: Value)

  /** The label a segment key is shown under: `t("segment." + key)`. */
  function SegmentLabel(t: string -> string, key: string): string
  {
    t("segment." + key)
  }

  /** The fixed segment list has thirteen distinct entries. */
  lemma SegmentsDistinct()
    ensures |Segments| == 13 && NoDuplicates(Segments)
  {
  }

  // The label keys below, spelled out, and the lemmas about their spelling have no counterpart
  // in the dashboard: they only split the coverage proof into pieces the verifier handles quickly.

  /** The dictionary keys the listed segments are labelled under, in list order. */
  const SegmentLabelKeys: seq<string> := [
    "segment.beverages",
    "segment.media",
    "segment.diy_hardware_store",
    "segment.otc_pharmaceuticals",
    "segment.tobacco_products",
    "segment.toys_hobby",
    "segment.electronics",
    "segment.beauty_personal_care",
    "segment.food",
    "segment.household_essentials",
    "segment.fashion",
    "segment.furniture",
    "segment.eyewear"
  ]

  /** Entry `i` of the label keys is `"segment."` followed by segment `i`. */
  lemma LabelKeySpelling(i: nat)
    requires i < |Segments|
    ensures "segment." + Segments[i] == SegmentLabelKeys[i]
  {
    if i < 4 {
      LabelKeySpellingFirst(i);
    } else if i < 7 {
      LabelKeySpellingSecond(i);
    } else if i < 10 {
      LabelKeySpellingThird(i);
    } else {
      LabelKeySpellingFourth(i);
    }
  }

  // The spelling, a few entries per lemma, so that each proof stays small.
  lemma LabelKeySpellingFirst(i: nat)
    requires 0 <= i < 4
    ensures "segment." + Segments[i] == SegmentLabelKeys[i]
  {
  }

  lemma LabelKeySpellingSecond(i: nat)
    requires 4 <= i < 7
    ensures "segment." + Segments[i] == SegmentLabelKeys[i]
  {
  }

  lemma LabelKeySpellingThird(i: nat)
    requires 7 <= i < 10
    ensures "segment." + Segments[i] == SegmentLabelKeys[i]
  {
  }

  lemma LabelKeySpellingFourth(i: nat)
    requires 10 <= i < 13
    ensures "segment." + Segments[i] == SegmentLabelKeys[i]
  {
  }

  /** Every label key is an English dictionary key. */
  lemma LabelKeysInDictionary()
    ensures forall k :: k in SegmentLabelKeys ==> k in EnTranslations
  {
  }

  /** Every listed segment's label key is an English dictionary key. */
  lemma SegmentLabelKeyPresent(key: string)
    requires key in Segments
    ensures "segment." + key in EnTranslations
  {
    var i :| 0 <= i < |Segments| && Segments[i] == key;
    LabelKeySpelling(i);
    LabelKeysInDictionary();
  }

  /** Every listed segment has a label in both dictionaries, so no bar shows a raw key. */
  lemma SegmentsTranslated(lang: Language, key: string)
    requires key in Segments
    ensures "segment." + key in EnTranslations && "segment." + key in FrTranslations
    ensures Translate(lang, "segment." + key) == Translations(lang)["segment." + key]
    ensures Translate(lang, "segment." + key) != "segment." + key
  {
    SegmentLabelKeyPresent(key);
    KeySetsAgree();
  }

  // ---------------------------------------------------------------------------
  // Selection toggle.

  /** `handleSegmentToggle`'s update: drop every occurrence of a selected segment, append an unselected one. */
  function Toggle(selected: seq<string>, segment: string): (next: seq<string>)
    ensures segment in next <==> segment !in selected
    ensures forall s :: s != segment ==> multiset(next)[s] == multiset(selected)[s]
    ensures segment in selected ==> IsSubsequence(next, selected)
    ensures segment !in selected ==> next == selected + [segment]
  {
    if segment in selected then RemoveAll(selected, segment)
    else
      assert forall s :: s != segment ==> multiset(selected + [segment])[s] == multiset(selected)[s];
      selected + [segment]
  }

  /** Toggling keeps a duplicate-free selection duplicate-free. */
  lemma ToggleKeepsNoDuplicates(selected: seq<string>, segment: string)
    requires NoDuplicates(selected)
    ensures NoDuplicates(Toggle(selected, segment))
  {
    if segment in selected {
      RemoveKeepsNoDuplicates(selected, segment);
    } else {
      var next := selected + [segment];
      forall i, j | 0 <= i < j < |next| ensures next[i] != next[j] {
        if j == |selected| {
          assert next[i] == selected[i];
        } else {
          assert next[i] == selected[i] && next[j] == selected[j];
        }
      }
    }
  }

  /** Toggling an unselected segment twice gives back exactly the original selection. */
  lemma ToggleTwiceRestores(selected: seq<string>, segment: string)
    requires segment !in selected
    ensures Toggle(Toggle(selected, segment), segment) == selected
  {
    var next := selected + [segment];
    assert segment in next;
    RemoveAbsent(selected, segment);
    RemoveLast(selected, segment);
  }

  lemma {:induction false} RemoveLast(xs: seq<string>, x: string)
    ensures RemoveAll(xs + [x], x) == RemoveAll(xs, x)
    decreases |xs|
  {
    if xs == [] {
      assert [x][1..] == [];
    } else {
      assert (xs + [x])[1..] == xs[1..] + [x];
      RemoveLast(xs[1..], x);
    }
  }

  /** Toggling a selected segment twice drops its occurrences and appends it once at the end. */
  lemma ToggleSelectedTwiceMovesToEnd(selected: seq<string>, segment: string)
    requires segment in selected
    ensures Toggle(Toggle(selected, segment), segment) == RemoveAll(selected, segment) + [segment]
  {
  }

  /** The chart's own state: the selected year and the selected segments. */
  class WorldRevenueChart {
    var selectedYear: int
    var selectedSegments: seq<string>

    predicate Valid()
      reads this
    {
      NoDuplicates(selectedSegments)
    }

    constructor ()
      ensures Valid()
      ensures selectedYear == DefaultYear && selectedSegments == Segments
    {
      selectedYear := DefaultYear;
      selectedSegments := Segments;
      SegmentsDistinct();
    }

    /** `handleSegmentToggle`: the checkbox of `segment` changed. */
    method HandleSegmentToggle(segment: string)
      requires Valid()
      modifies this
      ensures Valid()
      ensures selectedSegments == Toggle(old(selectedSegments), segment)
      ensures selectedYear == old(selectedYear)
    {
      ToggleKeepsNoDuplicates(selectedSegments, segment);
      selectedSegments := Toggle(selectedSegments, segment);
    }

    /** The year selector changed; the year arrives already parsed to an integer. */
    method SetSelectedYear(year: int)
      requires Valid()
      modifies this
      ensures Valid()
      ensures selectedYear == year && selectedSegments == old(selectedSegments)
    {
      selectedYear := year;
    }
  }

  // ---------------------------------------------------------------------------
  // Filter, relabel, sort.

  /** The bar for a year entry whose segment is the text `key`. */
  function Relabel(t: string -> string, key: string, revenue: Value): ChartEntry
  {
    ChartEntry(SegmentLabel(t, key), key, revenue)
  }

  /** The entry a bar was made from. */
  function Source(entry: ChartEntry): SegmentRevenue
  {
    SegmentRevenue(Text(entry.segmentKey), entry.revenue)
  }

  function Sources(entries: seq<ChartEntry>): (sources: seq<SegmentRevenue>)
    ensures |sources| == |entries|
    ensures forall i :: 0 <= i < |entries| ==> sources[i] == Source(entries[i])
  {
    seq(|entries|, i requires 0 <= i < |entries| => Source(entries[i]))
  }

  /** The entry passes the filter: its segment is a string among the selected ones. */
  predicate IsSelected(item: SegmentRevenue, selected: seq<string>)
  {
    item.segment.Text? && item.segment.s in selected
  }

  /** The filter and relabelling stages, before sorting. */
  function SelectAndRelabel(yearData: seq<SegmentRevenue>, selected: seq<string>, t: string -> string)
    : (entries: seq<ChartEntry>)
    ensures |entries| <= |yearData|
    ensures IsSubsequence(Sources(entries), yearData)
    ensures forall e :: e in entries ==> e.segmentKey in selected && e.segment == SegmentLabel(t, e.segmentKey)
    ensures forall item :: item in yearData && IsSelected(item, selected) ==>
              Relabel(t, item.segment.s, item.revenue) in entries
    decreases |yearData|
  {
    if yearData == [] then []
    else
      var item := yearData[0];
      var rest := SelectAndRelabel(yearData[1..], selected, t);
      assert forall x :: x in yearData ==> x == item || x in yearData[1..];
      if IsSelected(item, selected) then
        var entries := [Relabel(t, item.segment.s, item.revenue)] + rest;
        assert Sources(entries)[1..] == Sources(rest);
        entries
      else
        SubsequenceOfTail(Sources(rest), yearData);
        rest
  }

  /**
   * The filter keeps every occurrence: each selected year entry is the source of as many
   * bars as it has occurrences, and an unselected one of none.
   */
  lemma {:induction false} SelectAndRelabelCounts(yearData: seq<SegmentRevenue>, selected: seq<string>,
                                                  t: string -> string)
    ensures forall item :: multiset(Sources(SelectAndRelabel(yearData, selected, t)))[item] ==
              if IsSelected(item, selected) then multiset(yearData)[item] else 0
    decreases |yearData|
  {
    if yearData != [] {
      var item := yearData[0];
      var rest := SelectAndRelabel(yearData[1..], selected, t);
      SelectAndRelabelCounts(yearData[1..], selected, t);
      assert yearData == [item] + yearData[1..];
      if IsSelected(item, selected) {
        var entries := [Relabel(t, item.segment.s, item.revenue)] + rest;
        assert Sources(entries) == [item] + Sources(rest);
        CountsStep(item, yearData[1..], Sources(rest), Sources(entries), selected);
      } else {
        CountsStep(item, yearData[1..], Sources(rest), Sources(rest), selected);
      }
    }
  }

  /** Reordering bars reorders their sources alike. */
  lemma {:induction false} SourcesOfPermutation(a: seq<ChartEntry>, b: seq<ChartEntry>)
    requires multiset(a) == multiset(b)
    ensures multiset(Sources(a)) == multiset(Sources(b))
    decreases |a|
  {
    if a != [] {
      assert a[0] in multiset(b);
      var j :| 0 <= j < |b| && b[j] == a[0];
      var rest := b[..j] + b[j + 1..];
      RemoveMatching(a, b, j);
      SourcesOfPermutation(a[1..], rest);
      assert a == [a[0]] + a[1..];
      assert b == b[..j] + [b[j]] + b[j + 1..];
      SourcesConcat([a[0]], a[1..]);
      SourcesConcat(b[..j] + [b[j]], b[j + 1..]);
      SourcesConcat(b[..j], [b[j]]);
      SourcesConcat(b[..j], b[j + 1..]);
    }
  }

  lemma SourcesConcat(x: seq<ChartEntry>, y: seq<ChartEntry>)
    ensures Sources(x + y) == Sources(x) + Sources(y)
  {
  }

  /** One step of the filter's counting argument: the head is kept exactly when it is selected. */
  lemma CountsStep(item: SegmentRevenue, tail: seq<SegmentRevenue>, restSources: seq<SegmentRevenue>,
                   sources: seq<SegmentRevenue>, selected: seq<string>)
    requires forall x :: multiset(restSources)[x] == if IsSelected(x, selected) then multiset(tail)[x] else 0
    requires sources == (if IsSelected(item, selected) then [item] else []) + restSources
    ensures forall x :: multiset(sources)[x] == if IsSelected(x, selected) then multiset([item] + tail)[x] else 0
  {
  }

  /** A character JavaScript's string-to-number conversion skips as white space. */
  predicate IsJsSpace(c: char)
  {
    c == ' ' || c == '\t' || c == '\n' || c == '\r' || c == '\U{000B}' || c == '\U{000C}' ||
    c == '\U{00A0}' || c == '\U{1680}' || '\U{2000}' <= c <= '\U{200A}' || c == '\U{2028}' || c == '\U{2029}' ||
    c == '\U{202F}' || c == '\U{205F}' || c == '\U{3000}' || c == '\U{FEFF}'
  }

  /** A text made of white space only, the empty text included. */
  predicate IsBlank(s: string)
  {
    forall i :: 0 <= i < |s| ==> IsJsSpace(s[i])
  }

  /**
   * The number a revenue stands for in `b.revenue - a.revenue`, or `None` for NaN. A text
   * revenue is one `parseFloat` rejected; JavaScript converts such a text to 0 when it is
   * blank and to NaN otherwise, and `undefined` to NaN.
   */
  function AsNumber(v: Value): Option<real>
  {
    match v
    case Num(x) => Some(x)
    case Text(s) => if IsBlank(s) then Some(0.0) else None
    case Undefined => None
  }

  /**
   * `b` sorts strictly before `a` under the comparator `(a, b) => b.revenue - a.revenue`:
   * both revenues convert to numbers and `b`'s is larger. A NaN difference counts as 0, a tie.
   */
  predicate Greater(b: ChartEntry, a: ChartEntry)
  {
    AsNumber(b.revenue).Some? && AsNumber(a.revenue).Some? && AsNumber(b.revenue).value > AsNumber(a.revenue).value
  }

  /** Every revenue converts to a number, so the comparator is a consistent order. */
  predicate AllNumeric(entries: seq<ChartEntry>)
  {
    forall i :: 0 <= i < |entries| ==> AsNumber(entries[i].revenue).Some?
  }

  /** No entry has a larger revenue than an entry before it. */
  predicate NonIncreasing(entries: seq<ChartEntry>)
  {
    forall i, j :: 0 <= i < j < |entries| ==> !Greater(entries[j], entries[i])
  }

  /** The entries whose revenue converts to `key` (`None` for NaN), in order. */
  function WithSortKey(entries: seq<ChartEntry>, key: Option<real>): seq<ChartEntry>
    decreases |entries|
  {
    if entries == [] then []
    else (if AsNumber(entries[0].revenue) == key then [entries[0]] else []) + WithSortKey(entries[1..], key)
  }

  /** Insert `x` after every entry that is strictly greater than it. */
  function InsertDescending(x: ChartEntry, sorted: seq<ChartEntry>): (r: seq<ChartEntry>)
    ensures multiset(r) == multiset(sorted) + multiset{x}
    decreases |sorted|
  {
    if sorted != [] && Greater(sorted[0], x) then
      assert sorted == [sorted[0]] + sorted[1..];
      [sorted[0]] + InsertDescending(x, sorted[1..])
    else [x] + sorted
  }

  /** A stable sort, descending by revenue. */
  function SortByRevenueDescending(entries: seq<ChartEntry>): (sorted: seq<ChartEntry>)
    ensures multiset(sorted) == multiset(entries)
    decreases |entries|
  {
    if entries == [] then []
    else
      assert entries == [entries[0]] + entries[1..];
      InsertDescending(entries[0], SortByRevenueDescending(entries[1..]))
  }

  lemma HeadDominates(sorted: seq<ChartEntry>)
    requires sorted != [] && NonIncreasing(sorted)
    ensures forall e :: e in sorted[1..] ==> !Greater(e, sorted[0])
  {
    forall e | e in sorted[1..] ensures !Greater(e, sorted[0]) {
      var k :| 0 <= k < |sorted[1..]| && sorted[1..][k] == e;
      assert sorted[k + 1] == e;
    }
  }

  lemma {:induction false} InsertKeepsOrder(x: ChartEntry, sorted: seq<ChartEntry>)
    requires AsNumber(x.revenue).Some? && AllNumeric(sorted) && NonIncreasing(sorted)
    ensures AllNumeric(InsertDescending(x, sorted)) && NonIncreasing(InsertDescending(x, sorted))
    decreases |sorted|
  {
    var r := InsertDescending(x, sorted);
    if sorted != [] && Greater(sorted[0], x) {
      var tail := sorted[1..];
      assert NonIncreasing(tail);
      InsertKeepsOrder(x, tail);
      var rest := InsertDescending(x, tail);
      assert r == [sorted[0]] + rest;
      HeadDominates(sorted);
      forall i, j | 0 <= i < j < |r| ensures !Greater(r[j], r[i]) {
        if i == 0 {
          assert r[j] == rest[j - 1] && r[j] in rest;
          assert r[j] == x || r[j] in tail by {
            assert r[j] in multiset(rest);
          }
        } else {
          assert r[i] == rest[i - 1] && r[j] == rest[j - 1];
        }
      }
    } else if sorted != [] {
      HeadDominates(sorted);
      forall i, j | 0 <= i < j < |r| ensures !Greater(r[j], r[i]) {
        if i == 0 {
          assert r[j] == sorted[j - 1];
          if j > 1 {
            assert sorted[j - 1] in sorted[1..];
          }
        } else {
          assert r[i] == sorted[i - 1] && r[j] == sorted[j - 1];
        }
      }
    }
  }

  /** An empty revenue, which the transform leaves as text, sorts as 0 below positive revenues. */
  lemma BlankRevenueSortsAsZero(a: ChartEntry, b: ChartEntry, c: ChartEntry)
    requires a.revenue == Num(1.0) && b.revenue == Text("") && c.revenue == Num(5.0)
    ensures SortByRevenueDescending([a, b, c]) == [c, a, b]
  {
    assert AsNumber(a.revenue) == Some(1.0) && AsNumber(c.revenue) == Some(5.0);
    assert IsBlank("") && AsNumber(b.revenue) == Some(0.0);
    assert Greater(c, b) && Greater(c, a) && !Greater(b, a);
    assert [a, b, c][1..] == [b, c] && [b, c][1..] == [c] && [c][1..] == [];
    assert SortByRevenueDescending([c]) == [c];
    assert InsertDescending(b, [c]) == [c] + InsertDescending(b, []) == [c, b];
    assert SortByRevenueDescending([b, c]) == [c, b];
    assert InsertDescending(a, [c, b]) == [c] + InsertDescending(a, [b]) == [c, a, b];
  }

  /** With every revenue a number, the sorted entries are non-increasing by revenue. */
  lemma {:induction false} SortIsNonIncreasing(entries: seq<ChartEntry>)
    requires AllNumeric(entries)
    ensures NonIncreasing(SortByRevenueDescending(entries))
    ensures AllNumeric(SortByRevenueDescending(entries))
    decreases |entries|
  {
    if entries != [] {
      SortIsNonIncreasing(entries[1..]);
      InsertKeepsOrder(entries[0], SortByRevenueDescending(entries[1..]));
    }
  }

  lemma {:induction false} InsertKeepsTies(x: ChartEntry, sorted: seq<ChartEntry>, key: Option<real>)
    ensures WithSortKey(InsertDescending(x, sorted), key) ==
            (if AsNumber(x.revenue) == key then [x] else []) + WithSortKey(sorted, key)
    decreases |sorted|
  {
    var r := InsertDescending(x, sorted);
    var mine := if AsNumber(x.revenue) == key then [x] else [];
    if sorted != [] && Greater(sorted[0], x) {
      var head := if AsNumber(sorted[0].revenue) == key then [sorted[0]] else [];
      var rest := InsertDescending(x, sorted[1..]);
      InsertKeepsTies(x, sorted[1..], key);
      assert r != [] && r[0] == sorted[0] && r[1..] == rest;
      assert WithSortKey(r, key) == head + WithSortKey(rest, key);
      assert WithSortKey(sorted, key) == head + WithSortKey(sorted[1..], key);
      // `sorted[0]` is strictly greater than `x`, so at most one of them has the key.
      assert head == [] || mine == [];
    } else {
      assert r != [] && r[0] == x && r[1..] == sorted;
      assert WithSortKey(r, key) == mine + WithSortKey(sorted, key);
    }
  }

  /** The sort is stable: entries the comparator ties on equal numbers keep their relative order. */
  lemma {:induction false} SortIsStable(entries: seq<ChartEntry>, key: Option<real>)
    ensures WithSortKey(SortByRevenueDescending(entries), key) == WithSortKey(entries, key)
    decreases |entries|
  {
    if entries != [] {
      SortIsStable(entries[1..], key);
      InsertKeepsTies(entries[0], SortByRevenueDescending(entries[1..]), key);
    }
  }

  /**
   * `getFilteredData`: the selected year's entries whose segment is selected, relabelled
   * through the translator, sorted descending by revenue.
   */
  function GetFilteredData(worldData: seq<Row>, selectedYear: int, selectedSegments: seq<string>, t: string -> string)
    : (data: seq<ChartEntry>)
    ensures |data| <= |worldData|
    ensures multiset(data) == multiset(SelectAndRelabel(GetSegmentDataForYear(worldData, selectedYear), selectedSegments, t))
    ensures forall e :: e in data ==>
              && e.segmentKey in selectedSegments
              && e.segment == SegmentLabel(t, e.segmentKey)
              && exists i :: 0 <= i < |worldData| && worldData[i].Get("segment") == Text(e.segmentKey)
                                                  && worldData[i].Get(YearKey(selectedYear)) == e.revenue
    ensures forall i :: 0 <= i < |worldData| && worldData[i].Get("segment").Text? &&
                        worldData[i].Get("segment").s in selectedSegments ==>
              Relabel(t, worldData[i].Get("segment").s, worldData[i].Get(YearKey(selectedYear))) in data
  {
    var yearData := GetSegmentDataForYear(worldData, selectedYear);
    var selected := SelectAndRelabel(yearData, selectedSegments, t);
    var data := SortByRevenueDescending(selected);
    assert forall e :: e in data <==> e in selected by {
      forall e ensures e in data <==> e in selected {
        assert e in data <==> e in multiset(data);
      }
    }
    SubsequenceMembers(Sources(selected), yearData);
    forall e | e in data
      ensures exists i :: 0 <= i < |worldData| && worldData[i].Get("segment") == Text(e.segmentKey)
                                               && worldData[i].Get(YearKey(selectedYear)) == e.revenue
    {
      var k :| 0 <= k < |selected| && selected[k] == e;
      assert Source(e) in Sources(selected);
      var i :| 0 <= i < |yearData| && yearData[i] == Source(e);
    }
    forall i | 0 <= i < |worldData| && worldData[i].Get("segment").Text? &&
               worldData[i].Get("segment").s in selectedSegments
      ensures Relabel(t, worldData[i].Get("segment").s, worldData[i].Get(YearKey(selectedYear))) in data
    {
      assert yearData[i] in yearData && IsSelected(yearData[i], selectedSegments);
    }
    data
  }

  /** When every selected revenue is a number, the bars come out non-increasing by revenue. */
  lemma FilteredDataIsSorted(worldData: seq<Row>, selectedYear: int, selectedSegments: seq<string>, t: string -> string)
    requires AllNumeric(SelectAndRelabel(GetSegmentDataForYear(worldData, selectedYear), selectedSegments, t))
    ensures NonIncreasing(GetFilteredData(worldData, selectedYear, selectedSegments, t))
  {
    SortIsNonIncreasing(SelectAndRelabel(GetSegmentDataForYear(worldData, selectedYear), selectedSegments, t));
  }

  /** Bars with equal revenue appear in the order of the world rows they come from. */
  lemma FilteredDataKeepsTieOrder(worldData: seq<Row>, selectedYear: int, selectedSegments: seq<string>,
                                  t: string -> string, key: Option<real>)
    ensures WithSortKey(GetFilteredData(worldData, selectedYear, selectedSegments, t), key) ==
            WithSortKey(SelectAndRelabel(GetSegmentDataForYear(worldData, selectedYear), selectedSegments, t), key)
  {
    SortIsStable(SelectAndRelabel(GetSegmentDataForYear(worldData, selectedYear), selectedSegments, t), key);
  }

  /** Each year entry with a selected segment is the source of as many bars as it occurs; any other entry of none. */
  lemma FilteredDataCounts(worldData: seq<Row>, selectedYear: int, selectedSegments: seq<string>, t: string -> string)
    ensures forall item :: multiset(Sources(GetFilteredData(worldData, selectedYear, selectedSegments, t)))[item] ==
              if IsSelected(item, selectedSegments)
              then multiset(GetSegmentDataForYear(worldData, selectedYear))[item] else 0
  {
    var yearData := GetSegmentDataForYear(worldData, selectedYear);
    SelectAndRelabelCounts(yearData, selectedSegments, t);
    SourcesOfPermutation(GetFilteredData(worldData, selectedYear, selectedSegments, t),
                         SelectAndRelabel(yearData, selectedSegments, t));
  }
}
