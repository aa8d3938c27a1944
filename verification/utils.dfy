/**
 * The row-shaping helpers the charts call: column-key projections, the per-year
 * projection of the world table, the segment-major flattening, and the year filter.
 */
module Utils {
  import opened Sequences
  import opened DataLoader

  /** A `{segment, revenue}` pair handed to a chart. */
  datatype SegmentRevenue = SegmentRevenue(segment: Value, revenue: Value)

  // ---------------------------------------------------------------------------
  // Decimal spelling of a year: the template literal `${year}`.

  function DigitChar(d: nat): (c: char)
    requires d < 10
    ensures '0' <= c <= '9' && (c as int) - ('0' as int) == d
  {
    ('0' as int + d) as char
  }

  predicate AllDigits(s: string)
  {
    forall i :: 0 <= i < |s| ==> '0' <= s[i] <= '9'
  }

  /** The decimal digits of `n`, most significant first, without leading zeros. */
  function NatToDecimal(n: nat): (s: string)
    ensures |s| >= 1 && AllDigits(s)
    ensures |s| > 1 ==> s[0] != '0'
  {
    if n < 10 then [DigitChar(n)] else NatToDecimal(n / 10) + [DigitChar(n % 10)]
  }

  /** The value of a string of decimal digits. */
  function DecimalValue(s: string): nat
    requires AllDigits(s)
  {
    if s == [] then 0 else DecimalValue(s[..|s| - 1]) * 10 + ((s[|s| - 1] as int) - ('0' as int))
  }

  /** The number's decimal spelling, as JavaScript writes an integer: a minus sign for negatives. */
  function YearKey(year: int): string
  {
    if year < 0 then "-" + NatToDecimal(-year) else NatToDecimal(year)
  }

  /** Reading the decimal spelling back gives the number. */
  lemma {:induction false} DecimalRoundTrip(n: nat)
    ensures DecimalValue(NatToDecimal(n)) == n
  {
    if n >= 10 {
      DecimalRoundTrip(n / 10);
      var s := NatToDecimal(n);
      assert s[..|s| - 1] == NatToDecimal(n / 10);
    }
  }

  /** Distinct years are spelled with distinct keys, so each year selects its own column. */
  lemma YearKeyInjective(a: int, b: int)
    ensures YearKey(a) == YearKey(b) <==> a == b
  {
    if YearKey(a) == YearKey(b) {
      var sa, sb := YearKey(a), YearKey(b);
      assert (a < 0) == (sa[0] == '-') && (b < 0) == (sb[0] == '-');
      if a < 0 {
        assert NatToDecimal(-a) == sa[1..] == NatToDecimal(-b);
        DecimalRoundTrip(-a);
        DecimalRoundTrip(-b);
      } else {
        DecimalRoundTrip(a);
        DecimalRoundTrip(b);
      }
    }
  }

  // ---------------------------------------------------------------------------
  // Column-key projections.

  /** The first row's keys without `excluded`, or nothing for an empty table. */
  function FirstRowKeysExcept(data: seq<Row>, excluded: string): (keys: seq<string>)
    ensures data == [] ==> keys == []
    ensures excluded !in keys
    ensures data != [] ==> IsSubsequence(keys, data[0].keys)
    ensures data != [] ==> forall k :: k != excluded ==> multiset(keys)[k] == multiset(data[0].keys)[k]
  {
    if data == [] then [] else RemoveAll(data[0].keys, excluded)
  }

  /** `getAvailableSegments`: every key of the first row except `Year`. */
  function GetAvailableSegments(data: seq<Row>): (segments: seq<string>)
    ensures data == [] ==> segments == []
    ensures "Year" !in segments
    ensures data != [] ==> IsSubsequence(segments, data[0].keys)
    ensures data != [] ==> forall k :: k in segments <==> k in data[0].keys && k != "Year"
  {
    var r := FirstRowKeysExcept(data, "Year");
    MembersAgree(data, "Year", r);
    r
  }

  /** `getAvailableYears`: every key of the first row except `segment`, as strings. */
  function GetAvailableYears(data: seq<Row>): (years: seq<string>)
    ensures data == [] ==> years == []
    ensures "segment" !in years
    ensures data != [] ==> IsSubsequence(years, data[0].keys)
    ensures data != [] ==> forall k :: k in years <==> k in data[0].keys && k != "segment"
  {
    var r := FirstRowKeysExcept(data, "segment");
    MembersAgree(data, "segment", r);
    r
  }

  lemma MembersAgree(data: seq<Row>, excluded: string, keys: seq<string>)
    requires keys == FirstRowKeysExcept(data, excluded)
    ensures data != [] ==> forall k :: k in keys <==> k in data[0].keys && k != excluded
  {
    if data != [] {
      forall k ensures k in keys <==> k in data[0].keys && k != excluded {
        if k != excluded {
          assert multiset(keys)[k] == multiset(data[0].keys)[k];
        }
      }
    }
  }

  // ---------------------------------------------------------------------------
  // Per-year projection and the segment-major flattening.

  /** `getSegmentDataForYear`: each row's segment and its value under the year's key. */
  function GetSegmentDataForYear(data: seq<Row>, year: int): (entries: seq<SegmentRevenue>)
    ensures |entries| == |data|
    ensures forall i :: 0 <= i < |data| ==> entries[i].segment == data[i].Get("segment")
    ensures forall i :: 0 <= i < |data| && YearKey(year) in data[i].fields ==>
              entries[i].revenue == data[i].fields[YearKey(year)]
    ensures forall i :: 0 <= i < |data| && YearKey(year) !in data[i].fields ==>
              entries[i].revenue == Undefined
  {
    var yearKey := YearKey(year);
    seq(|data|, i requires 0 <= i < |data| => SegmentRevenue(data[i].Get("segment"), data[i].Get(yearKey)))
  }

  /** The entries `formatWorldRevenueData` builds for one segment: one per row, in row order. */
  function SegmentBlock(segment: string, data: seq<Row>): (block: seq<SegmentRevenue>)
    ensures |block| == |data|
    ensures forall i :: 0 <= i < |data| ==> block[i] == SegmentRevenue(Text(segment), data[i].Get(segment))
  {
    seq(|data|, i requires 0 <= i < |data| => SegmentRevenue(Text(segment), data[i].Get(segment)))
  }

  /** The blocks of the given segments, concatenated in segment order. */
  function SegmentMajor(segments: seq<string>, data: seq<Row>): seq<SegmentRevenue>
  {
    if segments == [] then []
    else SegmentMajor(segments[..|segments| - 1], data) + SegmentBlock(segments[|segments| - 1], data)
  }

  /** The flattening holds one block of `|data|` entries per segment. */
  lemma {:induction false} SegmentMajorLength(segments: seq<string>, data: seq<Row>)
    ensures |SegmentMajor(segments, data)| == |segments| * |data|
  {
    if segments != [] {
      SegmentMajorLength(segments[..|segments| - 1], data);
      MulSucc(|segments| - 1, |data|);
    }
  }

  /** Entry `k * |data| + i` of the flattening is row `i` tagged with segment `k`. */
  lemma {:induction false} SegmentMajorAt(segments: seq<string>, data: seq<Row>, k: nat, i: nat)
    requires k < |segments| && i < |data|
    ensures k * |data| + i < |SegmentMajor(segments, data)|
    ensures SegmentMajor(segments, data)[k * |data| + i] == SegmentRevenue(Text(segments[k]), data[i].Get(segments[k]))
    decreases |segments|
  {
    var m, n := |segments| - 1, |data|;
    var prefix := segments[..m];
    SegmentMajorLength(prefix, data);
    SegmentMajorLength(segments, data);
    var flat := SegmentMajor(segments, data);
    assert flat == SegmentMajor(prefix, data) + SegmentBlock(segments[m], data);
    if k < m {
      SegmentMajorAt(prefix, data, k, i);
      MulMonotone(k + 1, m, n);
      MulSucc(k, n);
      assert prefix[k] == segments[k];
    } else {
      assert flat[k * n + i] == SegmentBlock(segments[m], data)[i];
    }
  }

  lemma MulSucc(a: nat, n: nat)
    ensures (a + 1) * n == a * n + n
  {
  }

  lemma {:induction false} MulMonotone(a: nat, b: nat, n: nat)
    requires a <= b
    ensures a * n <= b * n
    decreases b - a
  {
    if a < b {
      MulMonotone(a + 1, b, n);
      MulSucc(a, n);
    }
  }

  /**
   * `formatWorldRevenueData`: for each available segment in turn, one entry per row in
   * row order, tagged with that segment and carrying the row's value under it.
   */
  method FormatWorldRevenueData(data: seq<Row>) returns (formattedData: seq<SegmentRevenue>)
    ensures formattedData == SegmentMajor(GetAvailableSegments(data), data)
  {
    var segments := GetAvailableSegments(data);
    formattedData := [];
    for j := 0 to |segments|
      invariant formattedData == SegmentMajor(segments[..j], data)
    {
      var segment := segments[j];
      var segmentData := seq(|data|, i requires 0 <= i < |data| => SegmentRevenue(Text(segment), data[i].Get(segment)));
      formattedData := formattedData + segmentData;
      assert segments[..j + 1][..j] == segments[..j];
    }
    assert segments[..|segments|] == segments;
  }

  // ---------------------------------------------------------------------------
  // Year filter.

  predicate InYearRange(row: AmazonRow, startYear: int, end: int)
  {
    startYear <= row.year <= end
  }

  /** The rows whose year lies in `[startYear, end]`, in input order. */
  function FilterYears(data: seq<AmazonRow>, startYear: int, end: int): (kept: seq<AmazonRow>)
    ensures IsSubsequence(kept, data)
    ensures forall i :: 0 <= i < |kept| ==> InYearRange(kept[i], startYear, end)
    ensures forall row :: multiset(kept)[row] == if InYearRange(row, startYear, end) then multiset(data)[row] else 0
    decreases |data|
  {
    if data == [] then []
    else
      assert data == [data[0]] + data[1..];
      var rest := FilterYears(data[1..], startYear, end);
      if InYearRange(data[0], startYear, end) then
        assert ([data[0]] + rest)[1..] == rest;
        [data[0]] + rest
      else
        SubsequenceOfTail(rest, data);
        rest
  }

  /**
   * `filterAmazonDataByYear`: an `endYear` of 0 is falsy and stands for the current
   * calendar year, which the caller passes in.
   */
  function FilterAmazonDataByYear(data: seq<AmazonRow>, startYear: int, endYear: int, currentYear: int)
    : (filtered: seq<AmazonRow>)
    ensures var end := if endYear == 0 then currentYear else endYear;
            && IsSubsequence(filtered, data)
            && (forall i :: 0 <= i < |filtered| ==> startYear <= filtered[i].year <= end)
            && (forall row :: multiset(filtered)[row] ==
                  if startYear <= row.year <= end then multiset(data)[row] else 0)
  {
    FilterYears(data, startYear, if endYear == 0 then currentYear else endYear)
  }

  /** A later start year keeps a subsequence of what an earlier start year keeps. */
  lemma {:induction false} LaterStartKeepsSubsequence(data: seq<AmazonRow>, earlier: int, later: int, end: int)
    requires earlier <= later
    ensures IsSubsequence(FilterYears(data, later, end), FilterYears(data, earlier, end))
    decreases |data|
  {
    if data != [] {
      LaterStartKeepsSubsequence(data[1..], earlier, later, end);
      var narrow, wide := FilterYears(data[1..], later, end), FilterYears(data[1..], earlier, end);
      if InYearRange(data[0], later, end) {
        assert FilterYears(data, later, end) == [data[0]] + narrow;
        assert FilterYears(data, earlier, end) == [data[0]] + wide;
        assert ([data[0]] + narrow)[1..] == narrow && ([data[0]] + wide)[1..] == wide;
      } else if InYearRange(data[0], earlier, end) {
        assert FilterYears(data, earlier, end) == [data[0]] + wide;
        assert ([data[0]] + wide)[1..] == wide;
        SubsequenceOfTail(narrow, [data[0]] + wide);
      }
    }
  }
}
