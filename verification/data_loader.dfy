/**
 * The data-loading hook: the per-field coercion applied while parsing a CSV file,
 * the wrapping of fetch and parse failures, and the four-field load state that is
 * filled world file first, Amazon file second.
 *
 * The browser's `fetch`, the CSV parser and `parseFloat` are not modelled; each is a
 * parameter that yields an abstract outcome.
 */
module DataLoader {
  import opened Wrappers

  /** A field value after coercion, or JavaScript's `undefined` for a key a record lacks. */
  datatype Value = Num(x: real) | Text(s: string) | Undefined

  /** A parsed record: its own keys in enumeration order and the value under each key. */
  datatype Row = Row(keys: seq<string>, fields: map<string, Value>)
  {
    /** Property access `row[key]`: `undefined` when the key is absent. */
    function Get(key: string): Value
    {
      if key in fields then fields[key] else Undefined
    }
  }

  /** One row of the Amazon dataset, as the charts read it. */
  datatype AmazonRow = AmazonRow(year: int, revenue: real)

  /** A record as the CSV parser produces it before the transform runs: header name to raw text. */
  datatype RawRecord = RawRecord(keys: seq<string>, fields: map<string, string>)

  /** What the CSV parser reports: its `complete` callback (rows plus error messages) or its `error` callback. */
  datatype ParseResults = Complete(data: seq<RawRecord>, errors: seq<string>) | ParserError(message: string)

  /** A value thrown or rejected: an `Error` object with its message, or anything else. */
  datatype Thrown = ErrorObject(message: string) | OtherValue

  /** What `fetch(url)` followed by `response.text()` yields. */
  datatype FetchOutcome = Response(ok: bool, statusText: string, body: string) | NetworkFailure(reason: Thrown)

  /** The column that is never coerced to a number. */
  const LabelField := "segment"

  const WorldUrl := "/dataset/ecommerce_revenue.csv"
  const AmazonUrl := "/dataset/amazon_revenue.csv"
  const LoadErrorPrefix := "Error loading CSV file: "

  /**
   * The parser's `transform` callback: the label column and empty fields stay text;
   * any other field becomes a number when `parseFloat` gives one, and otherwise stays text.
   */
  function Transform(value: string, field: string, parseFloat: string -> Option<real>): (v: Value)
    ensures field == LabelField ==> v == Text(value)
    ensures value == "" ==> v == Text(value)
    ensures field != LabelField && value != "" && parseFloat(value).Some? ==> v == Num(parseFloat(value).value)
    ensures v.Num? || v == Text(value)
    ensures v.Num? <==> field != LabelField && value != "" && parseFloat(value).Some?
  {
    if field != LabelField && value != "" then
      match parseFloat(value)
      case Some(n) => Num(n)
      case None => Text(value)
    else
      Text(value)
  }

  /** The transform applied to every field of one record; the keys and their order are kept. */
  function TransformRecord(raw: RawRecord, parseFloat: string -> Option<real>): (row: Row)
    ensures row.keys == raw.keys
    ensures row.fields.Keys == raw.fields.Keys
    ensures forall k :: k in raw.fields ==> row.fields[k] == Transform(raw.fields[k], k, parseFloat)
  {
    Row(raw.keys, map k | k in raw.fields :: Transform(raw.fields[k], k, parseFloat))
  }

  /** The transform applied to every record, in record order. */
  function TransformRecords(data: seq<RawRecord>, parseFloat: string -> Option<real>): (rows: seq<Row>)
    ensures |rows| == |data|
    ensures forall i :: 0 <= i < |data| ==> rows[i] == TransformRecord(data[i], parseFloat)
  {
    seq(|data|, i requires 0 <= i < |data| => TransformRecord(data[i], parseFloat))
  }

  /** The message the `catch` block of the file loader uses for a thrown value. */
  function ThrownMessage(t: Thrown): string
  {
    match t
    case ErrorObject(m) => m
    case OtherValue => "Unknown error"
  }

  /**
   * `loadCSVFile(url)`. A network failure or a non-ok response is thrown inside the
   * `try` and re-thrown with the prefix "Error loading CSV file: ". The parse promise is
   * returned without `await`, so its rejection leaves the `try` uncaught: a parse
   * failure carries the parser's own message, without the prefix.
   */
  function LoadCsvFile(url: string, fetched: FetchOutcome, parse: string -> ParseResults,
                       parseFloat: string -> Option<real>): (r: Result<seq<Row>, string>)
    ensures r.Success? <==>
      fetched.Response? && fetched.ok && parse(fetched.body).Complete? && parse(fetched.body).errors == []
    ensures r.Success? ==> r.value == TransformRecords(parse(fetched.body).data, parseFloat)
    ensures fetched.NetworkFailure? ==> r == Failure(LoadErrorPrefix + ThrownMessage(fetched.reason))
    ensures fetched.Response? && !fetched.ok ==>
      r == Failure(LoadErrorPrefix + "Failed to fetch " + url + ": " + fetched.statusText)
    ensures fetched.Response? && fetched.ok && parse(fetched.body).Complete? && parse(fetched.body).errors != [] ==>
      r == Failure(parse(fetched.body).errors[0])
    ensures fetched.Response? && fetched.ok && parse(fetched.body).ParserError? ==>
      r == Failure(parse(fetched.body).message)
  {
    match fetched
    case NetworkFailure(reason) => Failure(LoadErrorPrefix + ThrownMessage(reason))
    case Response(ok, statusText, body) =>
      if !ok then Failure(LoadErrorPrefix + "Failed to fetch " + url + ": " + statusText)
      else
        match parse(body)
        case ParserError(message) => Failure(message)
        case Complete(data, errors) =>
          if |errors| > 0 then Failure(errors[0]) else Success(TransformRecords(data, parseFloat))
  }

  /** The state the hook exposes: both datasets, the loading flag and the error message. */
  class DataLoaderHook {
    var worldData: seq<Row>
    var amazonData: seq<Row>
    var isLoading: bool
    var error: Option<string>

    /** The state right after the hook mounts: no data, loading, no error. */
    constructor ()
      ensures worldData == [] && amazonData == [] && isLoading && error == None
    {
      worldData := [];
      amazonData := [];
      isLoading := true;
      error := None;
    }

    /**
     * `loadData`: raise the loading flag and clear the error, load the world file and
     * store it, then load the Amazon file and store it; the first failure stops the
     * sequence and records its message; the loading flag is lowered in every case.
     * Nothing already stored is rolled back.
     */
    method LoadData(fetch: string -> FetchOutcome, parse: string -> ParseResults,
                    parseFloat: string -> Option<real>)
      modifies this
      ensures !isLoading
      ensures var world := LoadCsvFile(WorldUrl, fetch(WorldUrl), parse, parseFloat);
              var amazon := LoadCsvFile(AmazonUrl, fetch(AmazonUrl), parse, parseFloat);
              match world
              case Failure(m) =>
                worldData == old(worldData) && amazonData == old(amazonData) && error == Some(m)
              case Success(w) =>
                worldData == w &&
                match amazon
                case Failure(m) => amazonData == old(amazonData) && error == Some(m)
                case Success(a) => amazonData == a && error == None
    {
      isLoading := true;
      error := None;
      var world := LoadCsvFile(WorldUrl, fetch(WorldUrl), parse, parseFloat);
      if world.Failure? {
        error := Some(world.error);
      } else {
        worldData := world.value;
        var amazon := LoadCsvFile(AmazonUrl, fetch(AmazonUrl), parse, parseFloat);
        if amazon.Failure? {
          error := Some(amazon.error);
        } else {
          amazonData := amazon.value;
        }
      }
      isLoading := false;
    }
  }

  /**
   * The hook as a component uses it: mounted once, then its one load sequence run.
   * Returns the four fields it exposes afterwards.
   */
  method UseDataLoader(fetch: string -> FetchOutcome, parse: string -> ParseResults,
                       parseFloat: string -> Option<real>)
    returns (worldData: seq<Row>, amazonData: seq<Row>, isLoading: bool, error: Option<string>)
    ensures !isLoading
    ensures var world := LoadCsvFile(WorldUrl, fetch(WorldUrl), parse, parseFloat);
            var amazon := LoadCsvFile(AmazonUrl, fetch(AmazonUrl), parse, parseFloat);
            && (error.Some? <==> world.Failure? || amazon.Failure?)
            && (world.Failure? ==> worldData == [] && amazonData == [] && error == Some(world.error))
            && (world.Success? && amazon.Failure? ==>
                  worldData == world.value && amazonData == [] && error == Some(amazon.error))
            && (world.Success? && amazon.Success? ==>
                  worldData == world.value && amazonData == amazon.value && error == None)
  {
    var hook := new DataLoaderHook();
    hook.LoadData(fetch, parse, parseFloat);
    worldData, amazonData, isLoading, error := hook.worldData, hook.amazonData, hook.isLoading, hook.error;
  }

  /** A fetch failure always reaches the hook's error with the loader's prefix. */
  lemma FetchFailuresArePrefixed(url: string, fetched: FetchOutcome, parse: string -> ParseResults,
                                 parseFloat: string -> Option<real>)
    requires fetched.NetworkFailure? || !fetched.ok
    ensures var r := LoadCsvFile(url, fetched, parse, parseFloat);
            r.Failure? && |r.error| >= |LoadErrorPrefix| && r.error[..|LoadErrorPrefix|] == LoadErrorPrefix
  {
  }

  /** A parse failure reaches the hook's error as the parser's first message, without the prefix. */
  lemma ParseFailuresAreNotPrefixed(url: string, status: string, body: string, parse: string -> ParseResults,
                                    parseFloat: string -> Option<real>)
    requires parse(body).Complete? && parse(body).errors != []
    ensures LoadCsvFile(url, Response(true, status, body), parse, parseFloat) == Failure(parse(body).errors[0])
  {
  }
}
