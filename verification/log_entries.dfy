/** The log entries of `dc_logging_client/log_entries.py`: the closed set of products, the
    validation every entry runs after its dataclass `__init__` (the product must be a
    `DCProduct` member and is replaced by its string value), the `datetime` attribute a
    postcode entry without a timestamp gains, and `as_log_line`, the sorted-key JSON of the
    instance attributes. */
module LogEntries {
  import opened Wrappers
  import opened Text
  import opened Calendar
  import opened Json

  // ---------------------------------------------------------------- DCProduct

  /** `DCProduct`, a `unique` enum. */
  datatype DCProduct = Wcivf | Wdiv | AggregatorApi | EcApi | Ynr | ElectionLeaflets

  const AllProducts: seq<DCProduct> := [Wcivf, Wdiv, AggregatorApi, EcApi, Ynr, ElectionLeaflets]

  /** `member.value`. */
  function ProductValue(p: DCProduct): string
  {
    match p
    case Wcivf => "WCIVF"
    case Wdiv => "WDIV"
    case AggregatorApi => "AGGREGATOR_API"
    case EcApi => "EC_API"
    case Ynr => "YNR"
    case ElectionLeaflets => "ELECTION_LEAFLETS"
  }

  /** `member.name`. */
  function ProductName(p: DCProduct): string
  {
    match p
    case Wcivf => "wcivf"
    case Wdiv => "wdiv"
    case AggregatorApi => "aggregator_api"
    case EcApi => "ec_api"
    case Ynr => "ynr"
    case ElectionLeaflets => "election_leaflets"
  }

  /** There are six members, and no two share a value (what `enum.unique` and the literals
      guarantee), so a value names exactly one member. */
  lemma ProductsDistinct()
    ensures |AllProducts| == 6 && forall p: DCProduct :: p in AllProducts
    ensures forall i, j :: 0 <= i < j < |AllProducts| ==> ProductValue(AllProducts[i]) != ProductValue(AllProducts[j])
    ensures forall p: DCProduct, q: DCProduct :: ProductValue(p) == ProductValue(q) ==> p == q
  {
    forall p: DCProduct ensures p in AllProducts {
      match p
      case Wcivf => assert AllProducts[0] == p;
      case Wdiv => assert AllProducts[1] == p;
      case AggregatorApi => assert AllProducts[2] == p;
      case EcApi => assert AllProducts[3] == p;
      case Ynr => assert AllProducts[4] == p;
      case ElectionLeaflets => assert AllProducts[5] == p;
    }
  }

  // ---------------------------------------------------------------- ValidDCProductMixin

  /** What the `dc_product` field holds: a `DCProduct` member, or any other object, known by
      the text `str()` gives for it (a string is its own text). */
  datatype Value = Member(product: DCProduct) | Other(text: string)

  function Unsupported(text: string): PyError
  {
    ValueError("'" + text + "' is not currently supported")
  }

  /** The check of `ValidDCProductMixin.__post_init__`: a member is replaced by its string
      value; anything else, a string spelling a value included, is refused with its text. */
  function ValidateProduct(v: Value): (r: Result<string>)
    ensures r.Ok? <==> v.Member?
    ensures r.Ok? ==> r.value in set p: DCProduct :: ProductValue(p)
    ensures r.Ok? ==> r.value == ProductValue(v.product)
    ensures r.Err? ==> r.error == Unsupported(v.text)
  {
    match v
    case Member(p) => Ok(ProductValue(p))
    case Other(text) => Err(Unsupported(text))
  }

  /** The string a valid entry holds names the member it was built from. */
  lemma ValidatedNamesMember(p: DCProduct, q: DCProduct)
    requires ValidateProduct(Member(p)) == ValidateProduct(Member(q))
    ensures p == q
  {
    ProductsDistinct();
  }

  /** The string "WCIVF" is not the member `DCProduct.wcivf`, so it is refused. */
  lemma PlainStringRefused()
    ensures "WCIVF" == ProductValue(Wcivf)
    ensures ValidateProduct(Other("WCIVF")) == Err(Unsupported("WCIVF"))
  {
  }

  /** How the field is written by `json.dumps(..., default=str)`: a string as itself, a member
      (present only if the field is reassigned after validation) through `str()`. */
  function ProductJson(v: Value): JsonValue
  {
    match v
    case Member(p) => JStr("DCProduct." + ProductName(p))
    case Other(text) => JStr(text)
  }

  // ---------------------------------------------------------------- attribute names

  const DcProductKey := "dc_product"
  const TextKey := "text"
  const PostcodeKey := "postcode"
  const TimestampKey := "timestamp"
  const ApiKeyKey := "api_key"
  const DatetimeKey := "datetime"

  // ---------------------------------------------------------------- BaseLogEntry.as_log_line

  /** `as_log_line(newline)` of an instance whose `__dict__` holds `attributes`: their sorted-key
      JSON, then a newline when asked for. */
  function LogLine(attributes: seq<Item>, newline: bool, quote: string -> string, show: DateTime -> string): (line: string)
    ensures var json := Dumps(attributes, quote, show);
      |line| == |json| + (if newline then 1 else 0) && line[..|json|] == json
      && line[|line| - 1] == (if newline then '\n' else '}')
  {
    var json := Dumps(attributes, quote, show);
    var line := json + (if newline then "\n" else "");
    assert line[..|json|] == json;
    line
  }

  // ---------------------------------------------------------------- DummyLogEntry

  /** The attributes of a `DummyLogEntry`, in the order its `__init__` sets them. */
  function DummyAttributes(dcProduct: Value, text: string): seq<Item>
  {
    [(DcProductKey, ProductJson(dcProduct)), (TextKey, JStr(text))]
  }

  /** `DummyLogEntry(dc_product, text)`. */
  class DummyLogEntry {
    var dcProduct: Value
    var text: string

    /** The dataclass `__init__` before `__post_init__` runs. */
    constructor Init(dcProduct: Value, text: string)
      ensures this.dcProduct == dcProduct && this.text == text
    {
      this.dcProduct := dcProduct;
      this.text := text;
    }

    /** The inherited `ValidDCProductMixin.__post_init__`. */
    method PostInit() returns (err: Option<PyError>)
      modifies this
      ensures err.Some? <==> old(dcProduct).Other?
      ensures err.Some? ==> err.value == Unsupported(old(dcProduct).text) && dcProduct == old(dcProduct)
      ensures err.None? ==> dcProduct == Other(ProductValue(old(dcProduct).product))
      ensures text == old(text)
    {
      var r := ValidateProduct(dcProduct);
      if r.Err? {
        return Some(r.error);
      }
      dcProduct := Other(r.value);
      return None;
    }

    function Attributes(): seq<Item>
      reads this
    {
      DummyAttributes(dcProduct, text)
    }

    /** `as_log_line(newline)`. */
    function AsLogLine(newline: bool, quote: string -> string, show: DateTime -> string): string
      reads this
    {
      LogLine(Attributes(), newline, quote, show)
    }
  }

  /** `DummyLogEntry(dc_product=..., text=...)`: the new entry, or the ValueError its
      validation raises. */
  method NewDummyLogEntry(dcProduct: Value, text: string) returns (r: Result<DummyLogEntry>)
    ensures r.Ok? <==> dcProduct.Member?
    ensures r.Err? ==> r.error == Unsupported(dcProduct.text)
    ensures r.Ok? ==> (fresh(r.value) && r.value.dcProduct == Other(ProductValue(dcProduct.product))
      && r.value.text == text)
  {
    var e := new DummyLogEntry.Init(dcProduct, text);
    var err := e.PostInit();
    if err.Some? {
      return Err(err.value);
    }
    return Ok(e);
  }

  // ---------------------------------------------------------------- PostcodeLogEntry

  /** The `timestamp` field: a `datetime`, or a string (the default is ""). */
  datatype Timestamp = Text(s: string) | At(dt: DateTime)

  /** `not timestamp`: only the empty string is falsy; a `datetime` never is. */
  predicate Falsy(t: Timestamp)
  {
    t == Text("")
  }

  function TimestampJson(t: Timestamp): JsonValue
  {
    match t
    case Text(s) => JStr(s)
    case At(dt) => JDateTime(dt)
  }

  /** The attributes of a `PostcodeLogEntry`, in the order they were set: the four fields, then
      the `datetime` attribute when there is one. */
  function PostcodeAttributes(dcProduct: Value, postcode: string, timestamp: Timestamp, apiKey: string,
                              datetime: Option<DateTime>): (attrs: seq<Item>)
    ensures |attrs| == if datetime.Some? then 5 else 4
  {
    [(DcProductKey, ProductJson(dcProduct)), (PostcodeKey, JStr(postcode)),
     (TimestampKey, TimestampJson(timestamp)), (ApiKeyKey, JStr(apiKey))]
    + (if datetime.Some? then [(DatetimeKey, JDateTime(datetime.value))] else [])
  }

  /** `PostcodeLogEntry(dc_product, postcode, timestamp="", api_key="")`. `datetime` is the
      attribute `__post_init__` may add, absent until then. */
  class PostcodeLogEntry {
    var dcProduct: Value
    var postcode: string
    var timestamp: Timestamp
    var apiKey: string
    var datetime: Option<DateTime>

    /** The dataclass `__init__` before `__post_init__` runs. */
    constructor Init(dcProduct: Value, postcode: string, timestamp: Timestamp := Text(""), apiKey: string := "")
      ensures this.dcProduct == dcProduct && this.postcode == postcode && this.timestamp == timestamp
      ensures this.apiKey == apiKey && this.datetime.None?
    {
      this.dcProduct := dcProduct;
      this.postcode := postcode;
      this.timestamp := timestamp;
      this.apiKey := apiKey;
      this.datetime := None;
    }

    /** `PostcodeLogEntry.__post_init__`: the product check, then, without a timestamp, the
        current time (`now`) in a new `datetime` attribute. Nothing else changes. */
    method PostInit(now: DateTime) returns (err: Option<PyError>)
      modifies this
      ensures err.Some? <==> old(dcProduct).Other?
      ensures err.Some? ==> (err.value == Unsupported(old(dcProduct).text)
        && dcProduct == old(dcProduct) && datetime == old(datetime))
      ensures err.None? ==> (dcProduct == Other(ProductValue(old(dcProduct).product))
        && datetime == (if Falsy(old(timestamp)) then Some(now) else old(datetime)))
      ensures postcode == old(postcode) && timestamp == old(timestamp) && apiKey == old(apiKey)
    {
      var r := ValidateProduct(dcProduct);
      if r.Err? {
        return Some(r.error);
      }
      dcProduct := Other(r.value);
      if Falsy(timestamp) {
        datetime := Some(now);
      }
      return None;
    }

    function Attributes(): seq<Item>
      reads this
    {
      PostcodeAttributes(dcProduct, postcode, timestamp, apiKey, datetime)
    }

    /** `as_log_line(newline)`. */
    function AsLogLine(newline: bool, quote: string -> string, show: DateTime -> string): string
      reads this
    {
      LogLine(Attributes(), newline, quote, show)
    }
  }

  /** `PostcodeLogEntry(...)` at time `now`: the new entry, or the ValueError its validation
      raises. */
  method NewPostcodeLogEntry(dcProduct: Value, postcode: string, timestamp: Timestamp, apiKey: string, now: DateTime)
    returns (r: Result<PostcodeLogEntry>)
    ensures r.Ok? <==> dcProduct.Member?
    ensures r.Err? ==> r.error == Unsupported(dcProduct.text)
    ensures r.Ok? ==> (fresh(r.value) && r.value.dcProduct == Other(ProductValue(dcProduct.product))
      && r.value.postcode == postcode && r.value.timestamp == timestamp && r.value.apiKey == apiKey
      && r.value.datetime == (if Falsy(timestamp) then Some(now) else None))
  {
    var e := new PostcodeLogEntry.Init(dcProduct, postcode, timestamp, apiKey);
    var err := e.PostInit(now);
    if err.Some? {
      return Err(err.value);
    }
    return Ok(e);
  }

  // ---------------------------------------------------------------- the keys of a log line

  /** The key order `sorted` uses on the attribute names. */
  lemma KeyOrder()
    ensures StrLess(ApiKeyKey, DatetimeKey) && StrLess(DatetimeKey, DcProductKey)
    ensures StrLess(DcProductKey, PostcodeKey) && StrLess(PostcodeKey, TimestampKey)
    ensures StrLess(DcProductKey, TextKey)
  {
  }

  /** Four fields whose keys rank the last first and the others in order sort that way. */
  lemma SortFields(a0: Item, a1: Item, a2: Item, a3: Item)
    requires StrLess(a3.0, a0.0) && StrLess(a0.0, a1.0) && StrLess(a1.0, a2.0)
    ensures SortByKey([a0, a1, a2, a3]) == [a3, a0, a1, a2]
  {
    StrLessAsymmetric(a0.0, a1.0);
    StrLessAsymmetric(a1.0, a2.0);
    StrLessTransitive(a0.0, a1.0, a2.0);
    StrLessAsymmetric(a0.0, a2.0);
    assert [a0, a1, a2, a3] == [a0, a1] + [a2] + [a3];
    assert [a0, a1] == [a0] + [a1];
    SortSnoc([a0], a1);
    assert Insert(a1, [a0]) == [a0, a1];
    SortSnoc([a0, a1], a2);
    assert Insert(a2, [a1]) == [a1, a2];
    assert Insert(a2, [a0, a1]) == [a0, a1, a2];
    SortSnoc([a0, a1, a2], a3);
  }

  /** An item ranked between the first two of a sorted list goes between them. */
  lemma InsertSecond(a0: Item, a1: Item, a2: Item, a3: Item, a4: Item)
    requires StrLess(a3.0, a4.0) && StrLess(a4.0, a0.0)
    ensures Insert(a4, [a3, a0, a1, a2]) == [a3, a4, a0, a1, a2]
  {
    StrLessAsymmetric(a3.0, a4.0);
    assert [a3, a0, a1, a2][1..] == [a0, a1, a2];
  }

  /** A postcode entry's log line lists each attribute once, in key order: `datetime` sits
      between `api_key` and `dc_product` when present. */
  lemma PostcodeKeys(dcProduct: Value, postcode: string, timestamp: Timestamp, apiKey: string,
                     datetime: Option<DateTime>)
    ensures Keys(SortByKey(PostcodeAttributes(dcProduct, postcode, timestamp, apiKey, datetime)))
      == if datetime.Some? then [ApiKeyKey, DatetimeKey, DcProductKey, PostcodeKey, TimestampKey]
         else [ApiKeyKey, DcProductKey, PostcodeKey, TimestampKey]
  {
    var attrs := PostcodeAttributes(dcProduct, postcode, timestamp, apiKey, datetime);
    var a0, a1, a2, a3 := attrs[0], attrs[1], attrs[2], attrs[3];
    assert attrs[..4] == [a0, a1, a2, a3];
    KeyOrder();
    StrLessTransitive(ApiKeyKey, DatetimeKey, DcProductKey);
    SortFields(a0, a1, a2, a3);
    if datetime.Some? {
      var a4 := attrs[4];
      assert attrs == attrs[..4] + [a4];
      SortSnoc(attrs[..4], a4);
      InsertSecond(a0, a1, a2, a3, a4);
    } else {
      assert attrs == attrs[..4];
    }
  }

  /** A dummy entry's log line lists `dc_product`, then `text`. */
  lemma DummyKeys(dcProduct: Value, text: string)
    ensures Keys(SortByKey(DummyAttributes(dcProduct, text))) == [DcProductKey, TextKey]
  {
    var attrs := DummyAttributes(dcProduct, text);
    assert attrs == [attrs[0]] + [attrs[1]];
    SortSnoc([attrs[0]], attrs[1]);
    KeyOrder();
    StrLessAsymmetric(DcProductKey, TextKey);
  }
}
