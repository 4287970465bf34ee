/**
 * The price coordinator of `coordinator.py`: it turns the exchange's hourly records into an
 * hour -> price map, retries a failed download a bounded number of times, and keeps today's
 * and tomorrow's prices across refresh cycles, persisting them in a JSON store.
 *
 * The clock, the HTTP client and the store are not modelled as code: the current date is a
 * parameter, the API is an oracle from (query date, attempt number) to the decoded response
 * (`Null` when the request failed), and the store is a field holding the last saved JSON value.
 */
module Coordinator {
  import opened Wrappers
  import opened Text
  import opened OrderedDict
  import opened Json
  import opened Calendar

  /** Hour of the day -> price per kWh, in the order the hours were first written. */
  type PriceMap = Dict<int, real>

  /** The upstream API: the decoded response for a query date at a given attempt. */
  type Api = (Date, nat) -> Value

  const MaxAttempts: nat := 10

  // ---------------------------------------------------------------- round(x, 4)

  /** The integer nearest to `y`, ties going to the even neighbour. */
  function RoundHalfEven(y: real): (n: int)
    ensures -0.5 <= y - n as real <= 0.5
    ensures y - y.Floor as real == 0.5 ==> n % 2 == 0
  {
    var f := y.Floor;
    var frac := y - f as real;
    if frac > 0.5 || (frac == 0.5 && f % 2 != 0) then f + 1 else f
  }

  /** `round(x, 4)` on exact decimals: the nearest multiple of 0.0001, ties to even. */
  function Round4(x: real): (r: real)
    ensures -0.00005 <= r - x <= 0.00005
  {
    RoundHalfEven(x * 10000.0) as real / 10000.0
  }

  /**
   * `round(x, 4)` is a number with at most four decimals, and a tie between two such
   * numbers goes to the even one.
   */
  lemma Round4Decimals(x: real)
    ensures var r := Round4(x);
            && (r * 10000.0).Floor as real == r * 10000.0
            && var y := x * 10000.0; y - y.Floor as real == 0.5 ==> (r * 10000.0).Floor % 2 == 0
  {
    var n := RoundHalfEven(x * 10000.0);
    assert Round4(x) * 10000.0 == n as real;
    assert (n as real).Floor == n;
  }

  /** Rounding an already rounded price changes nothing. */
  lemma Round4Idempotent(x: real)
    ensures Round4(Round4(x)) == Round4(x)
  {
    var n := RoundHalfEven(x * 10000.0);
    assert Round4(x) * 10000.0 == n as real;
    assert (n as real).Floor == n;
  }

  // ---------------------------------------------------------------- _parse_prices

  /**
   * What `for attr in item.get("attributes", [])` iterates over. A string or a dict is
   * iterable, but its elements are strings, which `attr["name"]` cannot index; `None`,
   * booleans and numbers are not iterable at all.
   */
  function AttributeList(item: Dict<string, Value>): (r: Result<seq<Value>, PyError>)
    ensures r.Err? ==> r.error == TypeError
    ensures Get(item, "attributes").None? ==> r == Ok([])
    // a list is iterated as itself; an empty string or dict yields nothing, a non-empty one
    // yields strings, and anything else is not iterable
    ensures var attrs := Get(item, "attributes");
            attrs.Some? ==>
              && (attrs.value.Arr? ==> r == Ok(attrs.value.items))
              && (attrs.value.Str? ==> r == (if attrs.value.s == "" then Ok([]) else Err(TypeError)))
              && (attrs.value.Obj? ==> r == (if attrs.value.fields == [] then Ok([]) else Err(TypeError)))
              && (!attrs.value.Arr? && !attrs.value.Str? && !attrs.value.Obj? ==> r == Err(TypeError))
  {
    var attrs: Option<Value> := Get(item, "attributes");
    match attrs
    case None => Ok([])
    case Some(Arr(xs)) => Ok(xs)
    case Some(Str(s)) => if s == "" then Ok([]) else Err(TypeError)
    case Some(Obj(fs)) => if fs == [] then Ok([]) else Err(TypeError)
    case Some(_) => Err(TypeError)
  }

  /** An attribute dict naming something other than `price`, which the search steps over. */
  predicate OtherAttribute(attr: Value) {
    attr.Obj? && Get(attr.fields, "name").Some? && Get(attr.fields, "name") != Some(Str("price"))
  }

  /** An attribute dict named `price` and carrying a `value`. */
  predicate PriceAttribute(attr: Value) {
    attr.Obj? && Get(attr.fields, "name") == Some(Str("price")) && Get(attr.fields, "value").Some?
  }

  /**
   * The price of a record: `float(value)` of the first attribute named `price`, 0.0 when no
   * attribute is; a non-dict attribute, or one without `name` (or a `price` one without
   * `value`), raises.
   */
  function PriceOf(attrs: seq<Value>): (r: Result<real, PyError>)
    ensures (forall j :: 0 <= j < |attrs| ==> OtherAttribute(attrs[j])) ==> r == Ok(0.0)
    ensures forall i :: 0 <= i < |attrs| && PriceAttribute(attrs[i])
                        && (forall j :: 0 <= j < i ==> OtherAttribute(attrs[j]))
                        ==> r == FloatOf(Get(attrs[i].fields, "value").value)
  {
    if |attrs| == 0 then Ok(0.0)
    else
      var rest := PriceOf(attrs[1..]);
      assert forall j :: 1 <= j < |attrs| ==> attrs[1..][j - 1] == attrs[j];
      assert forall i :: 1 <= i < |attrs| && PriceAttribute(attrs[i])
                         && (forall j :: 1 <= j < i ==> OtherAttribute(attrs[j]))
                         ==> rest == FloatOf(Get(attrs[i].fields, "value").value);
      match attrs[0]
      case Obj(fs) =>
        (match Get(fs, "name")
         case None => Err(KeyError)
         case Some(name) =>
           if name == Str("price") then
             (match Get(fs, "value")
              case None => Err(KeyError)
              case Some(v) => FloatOf(v))
           else rest)
      case _ => Err(TypeError)
  }

  /**
   * The search fails at the first attribute it cannot step over: a non-dict raises
   * `TypeError`; a dict without `name`, or a `price` one without `value`, raises `KeyError`.
   */
  lemma {:induction false} PriceOfFails(attrs: seq<Value>, i: int)
    requires 0 <= i < |attrs| && forall j :: 0 <= j < i ==> OtherAttribute(attrs[j])
    ensures !attrs[i].Obj? ==> PriceOf(attrs) == Err(TypeError)
    ensures attrs[i].Obj? && Get(attrs[i].fields, "name").None? ==> PriceOf(attrs) == Err(KeyError)
    ensures (attrs[i].Obj? && Get(attrs[i].fields, "name") == Some(Str("price"))
             && Get(attrs[i].fields, "value").None?) ==> PriceOf(attrs) == Err(KeyError)
  {
    if i > 0 {
      assert OtherAttribute(attrs[0]);
      assert forall j :: 0 <= j < i - 1 ==> attrs[1..][j] == attrs[j + 1];
      PriceOfFails(attrs[1..], i - 1);
      assert PriceOf(attrs) == PriceOf(attrs[1..]);
    }
  }

  /**
   * One record of the response: the hour of its `date_time` and its price per kWh, `round(
   * price / 1000, 4)`; or the exception reading it raises.
   */
  function ParseRecord(item: Value): (r: Result<(int, real), PyError>)
    ensures r.Ok? ==> 0 <= r.value.0 < 24
    ensures !item.Obj? ==> r == Err(TypeError)
    ensures item.Obj? && Get(item.fields, "date_time").None? ==> r == Err(KeyError)
    ensures item.Obj? ==>
              var stamp := Get(item.fields, "date_time");
              && (stamp.Some? && !stamp.value.Str? ==> r == Err(TypeError))
              && (stamp.Some? && stamp.value.Str? && ParseDateTime(stamp.value.s).None? ==> r == Err(ValueError))
              && (stamp.Some? && stamp.value.Str? && ParseDateTime(stamp.value.s).Some? ==>
                    && (RecordPrice(item.fields).Err? ==> r == Err(RecordPrice(item.fields).error))
                    && (r.Ok? ==> r.value.0 == ParseDateTime(stamp.value.s).value.hour))
    ensures r.Ok? ==> item.Obj? && RecordPrice(item.fields) == Ok(r.value.1)
  {
    match item
    case Obj(fs) =>
      var text: Option<Value> := Get(fs, "date_time");
      (match text
       case None => Err(KeyError)
       case Some(Str(text)) =>
         (match ParseDateTime(text)
          case None => Err(ValueError)
          case Some(dt) =>
            match RecordPrice(fs)
            case Err(e) => Err(e)
            case Ok(p) => Ok((dt.hour, p)))
       case Some(_) => Err(TypeError))
    case _ => Err(TypeError)
  }

  /**
   * A record's price per kWh, `round(price / 1000, 4)`: a failing attribute list or price
   * attribute fails it with the same error.
   */
  function RecordPrice(fs: Dict<string, Value>): (r: Result<real, PyError>)
    ensures AttributeList(fs).Err? ==> r == Err(AttributeList(fs).error)
    ensures AttributeList(fs).Ok? && PriceOf(AttributeList(fs).value).Err? ==>
              r == Err(PriceOf(AttributeList(fs).value).error)
    ensures AttributeList(fs).Ok? ==> r == PerKwh(PriceOf(AttributeList(fs).value))
  {
    match AttributeList(fs)
    case Err(e) => Err(e)
    case Ok(attrs) => PerKwh(PriceOf(attrs))
  }

  /** `round(price_val / 1000, 4)` applied to a price read, passing its error on. */
  function PerKwh(price: Result<real, PyError>): (r: Result<real, PyError>)
    ensures r.Err? <==> price.Err?
    ensures r.Err? ==> r.error == price.error
    ensures r.Ok? ==> -0.00005 <= r.value - price.value / 1000.0 <= 0.00005
    ensures r.Ok? ==> r.value == Round4(price.value / 1000.0)
  {
    match price
    case Err(e) => Err(e)
    case Ok(p) => Ok(Round4(p / 1000.0))
  }

  /**
   * A record with a well-formed `date_time` reads as its hour and `round(float(value) / 1000,
   * 4)` of its first `price` attribute.
   */
  lemma RecordRead(fs: Dict<string, Value>, dt: DateTime, attrs: seq<Value>, i: int, x: real)
    requires ValidDateTime(dt) && Get(fs, "date_time") == Some(Str(FormatDateTime(dt)))
    requires Get(fs, "attributes") == Some(Arr(attrs))
    requires 0 <= i < |attrs| && PriceAttribute(attrs[i]) && forall j :: 0 <= j < i ==> OtherAttribute(attrs[j])
    requires FloatOf(Get(attrs[i].fields, "value").value) == Ok(x)
    ensures ParseRecord(Obj(fs)) == Ok((dt.hour, Round4(x / 1000.0)))
  {
    assert AttributeList(fs) == Ok(attrs);
    assert PriceOf(attrs) == Ok(x);
    PerKwhOf(x);
    StampedRecordRead(fs, dt, Round4(x / 1000.0));
  }

  /** A record with a well-formed `date_time` and no `price` attribute is priced at 0. */
  lemma RecordWithoutPriceRead(fs: Dict<string, Value>, dt: DateTime, attrs: seq<Value>)
    requires ValidDateTime(dt) && Get(fs, "date_time") == Some(Str(FormatDateTime(dt)))
    requires Get(fs, "attributes").None?
             || (Get(fs, "attributes") == Some(Arr(attrs)) && forall j :: 0 <= j < |attrs| ==> OtherAttribute(attrs[j]))
    ensures ParseRecord(Obj(fs)) == Ok((dt.hour, 0.0))
  {
    var listed := if Get(fs, "attributes").None? then [] else attrs;
    assert AttributeList(fs) == Ok(listed);
    assert PriceOf(listed) == Ok(0.0);
    PerKwhZero();
    StampedRecordRead(fs, dt, 0.0);
  }

  lemma StampedRecordRead(fs: Dict<string, Value>, dt: DateTime, p: real)
    requires ValidDateTime(dt) && Get(fs, "date_time") == Some(Str(FormatDateTime(dt)))
    requires RecordPrice(fs) == Ok(p)
    ensures ParseRecord(Obj(fs)) == Ok((dt.hour, p))
  {
    DateTimeRoundTrip(dt);
  }

  /** A price of 0 stays 0 per kWh. */
  lemma PerKwhZero()
    ensures PerKwh(Ok(0.0)) == Ok(0.0)
  {
    PerKwhOf(0.0);
    assert RoundHalfEven(0.0 / 1000.0 * 10000.0) == 0;
  }

  lemma PerKwhOf(x: real)
    ensures PerKwh(Ok(x)) == Ok(Round4(x / 1000.0))
  {
  }

  function RecordOutcomes(items: seq<Value>): (rs: seq<Option<(int, real)>>)
    ensures |rs| == |items|
    ensures forall i :: 0 <= i < |items| ==>
              rs[i] == if ParseRecord(items[i]).Ok? then Some(ParseRecord(items[i]).value) else None
  {
    seq(|items|, i requires 0 <= i < |items| =>
      if ParseRecord(items[i]).Ok? then Some(ParseRecord(items[i]).value) else None)
  }

  /** Every record's (hour, price), or `None` if reading any of them raised. */
  function ParsedRecords(items: seq<Value>): Option<seq<(int, real)>> {
    Collect(RecordOutcomes(items))
  }

  /**
   * The reference reading of "later records overwrite earlier ones": the price of the last
   * pair for hour `h`, if any.
   */
  function LastPrice(pairs: seq<(int, real)>, h: int): Option<real> {
    if |pairs| == 0 then None
    else
      var later := LastPrice(pairs[1..], h);
      if later.Some? then later
      else if pairs[0].0 == h then Some(pairs[0].1)
      else None
  }

  /** `LastPrice` is the price of the last pair for `h`, and is absent iff no pair has hour `h`. */
  lemma {:induction false} LastPriceIsLast(pairs: seq<(int, real)>, h: int)
    ensures LastPrice(pairs, h).Some? <==> exists i :: 0 <= i < |pairs| && pairs[i].0 == h
    ensures forall i :: 0 <= i < |pairs| && pairs[i].0 == h
                        && (forall j :: i < j < |pairs| ==> pairs[j].0 != h)
                        ==> LastPrice(pairs, h) == Some(pairs[i].1)
  {
    if |pairs| > 0 {
      var rest := pairs[1..];
      LastPriceIsLast(rest, h);
      assert forall i :: 1 <= i < |pairs| ==> pairs[i] == rest[i - 1];
      if exists i :: 0 <= i < |rest| && rest[i].0 == h {
        var i :| 0 <= i < |rest| && rest[i].0 == h;
        assert pairs[i + 1].0 == h;
      }
      forall i | 0 <= i < |pairs| && pairs[i].0 == h && (forall j :: i < j < |pairs| ==> pairs[j].0 != h)
        ensures LastPrice(pairs, h) == Some(pairs[i].1)
      {
        if i == 0 {
          assert forall k :: 0 <= k < |rest| ==> rest[k].0 != h by {
            forall k | 0 <= k < |rest| ensures rest[k].0 != h { assert rest[k] == pairs[k + 1]; }
          }
          assert LastPrice(rest, h).None?;
        } else {
          assert rest[i - 1] == pairs[i];
          assert forall j :: i - 1 < j < |rest| ==> rest[j].0 != h by {
            forall j | i - 1 < j < |rest| ensures rest[j].0 != h { assert rest[j] == pairs[j + 1]; }
          }
          assert LastPrice(rest, h) == Some(rest[i - 1].1);
        }
      }
    }
  }

  /** Writing pairs in order over a dict: each hour ends up with its last price. */
  lemma {:induction false} MergeLookup(a: PriceMap, pairs: seq<(int, real)>, h: int)
    ensures Get(Merge(a, pairs), h) == if LastPrice(pairs, h).Some? then LastPrice(pairs, h) else Get(a, h)
    decreases |pairs|
  {
    if |pairs| > 0 {
      MergeLookup(Put(a, pairs[0].0, pairs[0].1), pairs[1..], h);
    }
  }

  /** Writing pairs over a dict never shrinks it, adds at most one entry per pair, and keeps it a dict. */
  lemma {:induction false} MergeSize(a: PriceMap, pairs: seq<(int, real)>)
    ensures |a| <= |Merge(a, pairs)| <= |a| + |pairs|
    ensures |pairs| > 0 ==> |Merge(a, pairs)| > 0
    decreases |pairs|
  {
    if |pairs| > 0 {
      var a1 := Put(a, pairs[0].0, pairs[0].1);
      assert |a| <= |a1| <= |a| + 1 && |a1| > 0;
      MergeSize(a1, pairs[1..]);
    }
  }

  /** Writing one more pair at the end is one more assignment. */
  lemma {:induction false} MergeSnoc(a: PriceMap, pairs: seq<(int, real)>, p: (int, real))
    ensures Merge(a, pairs + [p]) == Put(Merge(a, pairs), p.0, p.1)
    decreases |pairs|
  {
    if |pairs| > 0 {
      assert (pairs + [p])[1..] == pairs[1..] + [p];
      MergeSnoc(Put(a, pairs[0].0, pairs[0].1), pairs[1..], p);
    } else {
      assert [p][1..] == [];
    }
  }

  /**
   * `_parse_prices(raw)`: `None` unless the response is a non-empty list whose every record
   * reads; otherwise each record's price stored under its hour, in order.
   */
  function ParsedPrices(raw: Value): (r: Option<PriceMap>)
    ensures r.Some? <==> raw.Arr? && |raw.items| > 0 && forall i :: 0 <= i < |raw.items| ==> ParseRecord(raw.items[i]).Ok?
  {
    if !raw.Arr? || |raw.items| == 0 then None
    else
      match ParsedRecords(raw.items)
      case None => None
      case Some(pairs) =>
        var prices := Merge([], pairs);
        MergeSize([], pairs);
        if |prices| != 24 then (if |prices| > 0 then Some(prices) else None)
        else Some(prices)
  }

  /**
   * A successful parse: a non-empty dict with at most one entry per record, whose keys are
   * exactly the records' hours (all within 0..23) and whose every hour holds the price of
   * the last record for that hour. A partial day is kept.
   */
  lemma ParsedPricesContents(raw: Value)
    requires ParsedPrices(raw).Some?
    ensures var prices := ParsedPrices(raw).value;
            var pairs := ParsedRecords(raw.items).value;
            && 0 < |prices| <= |raw.items|
            && Distinct(prices)
            && (forall h :: HasKey(prices, h) ==> 0 <= h < 24)
            && (forall h :: HasKey(prices, h) <==> exists i :: 0 <= i < |pairs| && pairs[i].0 == h)
            && (forall h :: Get(prices, h) == LastPrice(pairs, h))
            && (forall i :: 0 <= i < |pairs| ==> ParseRecord(raw.items[i]) == Ok(pairs[i]))
  {
    var pairs := ParsedRecords(raw.items).value;
    var prices := Merge([], pairs);
    MergeSize([], pairs);
    forall h
      ensures Get(prices, h) == LastPrice(pairs, h)
      ensures HasKey(prices, h) <==> exists i :: 0 <= i < |pairs| && pairs[i].0 == h
    {
      MergeLookup([], pairs, h);
      LastPriceIsLast(pairs, h);
    }
    forall h | HasKey(prices, h)
      ensures 0 <= h < 24
    {
      var i :| 0 <= i < |pairs| && pairs[i].0 == h;
      assert ParseRecord(raw.items[i]).Ok?;
    }
  }

  /** When every record reads, `ParsedPrices` is the dict built from their pairs in order. */
  lemma ParsedPricesOfRecords(raw: Value, pairs: seq<(int, real)>)
    requires raw.Arr? && |raw.items| > 0 && |pairs| == |raw.items|
    requires forall j :: 0 <= j < |pairs| ==> RecordOutcomes(raw.items)[j] == Some(pairs[j])
    ensures ParsedPrices(raw) == Some(Merge([], pairs))
  {
    CollectAllSome(RecordOutcomes(raw.items), pairs);
    MergeSize([], pairs);
  }

  /** The inner `for attr in ...` search with its `break`. */
  method FindPrice(attrs: seq<Value>) returns (r: Result<real, PyError>)
    ensures r == PriceOf(attrs)
  {
    var j := 0;
    while j < |attrs|
      invariant 0 <= j <= |attrs|
      invariant PriceOf(attrs[j..]) == PriceOf(attrs)
    {
      assert attrs[j..][1..] == attrs[j + 1..];
      var attr := attrs[j];
      if !attr.Obj? {
        return Err(TypeError);
      }
      var name := Get(attr.fields, "name");
      if name.None? {
        return Err(KeyError);
      }
      if name.value == Str("price") {
        var value := Get(attr.fields, "value");
        if value.None? {
          return Err(KeyError);
        }
        return FloatOf(value.value);
      }
      j := j + 1;
    }
    return Ok(0.0);
  }

  /** The body of the record loop: reads one record, raising as `_parse_prices` would. */
  method ReadRecord(item: Value) returns (r: Result<(int, real), PyError>)
    ensures r == ParseRecord(item)
  {
    if !item.Obj? {
      return Err(TypeError);
    }
    var text := Get(item.fields, "date_time");
    if text.None? {
      return Err(KeyError);
    }
    if !text.value.Str? {
      return Err(TypeError);
    }
    var dt := ParseDateTime(text.value.s);
    if dt.None? {
      return Err(ValueError);
    }
    var price := ReadRecordPrice(item.fields);
    if price.Err? {
      return Err(price.error);
    }
    return Ok((dt.value.hour, price.value));
  }

  /** The price half of the loop body. */
  method ReadRecordPrice(fs: Dict<string, Value>) returns (r: Result<real, PyError>)
    ensures r == RecordPrice(fs)
  {
    var attrs := AttributeList(fs);
    if attrs.Err? {
      return Err(attrs.error);
    }
    var price := FindPrice(attrs.value);
    return PerKwh(price);
  }

  /** `_parse_prices`: the record loop filling `prices`, abandoned on the first bad record. */
  method ParsePrices(raw: Value) returns (prices: Option<PriceMap>)
    ensures prices == ParsedPrices(raw)
  {
    if !raw.Arr? || |raw.items| == 0 {
      return None;
    }
    var items := raw.items;
    ghost var outcomes := RecordOutcomes(items);
    var table: PriceMap := [];
    ghost var pairs: seq<(int, real)> := [];
    var i := 0;
    while i < |items|
      invariant 0 <= i <= |items| && |pairs| == i
      invariant forall j :: 0 <= j < i ==> outcomes[j] == Some(pairs[j])
      invariant table == Merge([], pairs)
    {
      var record := ReadRecord(items[i]);
      if record.Err? {
        assert outcomes[i].None?;
        return None;
      }
      ExtendPresent(outcomes, pairs, record.value);
      MergeSnoc([], pairs, record.value);
      table := Put(table, record.value.0, record.value.1);
      pairs := pairs + [record.value];
      i := i + 1;
    }
    ParsedPricesOfRecords(raw, pairs);
    MergeSize([], pairs);
    if |table| != 24 {
      return if |table| > 0 then Some(table) else None;
    }
    return Some(table);
  }

  // ---------------------------------------------------------------- _fetch_with_retries

  /** What each of the ten attempts for `query` would parse to. */
  function Responses(query: Date, api: Api): (rs: seq<Option<PriceMap>>)
    ensures |rs| == MaxAttempts
    ensures forall k :: 0 <= k < MaxAttempts ==> rs[k] == ParsedPrices(api(query, k))
  {
    seq(MaxAttempts, k requires 0 <= k < MaxAttempts => ParsedPrices(api(query, k)))
  }

  /** `_fetch_with_retries(fetch_date)`: the API is queried for the day before. */
  function Fetch(fetchDate: Date, api: Api): (r: Option<PriceMap>)
    requires ValidDate(fetchDate) && fetchDate != Date(1, 1, 1)
    ensures r.Some? ==> exists k :: 0 <= k < MaxAttempts && r == ParsedPrices(api(PrevDay(fetchDate), k))
  {
    FirstSomeIsFirst(Responses(PrevDay(fetchDate), api));
    FirstSome(Responses(PrevDay(fetchDate), api))
  }

  /**
   * A fetch asks for the previous day's data, makes at most ten attempts, and yields the
   * first response that parses; it fails only when all ten fail.
   */
  lemma FetchFirstSuccess(fetchDate: Date, api: Api)
    requires ValidDate(fetchDate) && fetchDate != Date(1, 1, 1)
    ensures var query := PrevDay(fetchDate);
            && (Fetch(fetchDate, api).Some? <==>
                  exists k :: 0 <= k < MaxAttempts && ParsedPrices(api(query, k)).Some?)
            && (forall k :: 0 <= k < MaxAttempts && ParsedPrices(api(query, k)).Some?
                  && (forall j :: 0 <= j < k ==> ParsedPrices(api(query, j)).None?)
                  ==> Fetch(fetchDate, api) == ParsedPrices(api(query, k)))
  {
    FirstSomeIsFirst(Responses(PrevDay(fetchDate), api));
  }

  /** What a fetch yields is a non-empty dict. */
  lemma FetchedIsDict(fetchDate: Date, api: Api)
    requires ValidDate(fetchDate) && fetchDate != Date(1, 1, 1)
    ensures Fetch(fetchDate, api).Some? ==>
              HasPrices(Fetch(fetchDate, api)) && Distinct(Fetch(fetchDate, api).value)
  {
    var rs := Responses(PrevDay(fetchDate), api);
    FirstSomeIsFirst(rs);
    if FirstSome(rs).Some? {
      var k :| 0 <= k < |rs| && FirstSome(rs) == rs[k];
      ParsedPricesContents(api(PrevDay(fetchDate), k));
    }
  }

  /** The fetch outcome depends only on the responses to its own query date. */
  lemma FetchOnlyReadsQuery(fetchDate: Date, api1: Api, api2: Api)
    requires ValidDate(fetchDate) && fetchDate != Date(1, 1, 1)
    requires forall k :: 0 <= k < MaxAttempts ==> api1(PrevDay(fetchDate), k) == api2(PrevDay(fetchDate), k)
    ensures Fetch(fetchDate, api1) == Fetch(fetchDate, api2)
  {
    assert Responses(PrevDay(fetchDate), api1) == Responses(PrevDay(fetchDate), api2);
  }

  /** `_fetch_with_retries`: up to ten calls, returning on the first response that parses. */
  method FetchWithRetries(fetchDate: Date, api: Api) returns (prices: Option<PriceMap>, attempts: nat)
    requires ValidDate(fetchDate) && fetchDate != Date(1, 1, 1)
    ensures prices == Fetch(fetchDate, api)
    ensures 1 <= attempts <= MaxAttempts
    ensures prices.None? ==> attempts == MaxAttempts
    ensures prices.Some? ==> prices == ParsedPrices(api(PrevDay(fetchDate), attempts - 1))
  {
    var query := PrevDay(fetchDate);
    ghost var rs := Responses(query, api);
    attempts := 0;
    while attempts < MaxAttempts
      invariant 0 <= attempts <= MaxAttempts
      invariant FirstSome(rs[attempts..]) == Fetch(fetchDate, api)
    {
      assert rs[attempts..][1..] == rs[attempts + 1..];
      var raw := api(query, attempts);
      var parsed := ParsePrices(raw);
      attempts := attempts + 1;
      if parsed.Some? {
        return parsed, attempts;
      }
    }
    return None, attempts;
  }

  // ---------------------------------------------------------------- the refresh cycle

  /** `_internal_data`: the prices held for today and tomorrow, and the dates they are for. */
  datatype Internal = Internal(today: Option<PriceMap>, todayDate: Option<Date>,
                               tomorrow: Option<PriceMap>, tomorrowDate: Option<Date>)

  const NoData := Internal(None, None, None, None)

  /** Truthiness of a price dict: present and non-empty. */
  predicate HasPrices(m: Option<PriceMap>) {
    m.Some? && |m.value| > 0
  }

  /** What the state always satisfies: its maps are dicts and its dates real dates. */
  predicate ValidInternal(s: Internal) {
    && (s.today.Some? ==> Distinct(s.today.value))
    && (s.tomorrow.Some? ==> Distinct(s.tomorrow.value))
    && (s.todayDate.Some? ==> ValidDate(s.todayDate.value))
    && (s.tomorrowDate.Some? ==> ValidDate(s.tomorrowDate.value))
  }

  /** The clock reads a date whose neighbours Python can represent. */
  predicate ValidNow(now: Date) {
    ValidDate(now) && now != Date(1, 1, 1) && now != Date(9999, 12, 31)
  }

  predicate DayChanged(s: Internal, now: Date) {
    s.todayDate.Some? && Before(s.todayDate.value, now)
  }

  /** On a new day tomorrow's prices become today's. */
  function Rollover(s: Internal, now: Date): (r: Internal)
    ensures ValidInternal(s) ==> ValidInternal(r)
    ensures r.today == s.today || r.today == s.tomorrow
    ensures r.tomorrow.Some? ==> r == s
  {
    if DayChanged(s, now) then Internal(s.tomorrow, s.tomorrowDate, None, None) else s
  }

  predicate Missing(prices: Option<PriceMap>, date: Option<Date>, wanted: Date) {
    !HasPrices(prices) || date != Some(wanted)
  }

  /** The state after a cycle, and whether `data_updated` was set. */
  datatype CycleOutcome = CycleOutcome(state: Internal, updated: bool)

  /** Whether today's step downloads and installs prices: they are missing and the fetch succeeds. */
  predicate TodayFetched(s1: Internal, now: Date, api: Api)
    requires ValidNow(now)
  {
    Missing(s1.today, s1.todayDate, now) && Fetch(now, api).Some?
  }

  /** Today's step of the cycle. */
  function WithToday(s1: Internal, now: Date, api: Api): Internal
    requires ValidNow(now)
  {
    if TodayFetched(s1, now, api) then s1.(today := Fetch(now, api), todayDate := Some(now)) else s1
  }

  /** Whether tomorrow's step downloads and installs prices for `now + 1`. */
  predicate TomorrowFetched(s2: Internal, now: Date, api: Api)
    requires ValidNow(now)
  {
    NextIsLater(now);
    Missing(s2.tomorrow, s2.tomorrowDate, NextDay(now)) && Fetch(NextDay(now), api).Some?
  }

  /** Tomorrow's step of the cycle. */
  function WithTomorrow(s2: Internal, now: Date, api: Api): Internal
    requires ValidNow(now)
  {
    if TomorrowFetched(s2, now, api) then
      s2.(tomorrow := Fetch(NextDay(now), api), tomorrowDate := Some(NextDay(now)))
    else s2
  }

  /**
   * One `_async_update_data` after the cache is loaded: rollover, fill today, fill
   * tomorrow. A fetch happens only for a missing day and a failed fetch changes nothing.
   */
  function Cycle(s: Internal, now: Date, api: Api): (c: CycleOutcome)
    requires ValidNow(now)
    ensures ValidInternal(s) ==> ValidInternal(c.state)
  {
    var s1 := Rollover(s, now);
    var s2 := WithToday(s1, now, api);
    MergeSizeOfFetch(now, api);
    CycleOutcome(WithTomorrow(s2, now, api),
                 DayChanged(s, now) || TodayFetched(s1, now, api) || TomorrowFetched(s2, now, api))
  }

  /** A fetched map is a non-empty dict, for today's date and for tomorrow's. */
  lemma MergeSizeOfFetch(now: Date, api: Api)
    requires ValidNow(now)
    ensures var next := NextDay(now);
            && (Fetch(now, api).Some? ==> HasPrices(Fetch(now, api)) && Distinct(Fetch(now, api).value))
            && ValidDate(next) && next != Date(1, 1, 1)
            && (Fetch(next, api).Some? ==> HasPrices(Fetch(next, api)) && Distinct(Fetch(next, api).value))
  {
    NextIsLater(now);
    FetchedIsDict(now, api);
    FetchedIsDict(NextDay(now), api);
  }

  /** What the coordinator hands to the sensors: today's prices and tomorrow's, if known. */
  datatype PriceData = PriceData(today: PriceMap, tomorrow: Option<PriceMap>)

  datatype UpdateError = UpdateFailed

  /** The end of the cycle: `UpdateFailed` without prices for today, else both days. */
  function CycleResult(s: Internal): (r: Result<PriceData, UpdateError>)
    ensures r.Err? <==> !HasPrices(s.today)
    ensures r.Ok? ==> s.today == Some(r.value.today) && s.tomorrow == r.value.tomorrow
  {
    if !HasPrices(s.today) then Err(UpdateFailed) else Ok(PriceData(s.today.value, s.tomorrow))
  }

  /**
   * Today's half of the cycle: after the rollover, today is fetched iff its prices are
   * missing or dated otherwise; a success installs them for `now`, a failure leaves them.
   * Nothing the tomorrow half does changes today.
   */
  lemma CycleToday(s: Internal, now: Date, api: Api)
    requires ValidNow(now)
    ensures var s1 := Rollover(s, now);
            var c := Cycle(s, now, api);
            && (DayChanged(s, now) ==> s1 == Internal(s.tomorrow, s.tomorrowDate, None, None))
            && (!DayChanged(s, now) ==> s1 == s)
            && (Missing(s1.today, s1.todayDate, now) && Fetch(now, api).Some? ==>
                  c.state.today == Fetch(now, api) && c.state.todayDate == Some(now))
            && (!Missing(s1.today, s1.todayDate, now) || Fetch(now, api).None? ==>
                  c.state.today == s1.today && c.state.todayDate == s1.todayDate)
  {
  }

  /** Tomorrow's half: the same rule against `now + 1`. */
  lemma CycleTomorrow(s: Internal, now: Date, api: Api)
    requires ValidNow(now)
    ensures var c := Cycle(s, now, api);
            var next := NextDay(now);
            var s1 := Rollover(s, now);
            var before := if Missing(s1.today, s1.todayDate, now) && Fetch(now, api).Some? then
                            s1.(today := Fetch(now, api), todayDate := Some(now)) else s1;
            && (Missing(before.tomorrow, before.tomorrowDate, next) && Fetch(next, api).Some? ==>
                  c.state.tomorrow == Fetch(next, api) && c.state.tomorrowDate == Some(next))
            && (!Missing(before.tomorrow, before.tomorrowDate, next) || Fetch(next, api).None? ==>
                  c.state.tomorrow == before.tomorrow && c.state.tomorrowDate == before.tomorrowDate)
  {
  }

  /** The cache is written exactly when the cycle changed the state. */
  lemma SavedIffChanged(s: Internal, now: Date, api: Api)
    requires ValidNow(now)
    ensures Cycle(s, now, api).updated <==> Cycle(s, now, api).state != s
  {
    var s1 := Rollover(s, now);
    var s2 := WithToday(s1, now, api);
    var s3 := WithTomorrow(s2, now, api);
    MergeSizeOfFetch(now, api);
    NextIsLater(now);
    if DayChanged(s, now) {
      assert s.todayDate != Some(now);
      assert s.todayDate != Some(NextDay(now));
      assert s3.todayDate == s.tomorrowDate || s3.todayDate == Some(now);
      assert s3.tomorrowDate == None || s3.tomorrowDate == Some(NextDay(now));
    } else if TodayFetched(s1, now, api) {
      assert s3.today != s.today || s3.todayDate != s.todayDate;
    } else if TomorrowFetched(s2, now, api) {
      assert s3.tomorrow != s.tomorrow || s3.tomorrowDate != s.tomorrowDate;
    }
  }

  /**
   * Tomorrow's responses cannot make a cycle fail: two APIs answering today's query alike
   * give the same prices for today, so the same success or `UpdateFailed`.
   */
  lemma TomorrowCannotFailCycle(s: Internal, now: Date, api1: Api, api2: Api)
    requires ValidNow(now)
    requires forall k :: 0 <= k < MaxAttempts ==> api1(PrevDay(now), k) == api2(PrevDay(now), k)
    ensures Cycle(s, now, api1).state.today == Cycle(s, now, api2).state.today
    ensures CycleResult(Cycle(s, now, api1).state).Err? == CycleResult(Cycle(s, now, api2).state).Err?
  {
    FetchOnlyReadsQuery(now, api1, api2);
  }

  /** A successful cycle serves prices not dated today only when today's fetch failed. */
  lemma StaleTodayOnlyAfterFailedFetch(s: Internal, now: Date, api: Api)
    requires ValidNow(now)
    ensures var c := Cycle(s, now, api);
            CycleResult(c.state).Ok? && c.state.todayDate != Some(now) ==> Fetch(now, api).None?
  {
  }

  /** Once both days are in place, another cycle the same day fetches and saves nothing. */
  lemma SameDayCycleIsQuiet(s: Internal, now: Date, api: Api)
    requires ValidNow(now)
    requires HasPrices(s.today) && s.todayDate == Some(now)
    requires HasPrices(s.tomorrow) && s.tomorrowDate == Some(NextDay(now))
    ensures Cycle(s, now, api) == CycleOutcome(s, false)
  {
  }

  /** On the next day, tomorrow's prices are served as today's without a download. */
  lemma NextDayServesTomorrow(s: Internal, day: Date, api: Api)
    requires ValidNow(day) && ValidNow(NextDay(day))
    requires s.todayDate == Some(day) && HasPrices(s.tomorrow) && s.tomorrowDate == Some(NextDay(day))
    ensures var c := Cycle(s, NextDay(day), api);
            && c.state.today == s.tomorrow && c.state.todayDate == Some(NextDay(day))
            && c.updated
            && CycleResult(c.state) == Ok(PriceData(s.tomorrow.value, c.state.tomorrow))
  {
    NextIsLater(day);
  }

  // ---------------------------------------------------------------- the cache

  /**
   * A price dict as JSON stores it: the integer keys become their decimal text, so that
   * every stored entry, in its original position, reads back as the entry it came from.
   */
  function EncodeMap(m: PriceMap): (v: Value)
    ensures v.Obj? && |v.fields| == |m|
    ensures forall i :: 0 <= i < |m| ==> DecodeEntry(v.fields[i]) == Some(m[i])
  {
    KeyTextsRead(m);
    Obj(seq(|m|, i requires 0 <= i < |m| => (IntToStr(m[i].0), Num(m[i].1))))
  }

  /** Each hour's decimal text reads back as the hour. */
  lemma KeyTextsRead(m: PriceMap)
    ensures forall i :: 0 <= i < |m| ==> IntOf(IntToStr(m[i].0)) == Some(m[i].0)
  {
    forall i | 0 <= i < |m|
      ensures IntOf(IntToStr(m[i].0)) == Some(m[i].0)
    {
      IntOfIntToStr(m[i].0);
    }
  }

  function EncodeDate(d: Option<Date>): Value
    requires d.Some? ==> ValidDate(d.value)
  {
    if d.Some? then Str(IsoFormat(d.value)) else Null
  }

  /** `_save_cache`'s document. */
  function CacheForm(s: Internal): Value
    requires ValidInternal(s)
  {
    Obj([("today", if s.today.Some? then EncodeMap(s.today.value) else Null),
         ("today_date", EncodeDate(s.todayDate)),
         ("tomorrow", if s.tomorrow.Some? then EncodeMap(s.tomorrow.value) else Null),
         ("tomorrow_date", EncodeDate(s.tomorrowDate))])
  }

  /** One cached entry: `int(k)` and the price, or `None` when either is unreadable. */
  function DecodeEntry(e: (string, Value)): Option<(int, real)> {
    match IntOf(e.0)
    case None => None
    case Some(k) => if e.1.Num? then Some((k, e.1.n)) else None
  }

  function DecodeEntries(fs: seq<(string, Value)>): (rs: seq<Option<(int, real)>>)
    ensures |rs| == |fs| && forall i :: 0 <= i < |fs| ==> rs[i] == DecodeEntry(fs[i])
  {
    seq(|fs|, i requires 0 <= i < |fs| => DecodeEntry(fs[i]))
  }

  /**
   * A cached price map: a falsy or absent value is `None`; a dict is rebuilt entry by entry;
   * anything else raises (outer `None`).
   */
  function DecodeMap(v: Option<Value>): (r: Option<Option<PriceMap>>)
    ensures r.Some? && r.value.Some? ==> |r.value.value| > 0 && Distinct(r.value.value)
  {
    if v.None? || !Truthy(v.value) then Some(None)
    else if !v.value.Obj? then None
    else
      var fs := v.value.fields;
      match Collect(DecodeEntries(fs))
      case None => None
      case Some(pairs) =>
        MergeSize([], pairs);
        Some(Some(Merge([], pairs)))
  }

  /** A cached date: falsy or absent is `None`; text must be an ISO date, anything else raises. */
  function DecodeDate(v: Option<Value>): (r: Option<Option<Date>>)
    ensures r.Some? && r.value.Some? ==> ValidDate(r.value.value)
  {
    if v.None? || !Truthy(v.value) then Some(None)
    else if !v.value.Str? then None
    else
      match ParseIsoDate(v.value.s)
      case None => None
      case Some(d) => Some(Some(d))
  }

  /** The state `_load_cache` rebuilds from a stored document, or `None` if reading it raises. */
  function DecodeCache(v: Value): (r: Option<Internal>)
    ensures r.Some? ==> ValidInternal(r.value)
  {
    if !v.Obj? then None
    else
      var fs := v.fields;
      var today, todayDate := DecodeMap(Get(fs, "today")), DecodeDate(Get(fs, "today_date"));
      var tomorrow, tomorrowDate := DecodeMap(Get(fs, "tomorrow")), DecodeDate(Get(fs, "tomorrow_date"));
      if today.Some? && todayDate.Some? && tomorrow.Some? && tomorrowDate.Some? then
        Some(Internal(today.value, todayDate.value, tomorrow.value, tomorrowDate.value))
      else None
  }

  /** `_load_cache`: a falsy store or a document that cannot be read leaves the state as it was. */
  function Loaded(stored: Option<Value>, s: Internal): (r: Internal)
    ensures ValidInternal(s) ==> ValidInternal(r)
    ensures r == s || (stored.Some? && DecodeCache(stored.value) == Some(r))
  {
    if stored.None? || !Truthy(stored.value) then s
    else
      match DecodeCache(stored.value)
      case None => s
      case Some(t) => t
  }

  /** The state with empty price dicts replaced by `None`. */
  function Normalized(s: Internal): Internal {
    s.(today := if HasPrices(s.today) then s.today else None,
       tomorrow := if HasPrices(s.tomorrow) then s.tomorrow else None)
  }

  /** Every encoded entry decodes to the entry it came from. */
  lemma EntriesRoundTrip(m: PriceMap)
    ensures Collect(DecodeEntries(EncodeMap(m).fields)) == Some(m)
  {
    CollectAllSome(DecodeEntries(EncodeMap(m).fields), m);
  }

  /** A price map written to the cache reads back as itself; an empty one reads back as `None`. */
  lemma MapRoundTrip(m: Option<PriceMap>)
    requires m.Some? ==> Distinct(m.value)
    ensures DecodeMap(Some(if m.Some? then EncodeMap(m.value) else Null))
            == Some(if HasPrices(m) then m else None)
  {
    if HasPrices(m) {
      var v := EncodeMap(m.value);
      assert Truthy(v);
      EntriesRoundTrip(m.value);
      var empty: PriceMap := [];
      assert forall i :: 0 <= i < |m.value| ==> !HasKey(empty, m.value[i].0);
      MergeFresh(empty, m.value);
      assert empty + m.value == m.value;
    }
  }

  lemma DateRoundTrip(d: Option<Date>)
    requires d.Some? ==> ValidDate(d.value)
    ensures DecodeDate(Some(EncodeDate(d))) == Some(d)
  {
    if d.Some? {
      IsoRoundTrip(d.value);
    }
  }

  /** The four fields of the cache document, looked up by name. */
  lemma GetCacheFields(s: Internal)
    requires ValidInternal(s)
    ensures var fs := CacheForm(s).fields;
            && Get(fs, "today") == Some(if s.today.Some? then EncodeMap(s.today.value) else Null)
            && Get(fs, "today_date") == Some(EncodeDate(s.todayDate))
            && Get(fs, "tomorrow") == Some(if s.tomorrow.Some? then EncodeMap(s.tomorrow.value) else Null)
            && Get(fs, "tomorrow_date") == Some(EncodeDate(s.tomorrowDate))
  {
    CacheKeys(CacheForm(s).fields[0].1, CacheForm(s).fields[1].1, CacheForm(s).fields[2].1, CacheForm(s).fields[3].1);
  }

  lemma CacheKeys(t: Value, td: Value, m: Value, md: Value)
    ensures var fs := [("today", t), ("today_date", td), ("tomorrow", m), ("tomorrow_date", md)];
            Get(fs, "today") == Some(t) && Get(fs, "today_date") == Some(td)
            && Get(fs, "tomorrow") == Some(m) && Get(fs, "tomorrow_date") == Some(md)
  {
    var fs := [("today", t), ("today_date", td), ("tomorrow", m), ("tomorrow_date", md)];
    assert |"today_date"| == 10 && |"tomorrow"| == 8 && |"tomorrow_date"| == 13 && |"today"| == 5;
    assert fs[1..] == [("today_date", td), ("tomorrow", m), ("tomorrow_date", md)];
    assert fs[2..] == [("tomorrow", m), ("tomorrow_date", md)];
    assert fs[3..] == [("tomorrow_date", md)];
    assert Get(fs[2..], "tomorrow_date") == Some(md);
  }

  /** The stored document decodes to the state, with empty price dicts read back as `None`. */
  lemma CacheDecodes(s: Internal)
    requires ValidInternal(s)
    ensures DecodeCache(CacheForm(s)) == Some(Normalized(s))
  {
    GetCacheFields(s);
    MapRoundTrip(s.today);
    MapRoundTrip(s.tomorrow);
    DateRoundTrip(s.todayDate);
    DateRoundTrip(s.tomorrowDate);
  }

  /**
   * Saving and loading again restores the state, except that an empty price dict comes
   * back as `None`, whatever state the coordinator held before loading.
   */
  lemma CacheRoundTrip(s: Internal, other: Internal)
    requires ValidInternal(s)
    ensures Loaded(Some(CacheForm(s)), other) == Normalized(s)
  {
    CacheDecodes(s);
  }

  // ---------------------------------------------------------------- the coordinator object

  class PriceCoordinator {
    var internal: Internal
    var cacheLoaded: bool
    /** The document the store holds (`None`: nothing saved yet). */
    var stored: Option<Value>

    ghost predicate Valid()
      reads this
    {
      ValidInternal(internal)
    }

    constructor(disk: Option<Value>)
      ensures Valid() && internal == NoData && !cacheLoaded && stored == disk
    {
      internal := NoData;
      cacheLoaded := false;
      stored := disk;
    }

    /** `_load_cache` */
    method LoadCache()
      modifies this
      requires Valid()
      ensures Valid()
      ensures internal == Loaded(stored, old(internal))
      ensures stored == old(stored) && cacheLoaded == old(cacheLoaded)
    {
      if stored.Some? && Truthy(stored.value) {
        var decoded := DecodeCache(stored.value);
        if decoded.Some? {
          internal := decoded.value;
        }
      }
    }

    /** `_save_cache` */
    method SaveCache()
      modifies this
      requires Valid()
      ensures Valid() && internal == old(internal) && cacheLoaded == old(cacheLoaded)
      ensures stored == Some(CacheForm(internal))
    {
      stored := Some(CacheForm(internal));
    }

    /** The rollover and the two fetches of `_async_update_data`; reports `data_updated`. */
    method RefreshDays(now: Date, api: Api) returns (dataUpdated: bool)
      modifies this
      requires Valid() && ValidNow(now)
      ensures Valid() && stored == old(stored) && cacheLoaded == old(cacheLoaded)
      ensures internal == Cycle(old(internal), now, api).state
      ensures dataUpdated == Cycle(old(internal), now, api).updated
    {
      ghost var start := internal;
      ghost var s1 := Rollover(start, now);
      var tomorrowDate := NextDay(now);
      MergeSizeOfFetch(now, api);
      dataUpdated := false;

      if internal.todayDate.Some? && Before(internal.todayDate.value, now) {
        internal := Internal(internal.tomorrow, internal.tomorrowDate, None, None);
        dataUpdated := true;
      }
      assert internal == s1 && dataUpdated == DayChanged(start, now);

      if !HasPrices(internal.today) || internal.todayDate != Some(now) {
        var todayPrices, attempts := FetchWithRetries(now, api);
        if todayPrices.Some? {
          internal := internal.(today := todayPrices, todayDate := Some(now));
          dataUpdated := true;
        }
      }
      ghost var s2 := WithToday(s1, now, api);
      assert internal == s2;
      assert dataUpdated == (DayChanged(start, now) || TodayFetched(s1, now, api));

      if !HasPrices(internal.tomorrow) || internal.tomorrowDate != Some(tomorrowDate) {
        var tomorrowPrices, attempts := FetchWithRetries(tomorrowDate, api);
        if tomorrowPrices.Some? {
          internal := internal.(tomorrow := tomorrowPrices, tomorrowDate := Some(tomorrowDate));
          dataUpdated := true;
        }
      }
    }

    /** `_async_update_data` */
    method Update(now: Date, api: Api) returns (r: Result<PriceData, UpdateError>)
      modifies this
      requires Valid() && ValidNow(now)
      ensures Valid() && cacheLoaded
      ensures var start := if old(cacheLoaded) then old(internal) else Loaded(old(stored), old(internal));
              var c := Cycle(start, now, api);
              && internal == c.state
              && stored == (if c.updated then Some(CacheForm(c.state)) else old(stored))
              && r == CycleResult(c.state)
    {
      if !cacheLoaded {
        LoadCache();
        cacheLoaded := true;
      }
      var dataUpdated := RefreshDays(now, api);
      if dataUpdated {
        SaveCache();
      }

      if !HasPrices(internal.today) {
        return Err(UpdateFailed);
      }
      return Ok(PriceData(internal.today.value, internal.tomorrow));
    }
  }
}
