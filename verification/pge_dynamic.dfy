/**
 * The older `pge_dynamic` integration's coordinator: the response of the exchange's quote
 * feed (already decoded from JSON) turned into an hourly price table with the lowest and
 * highest price. Unlike `_parse_prices` of `energy_hub_poland`, it skips a record it cannot
 * read instead of abandoning the batch; only an error of the wrong kind (a record that is
 * not a dict, a date or price of an unusable type) fails the whole update.
 *
 * The HTTP request, its status check and the clock are not part of this model: the decoded
 * response is a parameter.
 */
module PgeDynamic {
  import opened Wrappers
  import opened OrderedDict
  import opened Json
  import opened Calendar
  import Coordinator
  import Sensors

  /** What `_async_update_data` returns: `{}`, or the hourly table with its extremes and the raw records. */
  datatype Update =
    | Empty
    | Quotes(hourly: Coordinator.PriceMap, min: real, max: real, raw: seq<Value>)

  /**
   * `data.get("quotes", data) if isinstance(data, dict) else data`: a dict response stands
   * for its `quotes` field when it has one.
   */
  function Results(data: Value): (results: Value)
    ensures data.Obj? && HasKey(data.fields, "quotes") ==> results == Get(data.fields, "quotes").value
    ensures !(data.Obj? && HasKey(data.fields, "quotes")) ==> results == data
  {
    if data.Obj? then Get(data.fields, "quotes").GetOr(data) else data
  }

  /** `item.get("date")` */
  function QuoteDate(fields: Dict<string, Value>): Value {
    Get(fields, "date").GetOr(Null)
  }

  /** `item.get("price")` */
  function QuotePrice(fields: Dict<string, Value>): Value {
    Get(fields, "price").GetOr(Null)
  }

  /**
   * One record of the loop: `Ok(None)` when it is skipped, `Ok(Some((hour, price per kWh)))`
   * when it is accepted, and the exception that escapes the per-record `except ValueError`
   * otherwise. Only a dict has `.get`.
   */
  function ReadQuote(item: Value): (r: Outcome)
    ensures !item.Obj? ==> r == Err(AttributeError)
    ensures r.Err? ==> r.error != ValueError
    ensures r.Ok? && r.value.Some? ==> 0 <= r.value.value.0 < 24
  {
    match item
    case Obj(fs) => ReadFields(QuoteDate(fs), QuotePrice(fs))
    case _ => Err(AttributeError)
  }

  /** A record's `date` and `price` as the loop body reads them. */
  function ReadFields(date: Value, price: Value): (r: Outcome)
    ensures r.Err? ==> r.error != ValueError
    ensures r.Ok? && r.value.Some? ==> 0 <= r.value.value.0 < 24
  {
    if !Truthy(date) || price.Null? then Ok(None)
    else if !date.Str? then Err(TypeError)
    else
      match ParseDateTime(date.s)
      case None => Ok(None)
      case Some(dt) => PricedAt(dt.hour, price)
  }

  /** `float(price_val) / 1000.0` stored under `hour`; a `ValueError` skips the record. */
  function PricedAt(hour: int, price: Value): (r: Outcome)
    ensures r.Err? ==> r.error != ValueError
    ensures r.Ok? && r.value.Some? ==> r.value.value.0 == hour
  {
    match FloatOf(price)
    case Ok(p) => Ok(Some((hour, p / 1000.0)))
    case Err(ValueError) => Ok(None)
    case Err(e) => Err(e)
  }

  /** The records the loop skips. */
  lemma QuoteSkipped(date: Value, price: Value)
    // a missing or empty date, or a missing or `None` price
    ensures !Truthy(date) || price.Null? ==> ReadFields(date, price) == Ok(None)
    // a date string naming no timestamp, whatever the price
    ensures date.Str? && ParseDateTime(date.s).None? ==> ReadFields(date, price) == Ok(None)
    // with a date string, a price `float()` rejects with ValueError (a non-decimal string)
    ensures date.Str? && FloatOf(price) == Err(ValueError) ==> ReadFields(date, price) == Ok(None)
  {
    if date.Str? && Truthy(date) && !price.Null? {
      var dt := ParseDateTime(date.s);
      if dt.Some? {
        assert ReadFields(date, price) == PricedAt(dt.value.hour, price);
      }
    }
  }

  /** The records that fail the update: a date that is not a string, or a price of the wrong type. */
  lemma QuoteFails(date: Value, price: Value)
    ensures Truthy(date) && !price.Null? && !date.Str? ==> ReadFields(date, price) == Err(TypeError)
    ensures date.Str? && |date.s| > 0 && ParseDateTime(date.s).Some? && !price.Null? && FloatOf(price) == Err(TypeError)
            ==> ReadFields(date, price) == Err(TypeError)
  {
    if date.Str? && |date.s| > 0 && !price.Null? {
      var dt := ParseDateTime(date.s);
      if dt.Some? {
        assert ReadFields(date, price) == PricedAt(dt.value.hour, price);
      }
    }
  }

  /** An accepted record is its timestamp's hour and its price divided by 1000. */
  lemma QuoteRead(date: Value, price: Value)
    requires ReadFields(date, price).Ok? && ReadFields(date, price).value.Some?
    ensures date.Str? && ParseDateTime(date.s).Some? && FloatOf(price).Ok?
    ensures ReadFields(date, price).value.value == (ParseDateTime(date.s).value.hour, FloatOf(price).value / 1000.0)
  {
    var dt := ParseDateTime(date.s);
    assert ReadFields(date, price) == PricedAt(dt.value.hour, price);
  }

  /** A record with a well-formed timestamp and a numeric price (zero included) is accepted, in kWh. */
  lemma QuoteAccepted(fields: Dict<string, Value>, dt: DateTime, p: real)
    requires ValidDateTime(dt)
    requires Get(fields, "date") == Some(Str(FormatDateTime(dt))) && Get(fields, "price") == Some(Num(p))
    ensures ReadQuote(Obj(fields)) == Ok(Some((dt.hour, p / 1000.0)))
  {
    DateTimeRoundTrip(dt);
    ReadsAs(fields, FormatDateTime(dt), dt, p);
  }

  lemma ReadsAs(fields: Dict<string, Value>, text: string, dt: DateTime, p: real)
    requires ParseDateTime(text) == Some(dt)
    requires Get(fields, "date") == Some(Str(text)) && Get(fields, "price") == Some(Num(p))
    ensures ReadQuote(Obj(fields)) == Ok(Some((dt.hour, p / 1000.0)))
  {
    assert |text| == 19;
    assert ReadFields(Str(text), Num(p)) == PricedAt(dt.hour, Num(p));
  }

  /** What reading one record gives: skipped, accepted, or an exception that escapes. */
  type Outcome = Result<Option<(int, real)>, PyError>

  function Outcomes(items: seq<Value>): (os: seq<Outcome>)
    ensures |os| == |items| && forall i :: 0 <= i < |items| ==> os[i] == ReadQuote(items[i])
  {
    seq(|items|, i requires 0 <= i < |items| => ReadQuote(items[i]))
  }

  /**
   * The pairs of the accepted records, in order, or the first exception. Defined from the
   * end, as the loop extends what it has read so far.
   */
  function Kept(os: seq<Outcome>): (r: Result<seq<(int, real)>, PyError>)
    ensures r.Err? <==> exists i :: 0 <= i < |os| && os[i].Err?
    ensures r.Ok? ==> |r.value| <= |os|
    decreases |os|
  {
    if |os| == 0 then Ok([])
    else
      var init := os[..|os| - 1];
      assert forall i :: 0 <= i < |init| ==> init[i] == os[i];
      match Kept(init)
      case Err(e) => Err(e)
      case Ok(pairs) =>
        match os[|os| - 1]
        case Err(e) => Err(e)
        case Ok(None) => Ok(pairs)
        case Ok(Some(q)) => Ok(pairs + [q])
  }

  /** The accepted pairs read front to back: a reference for the order `Kept` keeps. */
  function InOrder(os: seq<Outcome>): seq<(int, real)> {
    if |os| == 0 then []
    else (if os[0].Ok? && os[0].value.Some? then [os[0].value.value] else []) + InOrder(os[1..])
  }

  lemma {:induction false} InOrderAppend(os: seq<Outcome>, o: Outcome)
    ensures InOrder(os + [o]) == InOrder(os) + InOrder([o])
  {
    if |os| > 0 {
      assert (os + [o])[1..] == os[1..] + [o];
      InOrderAppend(os[1..], o);
    } else {
      assert os + [o] == [o];
    }
  }

  /** A batch that does not fail keeps the accepted pairs in the order of their records. */
  lemma {:induction false} KeptInOrder(os: seq<Outcome>)
    requires Kept(os).Ok?
    ensures Kept(os).value == InOrder(os)
    decreases |os|
  {
    if |os| > 0 {
      var init := os[..|os| - 1];
      assert init + [os[|os| - 1]] == os;
      KeptInOrder(init);
      InOrderAppend(init, os[|os| - 1]);
    }
  }

  /** The pairs the record loop accepts, or the first exception that escapes it. */
  function Accepted(items: seq<Value>): (r: Result<seq<(int, real)>, PyError>)
    ensures r.Err? <==> exists i :: 0 <= i < |items| && ReadQuote(items[i]).Err?
  {
    var os := Outcomes(items);
    assert forall i :: 0 <= i < |items| ==> os[i] == ReadQuote(items[i]);
    Kept(os)
  }

  /** The kept pairs are exactly the accepted outcomes' pairs. */
  lemma {:induction false} KeptAreAccepted(os: seq<Outcome>)
    requires Kept(os).Ok?
    ensures forall i, q :: 0 <= i < |os| && os[i] == Ok(Some(q)) ==> q in Kept(os).value
    ensures forall j :: 0 <= j < |Kept(os).value| ==> exists i :: 0 <= i < |os| && os[i] == Ok(Some(Kept(os).value[j]))
    decreases |os|
  {
    if |os| > 0 {
      var n := |os| - 1;
      var init := os[..n];
      KeptAreAccepted(init);
      var pre := Kept(init).value;
      var pairs := Kept(os).value;
      assert pairs == pre + (if os[n].value.Some? then [os[n].value.value] else []);
      forall i, q | 0 <= i < |os| && os[i] == Ok(Some(q))
        ensures q in pairs
      {
        if i < n {
          assert init[i] == os[i];
        }
      }
      forall j | 0 <= j < |pairs|
        ensures exists i :: 0 <= i < |os| && os[i] == Ok(Some(pairs[j]))
      {
        if j < |pre| {
          var i :| 0 <= i < |init| && init[i] == Ok(Some(pre[j]));
          assert os[i] == init[i];
        } else {
          assert os[n] == Ok(Some(pairs[j]));
        }
      }
    }
  }

  /** An exception anywhere fails the whole batch. */
  lemma KeptFails(os: seq<Outcome>, i: int)
    requires 0 <= i < |os| && os[i].Err?
    ensures Kept(os).Err?
  {
  }

  /** The first `i + 1` outcomes are the first `i` and one more. */
  lemma KeptStep(os: seq<Outcome>, i: int)
    requires 0 <= i < |os|
    ensures Kept(os[..i + 1]) ==
            match Kept(os[..i])
            case Err(e) => Err(e)
            case Ok(pairs) =>
              match os[i]
              case Err(e) => Err(e)
              case Ok(None) => Ok(pairs)
              case Ok(Some(q)) => Ok(pairs + [q])
  {
    assert os[..i + 1][..i] == os[..i];
  }

  /** `prices_list`: the accepted prices, overwritten hours included. */
  function PriceList(pairs: seq<(int, real)>): (xs: seq<real>)
    ensures |xs| == |pairs| && forall j :: 0 <= j < |pairs| ==> xs[j] == pairs[j].1
  {
    seq(|pairs|, j requires 0 <= j < |pairs| => pairs[j].1)
  }

  /** Appending a pair appends its price. */
  lemma PriceListSnoc(pairs: seq<(int, real)>, q: (int, real))
    ensures PriceList(pairs + [q]) == PriceList(pairs) + [q.1]
  {
    var xs, ys := PriceList(pairs + [q]), PriceList(pairs) + [q.1];
    assert forall j :: 0 <= j < |xs| ==> xs[j] == ys[j];
  }

  /** `min(xs)` or `max(xs)` on a non-empty list of floats. */
  function ListExtreme(xs: seq<real>, mode: Sensors.Extreme): (m: real)
    requires |xs| > 0
    ensures m in xs
    ensures forall x :: x in xs ==> !Sensors.Beats(mode, x, m)
  {
    if |xs| == 1 then xs[0]
    else
      var init := xs[..|xs| - 1];
      assert forall x :: x in xs ==> x in init || x == xs[|xs| - 1];
      var m := ListExtreme(init, mode);
      if Sensors.Beats(mode, xs[|xs| - 1], m) then xs[|xs| - 1] else m
  }

  /** `min(prices_list) if prices_list else 0`, and the same with `max`. */
  function ExtremeOrZero(xs: seq<real>, mode: Sensors.Extreme): real {
    if |xs| == 0 then 0.0 else ListExtreme(xs, mode)
  }

  /**
   * `_async_update_data` after the response is decoded: `{}` unless the results are a
   * non-empty list; the table, extremes and raw records if every record was read or
   * skipped; `UpdateFailed` if an exception escaped the loop.
   */
  function UpdateOf(data: Value): Result<Update, Coordinator.UpdateError> {
    var results := Results(data);
    if !Truthy(results) || !results.Arr? then Ok(Empty)
    else
      match Accepted(results.items)
      case Err(_) => Err(Coordinator.UpdateFailed)
      case Ok(pairs) =>
        Ok(Quotes(Merge([], pairs), ExtremeOrZero(PriceList(pairs), Sensors.Lowest), ExtremeOrZero(PriceList(pairs), Sensors.Highest),
                  results.items))
  }

  /**
   * The accepted pairs are the pairs of the records read without being skipped, every one
   * of them; each is an hour of the day with its price.
   */
  lemma AcceptedAreReadQuotes(items: seq<Value>)
    requires Accepted(items).Ok?
    ensures forall i, q :: 0 <= i < |items| && ReadQuote(items[i]) == Ok(Some(q)) ==> q in Accepted(items).value
    ensures forall j :: 0 <= j < |Accepted(items).value| ==>
              exists i :: 0 <= i < |items| && ReadQuote(items[i]) == Ok(Some(Accepted(items).value[j]))
    ensures forall j :: 0 <= j < |Accepted(items).value| ==> 0 <= Accepted(items).value[j].0 < 24
  {
    var os := Outcomes(items);
    var pairs := Kept(os).value;
    assert Accepted(items) == Kept(os);
    KeptAreAccepted(os);
    forall i, q | 0 <= i < |items| && ReadQuote(items[i]) == Ok(Some(q))
      ensures q in pairs
    {
      assert os[i] == Ok(Some(q));
    }
    forall j | 0 <= j < |pairs|
      ensures exists i :: 0 <= i < |items| && ReadQuote(items[i]) == Ok(Some(pairs[j]))
      ensures 0 <= pairs[j].0 < 24
    {
      var i :| 0 <= i < |os| && os[i] == Ok(Some(pairs[j]));
      assert ReadQuote(items[i]) == os[i];
    }
  }

  /**
   * The body of the record loop: `Ok(None)` for a record it skips (`continue`, or the
   * condition failing), the pair for one it stores, or the exception that escapes it.
   */
  method ReadItem(item: Value) returns (r: Outcome)
    ensures r == ReadQuote(item)
  {
    if !item.Obj? {
      return Err(AttributeError);
    }
    r := ReadItemFields(QuoteDate(item.fields), QuotePrice(item.fields));
  }

  /** The loop body once `date_str` and `price_val` are read. */
  method ReadItemFields(date: Value, price: Value) returns (r: Outcome)
    ensures r == ReadFields(date, price)
  {
    if !Truthy(date) || price.Null? {
      return Ok(None);
    }
    if !date.Str? {
      return Err(TypeError);
    }
    var dt := ParseDateTime(date.s);
    if dt.None? {
      return Ok(None);
    }
    r := ReadPrice(dt.value.hour, price);
  }

  /** The conversion of `price_val`, inside the `try`. */
  method ReadPrice(hour: int, price: Value) returns (r: Outcome)
    ensures r == PricedAt(hour, price)
  {
    var kwh := FloatOf(price);
    PricedAtOf(hour, price, kwh);
    if kwh.Ok? {
      return Ok(Some((hour, kwh.value / 1000.0)));
    } else if kwh.error == ValueError {
      return Ok(None);
    }
    return Err(kwh.error);
  }

  /** How the conversion's outcome decides the record's. */
  lemma PricedAtOf(hour: int, price: Value, kwh: Result<real, PyError>)
    requires kwh == FloatOf(price)
    ensures kwh.Ok? ==> PricedAt(hour, price) == Ok(Some((hour, kwh.value / 1000.0)))
    ensures kwh == Err(ValueError) ==> PricedAt(hour, price) == Ok(None)
    ensures kwh.Err? && kwh.error != ValueError ==> PricedAt(hour, price) == Err(kwh.error)
  {
  }

  /**
   * The record loop of `_async_update_data`: fills `prices` (`hourly`) and `prices_list`,
   * skipping the records it cannot read; an exception other than `ValueError` escapes it.
   */
  method ParseQuotes(items: seq<Value>) returns (r: Result<(Coordinator.PriceMap, seq<real>), PyError>)
    ensures r.Err? <==> Kept(Outcomes(items)).Err?
    ensures r.Ok? ==> r.value == (Merge([], Kept(Outcomes(items)).value), PriceList(Kept(Outcomes(items)).value))
  {
    var prices: Coordinator.PriceMap := [];
    var pricesList: seq<real> := [];
    ghost var outcomes := Outcomes(items);
    ghost var pairs: seq<(int, real)> := [];
    for i := 0 to |items|
      invariant Kept(outcomes[..i]) == Ok(pairs)
      invariant prices == Merge([], pairs) && pricesList == PriceList(pairs)
    {
      KeptStep(outcomes, i);
      var quote := ReadItem(items[i]);
      assert quote == outcomes[i];
      if quote.Err? {
        KeptFails(outcomes, i);
        return Err(quote.error);
      }
      if quote.value.Some? {
        var q := quote.value.value;
        Coordinator.MergeSnoc([], pairs, q);
        PriceListSnoc(pairs, q);
        prices := Put(prices, q.0, q.1);
        pricesList := pricesList + [q.1];
        pairs := pairs + [q];
      }
    }
    assert outcomes[..|items|] == outcomes;
    return Ok((prices, pricesList));
  }

  /** `_async_update_data` once the response is decoded. */
  method UpdateData(data: Value) returns (r: Result<Update, Coordinator.UpdateError>)
    ensures r == UpdateOf(data)
  {
    var results := if data.Obj? then Get(data.fields, "quotes").GetOr(data) else data;
    if !Truthy(results) || !results.Arr? {
      return Ok(Empty);
    }
    var parsed := ParseQuotes(results.items);
    if parsed.Err? {
      return Err(Coordinator.UpdateFailed);
    }
    var (prices, pricesList) := parsed.value;
    var low := if |pricesList| > 0 then ListExtreme(pricesList, Sensors.Lowest) else 0.0;
    var high := if |pricesList| > 0 then ListExtreme(pricesList, Sensors.Highest) else 0.0;
    return Ok(Quotes(prices, low, high, results.items));
  }

  /** The update is `{}` exactly when the results are not a non-empty list. */
  lemma UpdateEmptyIff(data: Value)
    ensures UpdateOf(data) == Ok(Empty) <==> !(Results(data).Arr? && |Results(data).items| > 0)
  {
  }

  /** The update fails exactly when some record raises something other than `ValueError`. */
  lemma UpdateFailsIff(data: Value)
    ensures UpdateOf(data).Err? <==>
              Results(data).Arr? && exists i :: 0 <= i < |Results(data).items| && ReadQuote(Results(data).items[i]).Err?
  {
  }

  /**
   * The table built from accepted pairs: a dict whose hours are the pairs' hours, each
   * holding the price of the last pair for it.
   */
  lemma HourlyTable(pairs: seq<(int, real)>)
    requires forall j :: 0 <= j < |pairs| ==> 0 <= pairs[j].0 < 24
    ensures Distinct(Merge([], pairs))
    ensures forall h :: HasKey(Merge([], pairs), h) <==> exists j :: 0 <= j < |pairs| && pairs[j].0 == h
    ensures forall h :: HasKey(Merge([], pairs), h) ==> 0 <= h < 24
    ensures forall h :: Get(Merge([], pairs), h) == Coordinator.LastPrice(pairs, h)
  {
    var table := Merge([], pairs);
    forall h
      ensures Get(table, h) == Coordinator.LastPrice(pairs, h)
      ensures HasKey(table, h) <==> exists j :: 0 <= j < |pairs| && pairs[j].0 == h
    {
      Coordinator.MergeLookup([], pairs, h);
      Coordinator.LastPriceIsLast(pairs, h);
    }
    forall h | HasKey(table, h)
      ensures 0 <= h < 24
    {
      var j :| 0 <= j < |pairs| && pairs[j].0 == h;
    }
  }

  /** `min` and `max` of the accepted prices: attained, and bounding every one of them. */
  lemma Extremes(pairs: seq<(int, real)>)
    ensures |pairs| == 0 ==>
              ExtremeOrZero(PriceList(pairs), Sensors.Lowest) == 0.0 && ExtremeOrZero(PriceList(pairs), Sensors.Highest) == 0.0
    ensures |pairs| > 0 ==>
              var lo, hi := ExtremeOrZero(PriceList(pairs), Sensors.Lowest), ExtremeOrZero(PriceList(pairs), Sensors.Highest);
              && (exists j :: 0 <= j < |pairs| && pairs[j].1 == lo)
              && (exists j :: 0 <= j < |pairs| && pairs[j].1 == hi)
              && (forall j :: 0 <= j < |pairs| ==> lo <= pairs[j].1 <= hi)
  {
    var xs := PriceList(pairs);
    if |pairs| > 0 {
      var lo, hi := ExtremeOrZero(xs, Sensors.Lowest), ExtremeOrZero(xs, Sensors.Highest);
      assert lo in xs && hi in xs;
      forall j | 0 <= j < |pairs|
        ensures lo <= pairs[j].1 <= hi
      {
        assert xs[j] in xs;
      }
    }
  }

  /**
   * A successful update: the raw records are the results; the table is a dict whose hours
   * are those of the accepted records, each holding the price of the last accepted record for
   * it; the minimum and maximum are taken over every accepted price, overwritten ones
   * included, and are 0 when none was accepted.
   */
  lemma UpdateContents(data: Value)
    requires UpdateOf(data).Ok? && UpdateOf(data).value.Quotes?
    ensures var u := UpdateOf(data).value;
            var pairs := Accepted(Results(data).items).value;
            && u.raw == Results(data).items
            && Distinct(u.hourly)
            && (forall h :: HasKey(u.hourly, h) <==> exists j :: 0 <= j < |pairs| && pairs[j].0 == h)
            && (forall h :: HasKey(u.hourly, h) ==> 0 <= h < 24)
            && (forall h :: Get(u.hourly, h) == Coordinator.LastPrice(pairs, h))
            && (|pairs| == 0 ==> u.min == 0.0 && u.max == 0.0)
            && (|pairs| > 0 ==>
                  && (exists j :: 0 <= j < |pairs| && pairs[j].1 == u.min)
                  && (exists j :: 0 <= j < |pairs| && pairs[j].1 == u.max)
                  && (forall j :: 0 <= j < |pairs| ==> u.min <= pairs[j].1 <= u.max))
  {
    var pairs := Accepted(Results(data).items).value;
    AcceptedAreReadQuotes(Results(data).items);
    HourlyTable(pairs);
    Extremes(pairs);
  }
}
