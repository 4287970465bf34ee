/**
 * The value logic of the sensors in `sensor.py`: the energy meter's delta with counter
 * resets, the cost, savings and recommendation accumulators with their period resets, the
 * cheapest hour, the extreme-price attributes, the tariff recommendation and the peak /
 * off-peak label.
 *
 * What a sensor reads when Home Assistant calls it is a parameter (`Env`): the coordinator's
 * data (`None` before the first successful refresh), the local time and the holiday calendar.
 * The merged config entry (`{**entry.data, **entry.options}`) is a `Tariff.Settings` dict.
 */
module Sensors {
  import opened Wrappers
  import opened Text
  import opened OrderedDict
  import opened Json
  import opened Calendar
  import opened Tariff
  import Coordinator

  /** What a sensor reads when it is called: `coordinator.data`, `dt_util.now()`, the holidays. */
  datatype Env = Env(data: Option<Coordinator.PriceData>, now: Moment, holidays: set<Date>)

  predicate ValidEnv(env: Env) {
    ValidDate(env.now.date)
  }

  // ---------------------------------------------------------------- the energy meter

  const TotalIncreasing: Value := Str("total_increasing")
  const DailyCounter: Value := Str("daily")

  /** One of the two meter types the delta calculation knows. */
  predicate KnownType(sensorType: Option<Value>) {
    sensorType == Some(TotalIncreasing) || sensorType == Some(DailyCounter)
  }

  /**
   * `_get_energy_delta`: the energy used since the previous reading. Without a previous
   * reading or with an unknown meter type nothing is counted; a counter that went down is
   * ignored by a total_increasing meter and read as a midnight reset by a daily one.
   */
  function EnergyDelta(last: Option<real>, sensorType: Option<Value>, current: real): (delta: real)
    ensures delta != 0.0 ==> last.Some? && KnownType(sensorType)
    ensures last.Some? && KnownType(sensorType) && current >= last.value ==> delta == current - last.value
    ensures last.Some? && current < last.value ==>
              delta == (if sensorType == Some(DailyCounter) then current else 0.0)
    ensures sensorType == Some(TotalIncreasing) ==> delta >= 0.0
    ensures sensorType == Some(DailyCounter) && current >= 0.0 ==> delta >= 0.0
  {
    if last.None? then 0.0
    else if sensorType == Some(TotalIncreasing) then
      if current >= last.value then current - last.value else 0.0
    else if sensorType == Some(DailyCounter) then
      if current >= last.value then current - last.value else current
    else 0.0
  }

  /** The deltas of a run of readings, each reading becoming the next one's previous reading. */
  function Deltas(last: Option<real>, sensorType: Option<Value>, readings: seq<real>): (ds: seq<real>)
    ensures |ds| == |readings|
    decreases |readings|
  {
    if |readings| == 0 then []
    else [EnergyDelta(last, sensorType, readings[0])] + Deltas(Some(readings[0]), sensorType, readings[1..])
  }

  function Total(xs: seq<real>): real {
    if |xs| == 0 then 0.0 else xs[0] + Total(xs[1..])
  }

  lemma {:induction false} TotalAppend(xs: seq<real>, ys: seq<real>)
    ensures Total(xs + ys) == Total(xs) + Total(ys)
  {
    if |xs| > 0 {
      TotalAppend(xs[1..], ys);
      assert (xs + ys)[0] == xs[0];
      assert (xs + ys)[1..] == xs[1..] + ys;
    } else {
      assert xs + ys == ys;
    }
  }

  lemma {:induction false} DeltasAppend(last: Option<real>, t: Option<Value>, a: seq<real>, b: seq<real>)
    requires |a| > 0
    ensures Deltas(last, t, a + b) == Deltas(last, t, a) + Deltas(Some(a[|a| - 1]), t, b)
    decreases |a|
  {
    assert (a + b)[0] == a[0];
    assert (a + b)[1..] == a[1..] + b;
    if |a| > 1 {
      DeltasAppend(Some(a[0]), t, a[1..], b);
      assert a[1..][|a| - 2] == a[|a| - 1];
    } else {
      assert a[1..] + b == b;
    }
  }

  predicate NonDecreasing(xs: seq<real>) {
    forall i, j :: 0 <= i < j < |xs| ==> xs[i] <= xs[j]
  }

  /**
   * On a counter that only grows, the deltas add up to the growth since the first reading:
   * no energy is lost or counted twice, whichever of the two meter types is configured.
   */
  lemma {:induction false} GrowingCounterTelescopes(first: real, t: Option<Value>, readings: seq<real>)
    requires KnownType(t)
    requires NonDecreasing([first] + readings)
    ensures Total(Deltas(Some(first), t, readings)) ==
            if |readings| == 0 then 0.0 else readings[|readings| - 1] - first
    decreases |readings|
  {
    if |readings| > 0 {
      var rest := readings[1..];
      assert ([first] + readings)[1..] == [readings[0]] + rest;
      assert ([first] + readings)[0] == first && ([first] + readings)[1] == readings[0];
      assert first <= readings[0];
      GrowingCounterTelescopes(readings[0], t, rest);
      var ds := Deltas(Some(first), t, readings);
      assert ds[0] == readings[0] - first;
      assert ds[1..] == Deltas(Some(readings[0]), t, rest);
      if |rest| > 0 {
        assert rest[|rest| - 1] == readings[|readings| - 1];
      }
    }
  }

  /**
   * A daily counter that restarts from zero at midnight: the deltas add up to yesterday's
   * growth plus everything read since the restart.
   */
  lemma DailyCounterAcrossMidnight(first: real, before: seq<real>, after: seq<real>)
    requires |before| > 0 && |after| > 0
    requires NonDecreasing([first] + before) && NonDecreasing(after)
    requires 0.0 <= after[0] < before[|before| - 1]
    ensures Total(Deltas(Some(first), Some(DailyCounter), before + after)) ==
            (before[|before| - 1] - first) + after[|after| - 1]
  {
    var t := Some(DailyCounter);
    var last := before[|before| - 1];
    DeltasAppend(Some(first), t, before, after);
    TotalAppend(Deltas(Some(first), t, before), Deltas(Some(last), t, after));
    GrowingCounterTelescopes(first, t, before);
    var tail := after[1..];
    assert [after[0]] + tail == after;
    assert NonDecreasing([after[0]] + tail);
    GrowingCounterTelescopes(after[0], t, tail);
    if |tail| > 0 {
      assert tail[|tail| - 1] == after[|after| - 1];
    }
  }

  /**
   * The reading an energy-sensor state carries: `None` for a missing new state, for
   * `unknown` and `unavailable`, and for a state `float()` rejects.
   */
  function Reading(newState: Option<string>): (r: Option<real>)
    ensures r.Some? <==> newState.Some? && DecimalOf(newState.value).Some?
    ensures r.Some? ==> r == DecimalOf(newState.value)
  {
    NamedStatesAreNotNumbers();
    if newState.None? || newState.value == "unknown" || newState.value == "unavailable" then None
    else DecimalOf(newState.value)
  }

  /** `unknown` and `unavailable` are not numbers `float()` reads. */
  lemma NamedStatesAreNotNumbers()
    ensures DecimalOf("unknown").None? && DecimalOf("unavailable").None?
  {
    NotANumber("unknown");
    NotANumber("unavailable");
  }

  /** A word from a letter to a letter: no surrounding space, and its first piece is no number. */
  lemma NotANumber(w: string)
    requires |w| > 0 && 'a' <= w[0] <= 'z' && 'a' <= w[|w| - 1] <= 'z'
    ensures DecimalOf(w).None?
  {
    StripWord(w);
    LetterFirstPiece(w);
  }

  lemma StripWord(w: string)
    requires |w| > 0 && 'a' <= w[0] <= 'z' && 'a' <= w[|w| - 1] <= 'z'
    ensures Strip(w) == w
  {
    assert !IsSpace(w[0]) && !IsSpace(w[|w| - 1]);
    assert TrimLeft(w) == w;
  }

  lemma LetterFirstPiece(w: string)
    requires |w| > 0 && 'a' <= w[0] <= 'z'
    ensures UnsignedDecimal(w).None?
  {
    var parts := Split(w, '.');
    assert parts[0] == [w[0]] + Split(w[1..], '.')[0];
    assert !IsDigit(parts[0][0]);
    assert !AllDigits(parts[0]);
    assert !IsDigits(w);
  }

  /** The energy-meter half of `EnergyConsumerEntity`: the last reading and the meter type. */
  class EnergyMeter {
    /** `config.get("sensor_type")` */
    const sensorType: Option<Value>
    var lastReading: Option<real>

    constructor(sensorType: Option<Value>)
      ensures this.sensorType == sensorType && lastReading == None
    {
      this.sensorType := sensorType;
      lastReading := None;
    }

    /** When the entity is added: the energy sensor's current state, if numeric, is the last reading. */
    method Prime(state: Option<string>)
      modifies this
      ensures lastReading ==
              if state.Some? && DecimalOf(state.value).Some? then DecimalOf(state.value) else old(lastReading)
    {
      if state.Some? {
        var reading := DecimalOf(state.value);
        if reading.Some? {
          lastReading := reading;
        }
      }
    }

    /** `_get_energy_delta`: every reading becomes the last reading. */
    method GetEnergyDelta(current: real) returns (delta: real)
      modifies this
      ensures delta == EnergyDelta(old(lastReading), sensorType, current)
      ensures lastReading == Some(current)
    {
      delta := 0.0;
      if lastReading.Some? {
        if sensorType == Some(TotalIncreasing) {
          if current >= lastReading.value {
            delta := current - lastReading.value;
          }
        } else if sensorType == Some(DailyCounter) {
          if current >= lastReading.value {
            delta := current - lastReading.value;
          } else {
            delta := current;
          }
        }
      }
      lastReading := Some(current);
    }

    /**
     * The meter's part of `_handle_energy_change`: a state without a reading changes nothing;
     * otherwise the reading is taken and the delta is handed on to be priced iff positive.
     */
    method HandleEnergyChange(newState: Option<string>) returns (toProcess: Option<real>)
      modifies this
      ensures Reading(newState).None? ==> lastReading == old(lastReading) && toProcess.None?
      ensures Reading(newState).Some? ==>
                && lastReading == Reading(newState)
                && var d := EnergyDelta(old(lastReading), sensorType, Reading(newState).value);
                   toProcess == if d > 0.0 then Some(d) else None
      ensures toProcess.Some? ==> toProcess.value > 0.0
    {
      var reading := Reading(newState);
      if reading.None? {
        return None;
      }
      var delta := GetEnergyDelta(reading.value);
      toProcess := if delta > 0.0 then Some(delta) else None;
    }
  }

  // ---------------------------------------------------------------- current prices

  datatype TariffName = Dynamic | G12 | G12w

  /** The tariff's key in the dict `_get_tariff_prices` returns. */
  function KeyOf(t: TariffName): string {
    match t
    case Dynamic => "dynamic"
    case G12 => "g12"
    case G12w => "g12w"
  }

  /** `config.get(key, {})` used as a settings dict: anything else has no `.get` (`AttributeError`). */
  function SettingsAt(config: Settings, key: string): (r: Result<Settings, PyError>)
    ensures !HasKey(config, key) ==> r == Ok([])
    ensures forall s :: Get(config, key) == Some(Obj(s)) ==> r == Ok(s)
    ensures r.Err? <==> HasKey(config, key) && !Get(config, key).value.Obj?
  {
    match Get(config, key).GetOr(Obj([]))
    case Obj(s) => Ok(s)
    case _ => Err(AttributeError)
  }

  /** `get_current_g12_price(now, config.get("g12_settings", {}))` */
  function G12Now(env: Env, config: Settings): Result<real, PyError> {
    match SettingsAt(config, "g12_settings")
    case Ok(s) => TariffPrice(env.now, s)
    case Err(e) => Err(e)
  }

  /** `get_current_g12w_price(now, config.get("g12w_settings", {}))` */
  function G12wNow(env: Env, config: Settings): Result<Value, PyError>
    requires ValidEnv(env)
  {
    match SettingsAt(config, "g12w_settings")
    case Ok(s) => G12wPrice(env.now, env.holidays, s)
    case Err(e) => Err(e)
  }

  /** A dict lookup that may miss, as the Python value it returns (`None` for a miss). */
  function OrNull(p: Option<real>): Value {
    match p
    case Some(x) => Num(x)
    case None => Null
  }

  /**
   * `_get_tariff_prices`: today's dynamic price for the current hour, the G12 and the G12w
   * price, in that order. Reading the dynamic price before the first refresh (no data) is
   * an `AttributeError`; the tariff calculators' errors propagate.
   */
  function TariffPrices(env: Env, config: Settings): (r: Result<Dict<string, Value>, PyError>)
    requires ValidEnv(env)
    ensures r.Ok? <==> env.data.Some? && G12Now(env, config).Ok? && G12wNow(env, config).Ok?
    ensures r.Ok? ==> Keys(r.value) == ["dynamic", "g12", "g12w"]
  {
    if env.data.None? then Err(AttributeError)
    else
      var dynamic := OrNull(Get(env.data.value.today, env.now.hour));
      match G12Now(env, config)
      case Err(e) => Err(e)
      case Ok(g12) =>
        match G12wNow(env, config)
        case Err(e) => Err(e)
        case Ok(g12w) =>
          var prices := [("dynamic", dynamic), ("g12", Num(g12)), ("g12w", g12w)];
          assert Keys(prices) == ["dynamic", "g12", "g12w"];
          Ok(prices)
  }

  /** Python arithmetic with a price: numbers and booleans take part, anything else is a `TypeError`. */
  function Numeric(v: Value): (r: Result<real, PyError>)
    ensures v.Num? ==> r == Ok(v.n)
    ensures r.Err? <==> !(v.Num? || v.Bool?)
  {
    match v
    case Num(n) => Ok(n)
    case Bool(b) => Ok(if b then 1.0 else 0.0)
    case _ => Err(TypeError)
  }

  /**
   * `SavingsSensor._get_current_price`: `None` when either tariff's price is missing or
   * `None`, otherwise compare minus base.
   */
  function SavingsPrice(prices: Dict<string, Value>, base: string, compare: string): (r: Result<Value, PyError>)
    ensures Get(prices, base).GetOr(Null).Null? || Get(prices, compare).GetOr(Null).Null? ==> r == Ok(Null)
    ensures forall b, c :: Get(prices, base) == Some(Num(b)) && Get(prices, compare) == Some(Num(c)) ==>
              r == Ok(Num(c - b))
    ensures r.Err? ==> r.error == TypeError
  {
    var b := Get(prices, base).GetOr(Null);
    var c := Get(prices, compare).GetOr(Null);
    if b.Null? || c.Null? then Ok(Null)
    else if Numeric(b).Ok? && Numeric(c).Ok? then Ok(Num(Numeric(c).value - Numeric(b).value))
    else Err(TypeError)
  }

  /** How a cost sensor prices energy: `CostSensor` at one tariff, `SavingsSensor` at a difference. */
  datatype Pricing = AtTariff(tariff: TariffName) | Savings(base: TariffName, compare: TariffName)

  /**
   * `_get_current_price` of the two cost sensors (`Null` is `None`). The dynamic tariff has
   * no price before the first refresh; the savings price goes through `_get_tariff_prices`.
   */
  function CurrentPrice(pricing: Pricing, env: Env, config: Settings): (r: Result<Value, PyError>)
    requires ValidEnv(env)
    ensures pricing == AtTariff(Dynamic) ==>
              && r.Ok?
              && (r.value.Null? <==> env.data.None? || !HasKey(env.data.value.today, env.now.hour))
              && (r.value.Num? ==> env.data.Some? && Get(env.data.value.today, env.now.hour) == Some(r.value.n))
              && (r.value.Null? || r.value.Num?)
    ensures pricing == AtTariff(G12) ==>
              && (r.Ok? <==> G12Now(env, config).Ok?)
              && (r.Ok? ==> r.value == Num(G12Now(env, config).value))
    ensures pricing == AtTariff(G12w) ==> r == G12wNow(env, config)
    ensures pricing.Savings? && r.Ok? ==> TariffPrices(env, config).Ok?
  {
    match pricing
    case AtTariff(t) =>
      (match t
       case Dynamic =>
         if env.data.None? then Ok(Null) else Ok(OrNull(Get(env.data.value.today, env.now.hour)))
       case G12 =>
         (match G12Now(env, config)
          case Ok(p) => Ok(Num(p))
          case Err(e) => Err(e))
       case G12w => G12wNow(env, config))
    case Savings(b, c) =>
      match TariffPrices(env, config)
      case Ok(prices) => SavingsPrice(prices, KeyOf(b), KeyOf(c))
      case Err(e) => Err(e)
  }

  /**
   * When `_get_tariff_prices` succeeds, each tariff's entry is the price that tariff's own
   * cost sensor is charged at that moment.
   */
  lemma TariffPricesAgree(t: TariffName, env: Env, config: Settings)
    requires ValidEnv(env) && TariffPrices(env, config).Ok?
    ensures CurrentPrice(AtTariff(t), env, config).Ok?
    ensures Get(TariffPrices(env, config).value, KeyOf(t)) == Some(CurrentPrice(AtTariff(t), env, config).value)
  {
    var prices := TariffPrices(env, config).value;
    assert prices[0] == ("dynamic", OrNull(Get(env.data.value.today, env.now.hour)));
    assert prices[1] == ("g12", Num(G12Now(env, config).value));
    assert prices[2] == ("g12w", G12wNow(env, config).value);
    match t
    case Dynamic =>
      assert Get(prices, "dynamic") == Some(prices[0].1);
    case G12 =>
      assert Get(prices, "g12") == Some(prices[1].1);
    case G12w =>
      assert Get(prices, "g12w") == Some(prices[2].1);
  }

  /**
   * With prices available, a savings sensor is charged the compare tariff's price minus the
   * base tariff's, as the two single-tariff cost sensors see them.
   */
  lemma SavingsIsPriceDifference(b: TariffName, c: TariffName, env: Env, config: Settings, pb: real, pc: real)
    requires ValidEnv(env) && TariffPrices(env, config).Ok?
    requires CurrentPrice(AtTariff(b), env, config) == Ok(Num(pb))
    requires CurrentPrice(AtTariff(c), env, config) == Ok(Num(pc))
    ensures CurrentPrice(Savings(b, c), env, config) == Ok(Num(pc - pb))
  {
    TariffPricesAgree(b, env, config);
    TariffPricesAgree(c, env, config);
  }

  /**
   * What processing a positive delta adds to a cost: `delta * price`, or nothing when the
   * price is `None` or the price lookup or the multiplication raises.
   */
  function Charge(delta: real, price: Result<Value, PyError>): Option<real> {
    if price.Err? || price.value.Null? || Numeric(price.value).Err? then None
    else Some(Cost(delta, Numeric(price.value).value))
  }

  /** The cost of `delta` kWh at `price` per kWh. */
  function Cost(delta: real, price: real): real {
    delta * price
  }

  // ---------------------------------------------------------------- cost and savings sensors

  datatype Period = Daily | Monthly

  /** `CostSensor` and its subclass `SavingsSensor`: the cost accumulated in the current period. */
  class CostSensor {
    const meter: EnergyMeter
    const config: Settings
    const pricing: Pricing
    const period: Period
    var cost: real
    /** The charges added since the last reset, in order. */
    ghost var charges: seq<real>

    /** The cost is the sum of the charges of the current period. */
    ghost predicate Valid()
      reads this
    {
      cost == Total(charges)
    }

    constructor(meter: EnergyMeter, config: Settings, pricing: Pricing, period: Period)
      ensures this.meter == meter && this.config == config
      ensures this.pricing == pricing && this.period == period
      ensures cost == 0.0 && charges == [] && Valid()
    {
      this.meter := meter;
      this.config := config;
      this.pricing := pricing;
      this.period := period;
      cost := 0.0;
      charges := [];
    }

    /** `_reset_state` at 00:00:05: a daily cost always starts over, a monthly one on day 1. */
    method ResetState(day: int)
      requires Valid()
      modifies this
      ensures Valid()
      ensures period == Daily || day == 1 ==> cost == 0.0 && charges == []
      ensures !(period == Daily || day == 1) ==> cost == old(cost) && charges == old(charges)
    {
      if period == Daily || (period == Monthly && day == 1) {
        cost := 0.0;
        charges := [];
      }
    }

    /** `_process_energy_delta`: the current price is looked up and the charge, if any, added. */
    method ProcessEnergyDelta(delta: real, env: Env)
      requires ValidEnv(env) && Valid()
      modifies this
      ensures Valid()
      ensures var ch := Charge(delta, CurrentPrice(pricing, env, config));
              && cost == old(cost) + ch.GetOr(0.0)
              && charges == old(charges) + (if ch.Some? then [ch.value] else [])
    {
      var price := CurrentPrice(pricing, env, config);
      AddCharge(delta, price);
    }

    /** The rest of `_process_energy_delta`: `if price is not None: cost += delta * price`. */
    method AddCharge(delta: real, price: Result<Value, PyError>)
      requires Valid()
      modifies this
      ensures Valid()
      ensures var ch := Charge(delta, price);
              && cost == old(cost) + ch.GetOr(0.0)
              && charges == old(charges) + (if ch.Some? then [ch.value] else [])
    {
      assert charges + [] == charges;
      if price.Err? {
        return;
      }
      if !price.value.Null? {
        var factor := Numeric(price.value);
        if factor.Err? {
          return;
        }
        ghost var ch := Charge(delta, price);
        assert ch.Some?;
        assert ch.value == Cost(delta, factor.value);
        cost := cost + Cost(delta, factor.value);
        TotalAppend(charges, [Cost(delta, factor.value)]);
        charges := charges + [Cost(delta, factor.value)];
      }
    }

    /** `_handle_energy_change`: a positive delta is priced at the moment of the change. */
    method HandleEnergyChange(newState: Option<string>, env: Env)
      requires ValidEnv(env) && Valid()
      modifies this, meter
      ensures Valid()
      ensures Reading(newState).None? ==> meter.lastReading == old(meter.lastReading) && cost == old(cost)
      ensures Reading(newState).Some? ==>
                && meter.lastReading == Reading(newState)
                && var d := EnergyDelta(old(meter.lastReading), meter.sensorType, Reading(newState).value);
                   cost == old(cost) + (if d > 0.0 then Charge(d, CurrentPrice(pricing, env, config)).GetOr(0.0) else 0.0)
    {
      var delta := meter.HandleEnergyChange(newState);
      if delta.Some? {
        ProcessEnergyDelta(delta.value, env);
      }
    }
  }

  // ---------------------------------------------------------------- the recommendation sensor

  /** The costs a recommendation sensor starts each month with. */
  const ZeroCosts: Dict<string, real> := [("dynamic", 0.0), ("g12", 0.0), ("g12w", 0.0)]

  /**
   * `for tariff, price in prices.items(): if price is not None: costs[tariff] += delta * price`.
   * A tariff missing from the costs (`KeyError`) or a price that cannot be multiplied
   * (`TypeError`) ends the loop, keeping the additions made before it.
   */
  function AddCosts(costs: Dict<string, real>, prices: Dict<string, Value>, delta: real): Dict<string, real>
    decreases |prices|
  {
    if |prices| == 0 then costs
    else
      match AddCost(costs, prices[0], delta)
      case None => costs
      case Some(next) => AddCosts(next, prices[1..], delta)
  }

  /** One iteration of that loop; `None` when it raises. */
  function AddCost(costs: Dict<string, real>, entry: (string, Value), delta: real): Option<Dict<string, real>> {
    var (tariff, price) := entry;
    if price.Null? then Some(costs)
    else if HasKey(costs, tariff) && Numeric(price).Ok? then
      Some(Put(costs, tariff, Get(costs, tariff).value + Cost(delta, Numeric(price).value)))
    else None
  }

  /** `AddCosts` from the `i`-th price on, one loop step unfolded. */
  lemma AddCostsFrom(costs: Dict<string, real>, prices: Dict<string, Value>, i: int, delta: real)
    requires 0 <= i < |prices|
    ensures AddCosts(costs, prices[i..], delta) ==
            match AddCost(costs, prices[i], delta)
            case None => costs
            case Some(next) => AddCosts(next, prices[i + 1..], delta)
  {
    var q := prices[i..];
    assert q[0] == prices[i] && q[1..] == prices[i + 1..];
  }

  /** One iteration with a known tariff and a number or `None`: only that tariff's cost changes. */
  lemma AddCostEffect(costs: Dict<string, real>, entry: (string, Value), delta: real, k: string)
    requires HasKey(costs, entry.0) && (entry.1.Null? || entry.1.Num?)
    ensures AddCost(costs, entry, delta).Some?
    ensures forall j :: HasKey(costs, j) ==> HasKey(AddCost(costs, entry, delta).value, j)
    ensures Get(AddCost(costs, entry, delta).value, k) ==
            if k == entry.0 && entry.1.Num? then Some(Get(costs, k).value + Cost(delta, entry.1.n))
            else Get(costs, k)
  {
  }

  /**
   * When every tariff has a cost and every price is a number or `None`, each tariff's cost
   * grows by exactly `delta` times its own price, and a `None` price leaves its cost alone.
   */
  lemma {:induction false} AddCostsExact(costs: Dict<string, real>, prices: Dict<string, Value>, delta: real, k: string)
    requires Distinct(prices)
    requires forall i :: 0 <= i < |prices| ==> HasKey(costs, prices[i].0) && (prices[i].1.Null? || prices[i].1.Num?)
    ensures Get(prices, k).Some? && Get(prices, k).value.Num? ==>
              && HasKey(costs, k)
              && Get(AddCosts(costs, prices, delta), k).Some?
              && Get(AddCosts(costs, prices, delta), k).value == Get(costs, k).value + Cost(delta, Get(prices, k).value.n)
    ensures !(Get(prices, k).Some? && Get(prices, k).value.Num?) ==>
              Get(AddCosts(costs, prices, delta), k) == Get(costs, k)
    decreases |prices|
  {
    if |prices| == 0 {
      return;
    }
    var rest := prices[1..];
    assert !HasKey(rest, prices[0].0) && Distinct(rest);
    AddCostEffect(costs, prices[0], delta, k);
    var next := AddCost(costs, prices[0], delta).value;
    forall i | 0 <= i < |rest|
      ensures HasKey(next, rest[i].0) && (rest[i].1.Null? || rest[i].1.Num?)
    {
      assert rest[i] == prices[i + 1];
    }
    AddCostsExact(next, rest, delta, k);
    if k != prices[0].0 {
      assert Get(prices, k) == Get(rest, k);
    } else {
      assert Get(rest, k).None?;
    }
  }

  /** `Recommendation`'s `mapping`: each option label with the price `prices.get` finds for it. */
  function Offered(prices: Dict<string, Value>): seq<(string, Value)> {
    [ ("dynamiczna", Get(prices, "dynamic").GetOr(Null)),
      ("g12", Get(prices, "g12").GetOr(Null)),
      ("g12w", Get(prices, "g12w").GetOr(Null)) ]
  }

  /** An offered price the recommendation can use: not `None`, and accepted by `float()`. */
  predicate Usable(v: Value) {
    !v.Null? && FloatOf(v).Ok?
  }

  /**
   * The recommendation for offered prices: `brak_danych` when no price is usable, otherwise
   * the label of a usable price that is no higher than any other and strictly lower than
   * every usable price listed before it.
   */
  predicate IsRecommendation(offered: seq<(string, Value)>, choice: string) {
    if forall i :: 0 <= i < |offered| ==> !Usable(offered[i].1) then choice == "brak_danych"
    else
      exists i :: 0 <= i < |offered| && Usable(offered[i].1) && choice == offered[i].0
        && (forall j :: 0 <= j < |offered| && Usable(offered[j].1) ==>
              FloatOf(offered[i].1).value <= FloatOf(offered[j].1).value)
        && (forall j :: 0 <= j < i && Usable(offered[j].1) ==>
              FloatOf(offered[j].1).value > FloatOf(offered[i].1).value)
  }

  /** The recommendation is determined by the offered prices: there is only one. */
  lemma RecommendationIsUnique(offered: seq<(string, Value)>, a: string, b: string)
    requires IsRecommendation(offered, a) && IsRecommendation(offered, b)
    ensures a == b
  {
    if exists i :: 0 <= i < |offered| && Usable(offered[i].1) {
      var i :| 0 <= i < |offered| && Usable(offered[i].1) && a == offered[i].0
        && (forall j :: 0 <= j < |offered| && Usable(offered[j].1) ==>
              FloatOf(offered[i].1).value <= FloatOf(offered[j].1).value)
        && (forall j :: 0 <= j < i && Usable(offered[j].1) ==>
              FloatOf(offered[j].1).value > FloatOf(offered[i].1).value);
      var k :| 0 <= k < |offered| && Usable(offered[k].1) && b == offered[k].0
        && (forall j :: 0 <= j < |offered| && Usable(offered[j].1) ==>
              FloatOf(offered[k].1).value <= FloatOf(offered[j].1).value)
        && (forall j :: 0 <= j < k && Usable(offered[j].1) ==>
              FloatOf(offered[j].1).value > FloatOf(offered[k].1).value);
      assert i == k;
    }
  }

  /**
   * `filtered` holds, in order, the usable prices among the first `n` offered ones, and
   * `from[t]` is where `filtered[t]` was offered.
   */
  ghost predicate Collected(offered: seq<(string, Value)>, n: int, filtered: seq<(string, real)>, from: seq<int>)
    requires 0 <= n <= |offered|
  {
    && |from| == |filtered|
    && (forall t :: 0 <= t < |from| ==>
          0 <= from[t] < n && Usable(offered[from[t]].1)
          && filtered[t] == (offered[from[t]].0, FloatOf(offered[from[t]].1).value))
    && (forall s, t :: 0 <= s < t < |from| ==> from[s] < from[t])
    && (forall j :: 0 <= j < n && Usable(offered[j].1) ==> j in from)
  }

  /** One step of the collection: the `n`-th price is kept exactly when it is usable. */
  lemma CollectStep(offered: seq<(string, Value)>, n: int, filtered: seq<(string, real)>, from: seq<int>)
    requires 0 <= n < |offered| && Collected(offered, n, filtered, from)
    ensures Usable(offered[n].1) ==>
              Collected(offered, n + 1, filtered + [(offered[n].0, FloatOf(offered[n].1).value)], from + [n])
    ensures !Usable(offered[n].1) ==> Collected(offered, n + 1, filtered, from)
  {
  }

  /** The first lowest of all the usable prices, found in `filtered`, is the recommendation. */
  lemma LowestIsRecommendation(offered: seq<(string, Value)>, filtered: seq<(string, real)>, from: seq<int>)
    requires |filtered| > 0 && Collected(offered, |offered|, filtered, from)
    ensures IsRecommendation(offered, filtered[BestIndex(filtered, Lowest)].0)
  {
    var best := BestIndex(filtered, Lowest);
    var i := from[best];
    assert Usable(offered[i].1);
    forall j | 0 <= j < |offered| && Usable(offered[j].1)
      ensures FloatOf(offered[i].1).value <= FloatOf(offered[j].1).value
      ensures j < i ==> FloatOf(offered[j].1).value > FloatOf(offered[i].1).value
    {
      var t :| 0 <= t < |from| && from[t] == j;
      assert !Beats(Lowest, filtered[t].1, filtered[best].1);
      if j < i {
        assert t < best;
      }
    }
  }

  /**
   * The body of `RecommendationSensor.native_value` after the prices are read: the usable
   * prices are collected in order into `filtered`, and the first cheapest is chosen.
   */
  method Recommend(offered: seq<(string, Value)>) returns (choice: string)
    ensures IsRecommendation(offered, choice)
  {
    var filtered: seq<(string, real)> := [];
    ghost var from: seq<int> := [];
    for i := 0 to |offered|
      invariant Collected(offered, i, filtered, from)
    {
      CollectStep(offered, i, filtered, from);
      var entry := offered[i];
      if !entry.1.Null? {
        var f := FloatOf(entry.1);
        if f.Ok? {
          filtered := filtered + [(entry.0, f.value)];
          from := from + [i];
        }
      }
    }
    if |filtered| == 0 {
      assert forall j :: 0 <= j < |offered| ==> !Usable(offered[j].1);
      return "brak_danych";
    }
    LowestIsRecommendation(offered, filtered, from);
    choice := filtered[BestIndex(filtered, Lowest)].0;
  }

  /** `RecommendationSensor`: the costs per tariff over the current month, and the recommendation. */
  class RecommendationSensor {
    const meter: EnergyMeter
    const config: Settings
    var costs: Dict<string, real>

    constructor(meter: EnergyMeter, config: Settings)
      ensures this.meter == meter && this.config == config && costs == ZeroCosts
    {
      this.meter := meter;
      this.config := config;
      costs := ZeroCosts;
    }

    /** `_reset_state` at 00:00:05: the costs start over on the first day of a month. */
    method ResetState(day: int)
      modifies this
      ensures costs == if day == 1 then ZeroCosts else old(costs)
    {
      if day == 1 {
        costs := ZeroCosts;
      }
    }

    /** `_process_energy_delta`: the prices are read, then added to the costs; a read that raises changes nothing. */
    method ProcessEnergyDelta(delta: real, env: Env)
      requires ValidEnv(env)
      modifies this
      ensures costs == match TariffPrices(env, config)
                       case Ok(prices) => AddCosts(old(costs), prices, delta)
                       case Err(_) => old(costs)
    {
      var r := TariffPrices(env, config);
      if r.Ok? {
        AddToCosts(r.value, delta);
      }
    }

    /** The loop of `_process_energy_delta`. */
    method AddToCosts(prices: Dict<string, Value>, delta: real)
      modifies this
      ensures costs == AddCosts(old(costs), prices, delta)
    {
      var acc := costs;
      var i := 0;
      while i < |prices|
        invariant 0 <= i <= |prices|
        invariant AddCosts(acc, prices[i..], delta) == AddCosts(old(costs), prices, delta)
      {
        AddCostsFrom(acc, prices, i, delta);
        var tariff, price := prices[i].0, prices[i].1;
        if !price.Null? {
          var factor := Numeric(price);
          if !HasKey(acc, tariff) || factor.Err? {
            costs := acc;
            return;
          }
          acc := Put(acc, tariff, Get(acc, tariff).value + Cost(delta, factor.value));
        }
        i := i + 1;
      }
      assert prices[i..] == [];
      costs := acc;
    }

    /** `_handle_energy_change`: a positive delta is added to each tariff's cost at its current price. */
    method HandleEnergyChange(newState: Option<string>, env: Env)
      requires ValidEnv(env)
      modifies this, meter
      ensures Reading(newState).None? ==> meter.lastReading == old(meter.lastReading) && costs == old(costs)
      ensures Reading(newState).Some? ==>
                && meter.lastReading == Reading(newState)
                && var d := EnergyDelta(old(meter.lastReading), meter.sensorType, Reading(newState).value);
                   costs == if d > 0.0 then
                              match TariffPrices(env, config)
                              case Ok(prices) => AddCosts(old(costs), prices, d)
                              case Err(_) => old(costs)
                            else old(costs)
    {
      var delta := meter.HandleEnergyChange(newState);
      if delta.Some? {
        ProcessEnergyDelta(delta.value, env);
      }
    }

    /** `native_value`: any exception while reading the prices gives `brak_danych`. */
    method NativeValue(env: Env) returns (choice: string)
      requires ValidEnv(env)
      ensures TariffPrices(env, config).Err? ==> choice == "brak_danych"
      ensures TariffPrices(env, config).Ok? ==> IsRecommendation(Offered(TariffPrices(env, config).value), choice)
    {
      var r := TariffPrices(env, config);
      if r.Err? {
        return "brak_danych";
      }
      choice := Recommend(Offered(r.value));
    }
  }

  // ---------------------------------------------------------------- the peak / off-peak label

  /** The config key of the settings the label reads: G12w's for G12w, G12's otherwise. */
  function SettingsKey(tariff: TariffName): string {
    if tariff == G12w then "g12w_settings" else "g12_settings"
  }

  /**
   * `CurrentTariffSensor.native_value`: `poza_szczytem` on a G12w off day; otherwise the
   * seasonal peak setting is parsed as in `calculate_tariff_price`, except that a setting
   * that is not a string is not passed through `str()`: a falsy one means no peak hours and
   * a truthy one has no `.split` (`AttributeError`).
   */
  function TariffLabel(tariff: TariffName, env: Env, config: Settings): (r: Result<string, PyError>)
    requires ValidEnv(env)
    ensures r.Ok? ==> r.value == "szczyt" || r.value == "poza_szczytem"
  {
    var settings := Get(config, SettingsKey(tariff)).GetOr(Obj([]));
    if tariff == G12w && OffDay(env.now.date, env.holidays) then Ok("poza_szczytem")
    else if !settings.Obj? then Err(AttributeError)
    else
      var chosen := SeasonalPeakSetting(env.now.summer, settings.fields);
      if chosen.Str? then Ok(if IsPeak(env.now.hour, HourRanges(chosen.s)) then "szczyt" else "poza_szczytem")
      else if !Truthy(chosen) then Ok("poza_szczytem")
      else Err(AttributeError)
  }

  /**
   * The label agrees with the price calculator: whenever it can be shown, it is `szczyt`
   * exactly when the calculator charges `price_peak` (never on a G12w off day).
   */
  lemma TariffLabelAgreesWithPrice(tariff: TariffName, env: Env, config: Settings, settings: Settings)
    requires ValidEnv(env) && tariff != Dynamic
    requires Get(config, SettingsKey(tariff)) == Some(Obj(settings))
    requires TariffLabel(tariff, env, config).Ok?
    ensures var peak := IsPeak(env.now.hour, PeakRanges(env.now.summer, settings));
            TariffLabel(tariff, env, config) == Ok("szczyt") <==>
              peak && !(tariff == G12w && OffDay(env.now.date, env.holidays))
  {
  }

  // ---------------------------------------------------------------- day prices

  datatype Day = Today | Tomorrow

  /** `_get_day_prices(day)`: nothing before the first refresh; tomorrow's prices may be unknown. */
  function DayPrices(data: Option<Coordinator.PriceData>, day: Day): (r: Option<Coordinator.PriceMap>)
    ensures r.Some? ==> data.Some?
    ensures day == Today ==> (r.Some? <==> data.Some?)
    ensures r.Some? ==> r.value == data.value.today || Some(r.value) == data.value.tomorrow
  {
    if data.None? then None
    else if day == Today then Some(data.value.today)
    else data.value.tomorrow
  }

  /** `"min"` or `"max"` */
  datatype Extreme = Lowest | Highest

  /** `a` is strictly better than `b` for the extreme sought. */
  predicate Beats(mode: Extreme, a: real, b: real) {
    if mode == Lowest then a < b else a > b
  }

  /**
   * Python's `min` / `max` by price: scanning in order and replacing the candidate only by a
   * strictly better entry, it finds the first entry that no entry beats.
   */
  function BestIndex<K>(d: seq<(K, real)>, mode: Extreme): (i: nat)
    requires |d| > 0
    ensures i < |d|
    ensures forall j :: 0 <= j < |d| ==> !Beats(mode, d[j].1, d[i].1)
    ensures forall j :: 0 <= j < i ==> Beats(mode, d[i].1, d[j].1)
  {
    if |d| == 1 then 0
    else
      var i := BestIndex(d[..|d| - 1], mode);
      if Beats(mode, d[|d| - 1].1, d[i].1) then |d| - 1 else i
  }

  /** `f"{h:02d}:00"` */
  function HourLabel(h: int): string {
    (if h >= 0 then Pad(h, 2) else IntToStr(h)) + ":00"
  }

  /** An hour label reads back as its hour, and an hour of the day takes five characters. */
  lemma HourLabelReadsBack(h: int)
    ensures var s := HourLabel(h);
            |s| >= 4 && s[|s| - 3..] == ":00" && IntOf(s[..|s| - 3]) == Some(h)
    ensures 0 <= h < 100 ==> |HourLabel(h)| == 5
  {
    var s := HourLabel(h);
    if h >= 0 {
      var p := Pad(h, 2);
      assert s[..|s| - 3] == p;
      IntOfDigits(p);
      if h < 100 {
        PadValue(h, 2);
      } else {
        NatToStrValue(h);
        assert NatToStr(h) == p;
      }
    } else {
      assert s[..|s| - 3] == IntToStr(h);
      IntOfIntToStr(h);
    }
  }

  /**
   * `CheapestHourSensor.native_value`: nothing without prices for the day, otherwise the
   * first hour, in the dict's order, whose price is minimal.
   */
  function CheapestHour(data: Option<Coordinator.PriceData>, day: Day): (r: Option<string>)
    ensures r.None? <==> DayPrices(data, day).None? || |DayPrices(data, day).value| == 0
    ensures r.Some? ==>
              var p := DayPrices(data, day).value;
              exists i :: 0 <= i < |p| && r.value == HourLabel(p[i].0)
                && (forall j :: 0 <= j < |p| ==> p[i].1 <= p[j].1)
                && (forall j :: 0 <= j < i ==> p[j].1 > p[i].1)
  {
    var prices := DayPrices(data, day);
    if prices.None? || |prices.value| == 0 then None
    else
      var i := BestIndex(prices.value, Lowest);
      Some(HourLabel(prices.value[i].0))
  }

  /** `MinMaxPriceSensor.native_value` before unit scaling: the lowest or highest price of the day. */
  function ExtremePrice(data: Option<Coordinator.PriceData>, day: Day, mode: Extreme): (r: Option<real>)
    ensures r.None? <==> DayPrices(data, day).None? || |DayPrices(data, day).value| == 0
    ensures r.Some? ==>
              var p := DayPrices(data, day).value;
              (exists i :: 0 <= i < |p| && p[i].1 == r.value)
              && forall j :: 0 <= j < |p| ==> !Beats(mode, p[j].1, r.value)
  {
    var prices := DayPrices(data, day);
    if prices.None? || |prices.value| == 0 then None
    else Some(prices.value[BestIndex(prices.value, mode)].1)
  }

  /** `[f"{h:02d}:00" for h, p in prices.items() if p == v]` */
  function HoursPricedAt(d: Coordinator.PriceMap, v: real): (hs: seq<string>)
    ensures forall s :: s in hs <==> exists i :: 0 <= i < |d| && d[i].1 == v && s == HourLabel(d[i].0)
  {
    if |d| == 0 then []
    else
      var rest := HoursPricedAt(d[1..], v);
      assert forall i :: 1 <= i < |d| ==> d[i] == d[1..][i - 1];
      (if d[0].1 == v then [HourLabel(d[0].0)] else []) + rest
  }

  /** Entry `i` is the only one priced at `v`. */
  predicate OnlyAt(d: Coordinator.PriceMap, v: real, i: int) {
    0 <= i < |d| && d[i].1 == v && forall j :: 0 <= j < |d| && j != i ==> d[j].1 != v
  }

  /** Exactly one hour label is listed iff exactly one entry has the price, and it is that entry's. */
  lemma {:induction false} OneHourIffOnlyOne(d: Coordinator.PriceMap, v: real)
    ensures |HoursPricedAt(d, v)| == 1 <==> exists i :: OnlyAt(d, v, i)
    ensures forall i :: OnlyAt(d, v, i) ==> HoursPricedAt(d, v) == [HourLabel(d[i].0)]
  {
    if |d| > 0 {
      var rest := d[1..];
      var hs, tail := HoursPricedAt(d, v), HoursPricedAt(rest, v);
      OneHourIffOnlyOne(rest, v);
      assert forall i :: 1 <= i < |d| ==> d[i] == rest[i - 1];
      if d[0].1 == v {
        assert hs == [HourLabel(d[0].0)] + tail;
        if |tail| == 0 {
          forall j | 0 <= j < |rest|
            ensures rest[j].1 != v
          {
            assert HourLabel(rest[j].0) !in tail;
          }
          assert OnlyAt(d, v, 0);
        } else {
          assert tail[0] in tail;
          var k :| 0 <= k < |rest| && rest[k].1 == v && tail[0] == HourLabel(rest[k].0);
          assert d[k + 1].1 == v;
          assert forall i :: !OnlyAt(d, v, i);
        }
      } else {
        assert hs == tail;
        forall i | OnlyAt(d, v, i)
          ensures OnlyAt(rest, v, i - 1)
        {
          assert i > 0;
          forall j | 0 <= j < |rest| && j != i - 1
            ensures rest[j].1 != v
          {
            assert rest[j] == d[j + 1];
          }
        }
        forall i | OnlyAt(rest, v, i)
          ensures OnlyAt(d, v, i + 1)
        {
          forall j | 0 <= j < |d| && j != i + 1
            ensures d[j].1 != v
          {
            if j > 0 {
              assert d[j] == rest[j - 1];
            }
          }
        }
        if exists i :: OnlyAt(rest, v, i) {
          var i :| OnlyAt(rest, v, i);
          assert OnlyAt(d, v, i + 1);
        }
        if exists i :: OnlyAt(d, v, i) {
          var i :| OnlyAt(d, v, i);
          assert OnlyAt(rest, v, i - 1);
        }
      }
    }
  }

  /** `MinMaxPriceSensor.extra_state_attributes` */
  datatype ExtremeAttributes = ExtremeAttributes(prices: Coordinator.PriceMap, hour: Option<string>, hours: Option<seq<string>>)

  function ExtremeAttrs(data: Option<Coordinator.PriceData>, day: Day, mode: Extreme): (a: ExtremeAttributes)
    ensures a.hour.None? || a.hours.None?
  {
    match ExtremePrice(data, day, mode)
    case None => ExtremeAttributes([], None, None)
    case Some(v) =>
      var prices := DayPrices(data, day).value;
      var hs := HoursPricedAt(prices, v);
      if |hs| == 1 then ExtremeAttributes(prices, Some(hs[0]), None)
      else ExtremeAttributes(prices, None, Some(hs))
  }

  /**
   * Without prices the attributes are `{"prices": {}}`. Otherwise they carry the day's
   * prices and `hour` when exactly one hour has the extreme price, else `hours` listing the
   * label of every hour that has it.
   */
  lemma ExtremeAttrsReportTies(data: Option<Coordinator.PriceData>, day: Day, mode: Extreme)
    ensures var a := ExtremeAttrs(data, day, mode);
            var v := ExtremePrice(data, day, mode);
            && (v.None? ==> a == ExtremeAttributes([], None, None))
            && (v.Some? ==>
                  var p := DayPrices(data, day).value;
                  && a.prices == p
                  && (a.hour.Some? <==> exists i :: OnlyAt(p, v.value, i))
                  && (forall i :: OnlyAt(p, v.value, i) ==> a.hour == Some(HourLabel(p[i].0)))
                  && (a.hours.Some? <==> a.hour.None?)
                  && (a.hours.Some? ==>
                        forall s :: s in a.hours.value <==>
                          exists i :: 0 <= i < |p| && p[i].1 == v.value && s == HourLabel(p[i].0)))
  {
    var v := ExtremePrice(data, day, mode);
    if v.Some? {
      OneHourIffOnlyOne(DayPrices(data, day).value, v.value);
    }
  }
}
