/**
 * The tariff calculator of `helpers.py`: peak-hour strings such as `"6-13,15-22"`, the
 * half-open peak test, the seasonal choice of the peak-hour setting, and the G12 / G12w
 * prices. A settings map is the Python dict stored in the config entry, so its values are
 * whatever the entry holds (`Json.Value`); `dict.get` misses and type errors are modelled.
 */
module Tariff {
  import opened Wrappers
  import opened Text
  import opened OrderedDict
  import opened Json
  import opened Calendar

  /** `(start, end)`: the hours `start <= h < end`. */
  type HourRange = (int, int)

  /** A settings dict such as `config["g12_settings"]`. */
  type Settings = Dict<string, Value>

  /**
   * The local time the calculator is asked about: the calendar date, the hour of the day
   * and whether daylight-saving time is in effect (`is_summer_time`).
   */
  datatype Moment = Moment(date: Date, hour: int, summer: bool)

  // ---------------------------------------------------------------- parse_hour_ranges

  /**
   * One comma-separated piece: `start_str, end_str = part.strip().split("-")` followed by two
   * `int()` calls. `None` is the `ValueError` of a wrong piece count or a non-integer bound.
   */
  function ParseRange(part: string): Option<HourRange> {
    var bounds := Split(Strip(part), '-');
    if |bounds| != 2 then None
    else
      match (IntOf(bounds[0]), IntOf(bounds[1]))
      case (Some(a), Some(b)) => Some((a, b))
      case _ => None
  }

  /**
   * A piece reads exactly when, once stripped, it holds one dash and `int()` reads both
   * sides of it; the pair is those two integers.
   */
  lemma PieceNeedsOneDash(part: string)
    ensures var bounds := Split(Strip(part), '-');
            ParseRange(part).Some? <==> |bounds| == 2 && IntOf(bounds[0]).Some? && IntOf(bounds[1]).Some?
    ensures var bounds := Split(Strip(part), '-');
            ParseRange(part).Some? ==> ParseRange(part).value == (IntOf(bounds[0]).value, IntOf(bounds[1]).value)
    ensures ParseRange(part).Some? ==> multiset(Strip(part))['-'] == 1
  {
    SplitCount(Strip(part), '-');
  }

  /** The outcome of each comma-separated piece of `s`, in order. */
  function PieceResults(s: string): (rs: seq<Option<HourRange>>)
    ensures |rs| == |Split(s, ',')|
    ensures forall i :: 0 <= i < |rs| ==> rs[i] == ParseRange(Split(s, ',')[i])
  {
    var parts := Split(s, ',');
    seq(|parts|, i requires 0 <= i < |parts| => ParseRange(parts[i]))
  }

  /**
   * `parse_hour_ranges(s)`: the empty string has no ranges; otherwise the pairs of the
   * comma-separated pieces in input order, or no ranges at all if any piece is malformed.
   */
  function HourRanges(s: string): (r: seq<HourRange>)
    ensures s == "" ==> r == []
    ensures s != "" && (forall i :: 0 <= i < |Split(s, ',')| ==> ParseRange(Split(s, ',')[i]).Some?)
            ==> |r| == |Split(s, ',')|
                && forall i :: 0 <= i < |r| ==> r[i] == ParseRange(Split(s, ',')[i]).value
    ensures (exists i :: 0 <= i < |Split(s, ',')| && ParseRange(Split(s, ',')[i]).None?) ==> r == []
  {
    if s == "" then [] else Collect(PieceResults(s)).GetOr([])
  }

  /**
   * A text without commas whose stripped form does not hold exactly one dash (no dash at
   * all, or two or more) is one malformed piece, so no ranges.
   */
  lemma SinglePieceWithoutOneDash(s: string)
    requires s != "" && ',' !in s && multiset(Strip(s))['-'] != 1
    ensures HourRanges(s) == []
  {
    SplitWithoutSep(s, ',');
    PieceNeedsOneDash(s);
    assert ParseRange(Split(s, ',')[0]).None?;
  }

  /** The malformed inputs `"abc"`, `"613"`, `"6"` and `"6-13-20"` give no ranges. */
  lemma MalformedRangesRejected()
    ensures HourRanges("abc") == [] && HourRanges("613") == []
    ensures HourRanges("6") == [] && HourRanges("6-13-20") == []
  {
    LettersRejected();
    UndashedRejected();
    LoneHourRejected();
    TwoDashesRejected();
  }

  lemma LettersRejected()
    ensures HourRanges("abc") == []
  {
    NoDashUnpadded("abc");
  }

  lemma UndashedRejected()
    ensures HourRanges("613") == []
  {
    NoDashUnpadded("613");
  }

  lemma LoneHourRejected()
    ensures HourRanges("6") == []
  {
    NoDashUnpadded("6");
  }

  lemma TwoDashesRejected()
    ensures HourRanges("6-13-20") == []
  {
    assert multiset("6-13-20")['-'] == 2;
    UnpaddedWithoutOneDash("6-13-20");
  }

  lemma NoDashUnpadded(s: string)
    requires s != "" && ',' !in s && '-' !in s && NoSpace(s)
    ensures HourRanges(s) == []
  {
    UnpaddedWithoutOneDash(s);
  }

  lemma UnpaddedWithoutOneDash(s: string)
    requires s != "" && ',' !in s && NoSpace(s) && multiset(s)['-'] != 1
    ensures HourRanges(s) == []
  {
    assert Strip(s) == s;
    SinglePieceWithoutOneDash(s);
  }

  /** Pieces that all read give exactly their pairs, in order. */
  lemma HourRangesOfPieces(s: string, pairs: seq<HourRange>)
    requires s != "" && |pairs| == |Split(s, ',')|
    requires forall i :: 0 <= i < |pairs| ==> ParseRange(Split(s, ',')[i]) == Some(pairs[i])
    ensures HourRanges(s) == pairs
  {
    CollectAllSome(PieceResults(s), pairs);
  }

  /** The loop of `parse_hour_ranges`: append piece by piece, give up with `[]` on a bad piece. */
  method ParseHourRanges(s: string) returns (ranges: seq<HourRange>)
    ensures ranges == HourRanges(s)
  {
    ranges := [];
    if s == "" {
      return;
    }
    var parts := Split(s, ',');
    ghost var results := PieceResults(s);
    var i := 0;
    while i < |parts|
      invariant 0 <= i <= |parts| && |ranges| == i
      invariant forall j :: 0 <= j < i ==> results[j] == Some(ranges[j])
    {
      var range := ParseRange(parts[i]);
      if range.None? {
        return [];
      }
      ExtendPresent(results, ranges, range.value);
      ranges := ranges + [range.value];
      i := i + 1;
    }
    CollectAllSome(results, ranges);
  }

  /** `f"{start}-{end}"` for a pair of hours. */
  function RangeText(r: HourRange): string
    requires r.0 >= 0 && r.1 >= 0
  {
    NatToStr(r.0) + "-" + NatToStr(r.1)
  }

  predicate NonNegative(rs: seq<HourRange>) {
    forall i :: 0 <= i < |rs| ==> rs[i].0 >= 0 && rs[i].1 >= 0
  }

  function RangeTexts(rs: seq<HourRange>): (ts: seq<string>)
    requires NonNegative(rs)
    ensures |ts| == |rs| && forall i :: 0 <= i < |rs| ==> ts[i] == RangeText(rs[i])
  {
    if |rs| == 0 then [] else [RangeText(rs[0])] + RangeTexts(rs[1..])
  }

  /** The peak-hour string that lists `rs`, as the configuration form expects it. */
  function RangesText(rs: seq<HourRange>): string
    requires |rs| >= 1 && NonNegative(rs)
  {
    Join(RangeTexts(rs), ',')
  }

  lemma DigitsHaveNoSeparators(s: string)
    requires IsDigits(s)
    ensures ',' !in s && '-' !in s && NoSpace(s)
  {
    assert forall i :: 0 <= i < |s| ==> s[i] != ',' && s[i] != '-' && !IsSpace(s[i]) by {
      forall i | 0 <= i < |s|
        ensures s[i] != ',' && s[i] != '-' && !IsSpace(s[i])
      {
        assert IsDigit(s[i]);
      }
    }
  }

  /** Two digit runs joined by a dash: no comma, no space, and two pieces when split at the dash. */
  lemma DashedPair(a: string, b: string)
    requires IsDigits(a) && IsDigits(b)
    ensures var t := a + "-" + b;
            ',' !in t && NoSpace(t) && Split(t, '-') == [a, b]
  {
    DigitsHaveNoSeparators(a);
    DigitsHaveNoSeparators(b);
    var t := a + "-" + b;
    forall i | 0 <= i < |t|
      ensures t[i] != ',' && !IsSpace(t[i])
    {
      if i < |a| {
        assert t[i] == a[i];
      } else if i > |a| {
        assert t[i] == b[i - |a| - 1];
      }
    }
    assert Join([a, b], '-') == t;
    SplitJoin([a, b], '-');
  }

  /** A single written pair reads back as itself. */
  lemma ParseRangeText(r: HourRange)
    requires r.0 >= 0 && r.1 >= 0
    ensures ',' !in RangeText(r)
    ensures ParseRange(RangeText(r)) == Some(r)
  {
    var a, b := NatToStr(r.0), NatToStr(r.1);
    DashedPair(a, b);
    IntOfIntToStr(r.0);
    IntOfIntToStr(r.1);
  }

  /** `part.strip()` lets whitespace surround a piece: a padded written pair still reads as itself. */
  lemma PaddedRangeReads(l: string, r: HourRange, t: string)
    requires AllSpace(l) && AllSpace(t) && r.0 >= 0 && r.1 >= 0
    ensures ParseRange(l + RangeText(r) + t) == Some(r)
  {
    var a, b := NatToStr(r.0), NatToStr(r.1);
    var m := RangeText(r);
    DashedPair(a, b);
    assert |a| > 0 && |b| > 0;
    assert m[0] == a[0] && m[|m| - 1] == b[|b| - 1];
    assert !IsSpace(m[0]) && !IsSpace(m[|m| - 1]);
    StripPadded(l, m, t);
    ParseRangeText(r);
  }

  /** The space after a comma is tolerated: `"6-13, 15-22"` reads as `[(6, 13), (15, 22)]`. */
  lemma SpacedRangesRead()
    ensures HourRanges("6-13, 15-22") == [(6, 13), (15, 22)]
  {
    SpacedText();
    SplitJoin(["6-13", " 15-22"], ',');
    PieceReads("", (6, 13), "6-13");
    PieceReads(" ", (15, 22), " 15-22");
    TwoPiecesRead("6-13, 15-22", "6-13", " 15-22", (6, 13), (15, 22));
  }

  /** Text of two pieces that read gives their two pairs. */
  lemma TwoPiecesRead(s: string, p: string, q: string, x: HourRange, y: HourRange)
    requires Split(s, ',') == [p, q] && ParseRange(p) == Some(x) && ParseRange(q) == Some(y)
    ensures HourRanges(s) == [x, y]
  {
    assert s == "" ==> Split(s, ',') == [""];
    assert Split(s, ',')[0] == p && Split(s, ',')[1] == q;
    HourRangesOfPieces(s, [x, y]);
  }

  /** `PaddedRangeReads` with the padded text written out. */
  lemma PieceReads(l: string, r: HourRange, piece: string)
    requires AllSpace(l) && r.0 >= 0 && r.1 >= 0 && piece == l + RangeText(r)
    ensures ParseRange(piece) == Some(r)
  {
    PaddedRangeReads(l, r, "");
    assert l + RangeText(r) + "" == piece;
  }

  lemma SpacedText()
    ensures "6-13" == "" + RangeText((6, 13)) && " 15-22" == " " + RangeText((15, 22))
    ensures ',' !in "6-13" && ',' !in " 15-22" && AllSpace("") && AllSpace(" ")
    ensures Join(["6-13", " 15-22"], ',') == "6-13, 15-22"
  {
    assert ["6-13", " 15-22"][1..] == [" 15-22"];
  }

  /**
   * Parsing is the inverse of writing: the text listing any non-empty sequence of
   * non-negative pairs parses back to exactly those pairs, in order.
   */
  lemma HourRangesRoundTrip(rs: seq<HourRange>)
    requires |rs| >= 1 && NonNegative(rs)
    ensures HourRanges(RangesText(rs)) == rs
  {
    var ts := RangeTexts(rs);
    forall i | 0 <= i < |ts|
      ensures ',' !in ts[i] && ParseRange(ts[i]) == Some(rs[i])
    {
      ParseRangeText(rs[i]);
    }
    SplitJoin(ts, ',');
    var s := RangesText(rs);
    assert Split(s, ',') == ts;
    assert |RangeText(rs[0])| > 0;
    assert |s| >= |ts[0]|;
    CollectAllSome(PieceResults(s), rs);
  }

  // ---------------------------------------------------------------- is_peak_time

  /** Some range holds the hour: `start <= hour < end`. */
  predicate IsPeak(hour: int, ranges: seq<HourRange>)
    ensures |ranges| == 0 ==> !IsPeak(hour, ranges)
    ensures IsPeak(hour, ranges) ==> exists i :: 0 <= i < |ranges| && ranges[i].0 < ranges[i].1
  {
    exists i :: 0 <= i < |ranges| && ranges[i].0 <= hour < ranges[i].1
  }

  /** `is_peak_time`: scans the ranges in order and stops at the first that holds the hour. */
  method IsPeakTime(hour: int, peakHours: seq<HourRange>) returns (peak: bool)
    ensures peak <==> IsPeak(hour, peakHours)
  {
    for i := 0 to |peakHours|
      invariant forall j :: 0 <= j < i ==> !(peakHours[j].0 <= hour < peakHours[j].1)
    {
      if peakHours[i].0 <= hour < peakHours[i].1 {
        return true;
      }
    }
    return false;
  }

  /** A single range includes its start, excludes its end, and no list means no peak. */
  lemma SingleRangeIsHalfOpen(hour: int, start: int, end: int)
    ensures IsPeak(hour, [(start, end)]) <==> start <= hour < end
    ensures !IsPeak(hour, [])
  {
    if start <= hour < end {
      assert [(start, end)][0] == (start, end);
    }
  }

  /** A range whose start is not below its end covers no hour, wherever it is listed. */
  lemma EmptyRangeCoversNothing(hour: int, before: seq<HourRange>, r: HourRange, after: seq<HourRange>)
    requires r.0 >= r.1
    ensures IsPeak(hour, before + [r] + after) <==> IsPeak(hour, before + after)
  {
    var all, rest := before + [r] + after, before + after;
    if IsPeak(hour, all) {
      var i :| 0 <= i < |all| && all[i].0 <= hour < all[i].1;
      var j := if i < |before| then i else i - 1;
      assert rest[j] == all[i];
    }
    if IsPeak(hour, rest) {
      var j :| 0 <= j < |rest| && rest[j].0 <= hour < rest[j].1;
      var i := if j < |before| then j else j + 1;
      assert all[i] == rest[j];
    }
  }

  // ---------------------------------------------------------------- prices

  /**
   * `get_seasonal_peak_hours_str`: the season's own key if its value is truthy, otherwise
   * `hours_peak`, otherwise `""`. `None` stands for a chosen value that is not a string:
   * its `str()` form (`None`, `True`, a number, a list or dict display) never has the shape
   * of an hour range, so it leads to no peak hours.
   */
  function SeasonalPeakHours(summer: bool, settings: Settings): Option<string> {
    var chosen := SeasonalPeakSetting(summer, settings);
    if chosen.Str? then Some(chosen.s) else None
  }

  /** The value `settings.get(season_key) or settings.get("hours_peak", "")` evaluates to. */
  function SeasonalPeakSetting(summer: bool, settings: Settings): Value {
    var seasonal := Get(settings, if summer then "hours_peak_summer" else "hours_peak_winter");
    if seasonal.Some? && Truthy(seasonal.value) then seasonal.value
    else Get(settings, "hours_peak").GetOr(Str(""))
  }

  /** The season's string is preferred, `hours_peak` is the fallback, `""` the last resort. */
  lemma SeasonalChoice(summer: bool, settings: Settings)
    ensures var own := if summer then "hours_peak_summer" else "hours_peak_winter";
            var r := SeasonalPeakHours(summer, settings);
            && (forall s :: Get(settings, own) == Some(Str(s)) && s != "" ==> r == Some(s))
            && ((Get(settings, own).None? || Get(settings, own) == Some(Str(""))) ==>
                  && (forall s :: Get(settings, "hours_peak") == Some(Str(s)) ==> r == Some(s))
                  && (Get(settings, "hours_peak").None? ==> r == Some("")))
  {
  }

  /** The peak ranges in force at a moment. */
  function PeakRanges(summer: bool, settings: Settings): seq<HourRange> {
    match SeasonalPeakHours(summer, settings)
    case Some(text) => HourRanges(text)
    case None => []
  }

  /**
   * `calculate_tariff_price` (and `get_current_g12_price`, which only forwards to it):
   * `float()` of `price_peak` in a peak hour and of `price_offpeak` otherwise, a missing key
   * counting as 0. `Err` is the exception `float()` raises for a malformed setting.
   */
  function TariffPrice(m: Moment, settings: Settings): (r: Result<real, PyError>)
    ensures var key := if IsPeak(m.hour, PeakRanges(m.summer, settings)) then "price_peak" else "price_offpeak";
            && (!HasKey(settings, key) ==> r == Ok(0.0))
            && (forall p :: Get(settings, key) == Some(Num(p)) ==> r == Ok(p))
            && (r.Err? ==> HasKey(settings, key) && !Get(settings, key).value.Num?)
  {
    var key := if IsPeak(m.hour, PeakRanges(m.summer, settings)) then "price_peak" else "price_offpeak";
    FloatOf(Get(settings, key).GetOr(Num(0.0)))
  }

  /**
   * With numeric prices configured, the peak price is charged exactly in peak hours
   * (when the two prices differ); a missing price key charges 0.
   */
  lemma TariffPriceIsPeakPrice(m: Moment, settings: Settings)
    ensures var peak := IsPeak(m.hour, PeakRanges(m.summer, settings));
            var r := TariffPrice(m, settings);
            && (forall p, q :: Get(settings, "price_peak") == Some(Num(p))
                  && Get(settings, "price_offpeak") == Some(Num(q))
                  ==> r == Ok(if peak then p else q))
            && (forall p, q :: Get(settings, "price_peak") == Some(Num(p))
                  && Get(settings, "price_offpeak") == Some(Num(q)) && p != q
                  ==> (r == Ok(p) <==> peak))
            && (peak && !HasKey(settings, "price_peak") ==> r == Ok(0.0))
            && (!peak && !HasKey(settings, "price_offpeak") ==> r == Ok(0.0))
  {
  }

  /** Saturdays, Sundays and listed public holidays. */
  predicate OffDay(d: Date, holidays: set<Date>)
    requires ValidDate(d)
  {
    Weekday(d) >= 5 || d in holidays
  }

  /**
   * `get_current_g12w_price`: on an off day the raw `price_offpeak` value (`None` when
   * absent), otherwise the G12 calculation. The result is the Python object returned.
   */
  function G12wPrice(m: Moment, holidays: set<Date>, settings: Settings): (r: Result<Value, PyError>)
    requires ValidDate(m.date)
    ensures OffDay(m.date, holidays) ==> r.Ok?
    ensures !OffDay(m.date, holidays) && r.Ok? ==> r.value.Num?
    ensures r.Err? ==> TariffPrice(m, settings) == Err(r.error)
  {
    if OffDay(m.date, holidays) then Ok(Get(settings, "price_offpeak").GetOr(Null))
    else
      match TariffPrice(m, settings)
      case Ok(p) => Ok(Num(p))
      case Err(e) => Err(e)
  }

  /**
   * On an off day the G12w price is the raw off-peak setting whatever the hour or season;
   * on other days it is the G12 price.
   */
  lemma G12wOffDayIgnoresHour(m: Moment, holidays: set<Date>, settings: Settings, hour: int, summer: bool)
    requires ValidDate(m.date)
    ensures OffDay(m.date, holidays) ==>
              && G12wPrice(m, holidays, settings) == Ok(Get(settings, "price_offpeak").GetOr(Null))
              && G12wPrice(Moment(m.date, hour, summer), holidays, settings) == G12wPrice(m, holidays, settings)
    ensures !OffDay(m.date, holidays) ==>
              (G12wPrice(m, holidays, settings).Ok? <==> TariffPrice(m, settings).Ok?)
              && (TariffPrice(m, settings).Ok? ==> G12wPrice(m, holidays, settings) == Ok(Num(TariffPrice(m, settings).value)))
  {
  }

  /**
   * A winter Wednesday (2025-01-15) with peak hours `"8-14"`, peak price 0.80 and off-peak
   * price 0.50: 10:00 is charged 0.80 and 22:00 is charged 0.50 by both tariffs, while on the
   * Saturday 2025-01-18 G12w charges 0.50 at 10:00.
   */
  lemma WinterWeekScenario()
    ensures var settings := [("hours_peak_winter", Str("8-14")), ("price_peak", Num(0.80)), ("price_offpeak", Num(0.50))];
            && TariffPrice(Moment(Date(2025, 1, 15), 10, false), settings) == Ok(0.80)
            && TariffPrice(Moment(Date(2025, 1, 15), 22, false), settings) == Ok(0.50)
            && G12wPrice(Moment(Date(2025, 1, 15), 10, false), {}, settings) == Ok(Num(0.80))
            && G12wPrice(Moment(Date(2025, 1, 18), 10, false), {}, settings) == Ok(Num(0.50))
  {
    var settings := [("hours_peak_winter", Str("8-14")), ("price_peak", Num(0.80)), ("price_offpeak", Num(0.50))];
    ScenarioPeak(settings);
    ScenarioPrices(settings);
    ScenarioWeekdays();
    var wednesday, saturday := Date(2025, 1, 15), Date(2025, 1, 18);
    assert TariffPrice(Moment(wednesday, 10, false), settings) == Ok(0.80);
    assert TariffPrice(Moment(wednesday, 22, false), settings) == Ok(0.50);
    assert !OffDay(wednesday, {}) && OffDay(saturday, {});
  }

  lemma ScenarioPeak(settings: Settings)
    requires settings == [("hours_peak_winter", Str("8-14")), ("price_peak", Num(0.80)), ("price_offpeak", Num(0.50))]
    ensures IsPeak(10, PeakRanges(false, settings)) && !IsPeak(22, PeakRanges(false, settings))
  {
    ScenarioRanges(settings);
    SingleRangeIsHalfOpen(10, 8, 14);
    SingleRangeIsHalfOpen(22, 8, 14);
  }

  lemma ScenarioRanges(settings: Settings)
    requires settings == [("hours_peak_winter", Str("8-14")), ("price_peak", Num(0.80)), ("price_offpeak", Num(0.50))]
    ensures PeakRanges(false, settings) == [(8, 14)]
    ensures Get(settings, "price_peak") == Some(Num(0.80)) && Get(settings, "price_offpeak") == Some(Num(0.50))
  {
    ScenarioSeason(settings);
    ScenarioPrices(settings);
    EightToFourteen();
  }

  lemma ScenarioSeason(settings: Settings)
    requires settings == [("hours_peak_winter", Str("8-14")), ("price_peak", Num(0.80)), ("price_offpeak", Num(0.50))]
    ensures SeasonalPeakHours(false, settings) == Some("8-14")
  {
    assert Get(settings, "hours_peak_winter") == Some(Str("8-14"));
  }

  lemma ScenarioPrices(settings: Settings)
    requires settings == [("hours_peak_winter", Str("8-14")), ("price_peak", Num(0.80)), ("price_offpeak", Num(0.50))]
    ensures Get(settings, "price_peak") == Some(Num(0.80)) && Get(settings, "price_offpeak") == Some(Num(0.50))
  {
  }

  lemma EightToFourteen()
    ensures HourRanges("8-14") == [(8, 14)]
  {
    assert NatToStr(8) == "8";
    assert NatToStr(14) == "14";
    assert RangeText((8, 14)) == "8-14";
    assert RangeTexts([(8, 14)]) == ["8-14"];
    assert RangesText([(8, 14)]) == "8-14";
    HourRangesRoundTrip([(8, 14)]);
  }

  lemma ScenarioWeekdays()
    ensures Weekday(Date(2025, 1, 15)) == 2 && Weekday(Date(2025, 1, 18)) == 5
    ensures ValidDate(Date(2025, 1, 15)) && ValidDate(Date(2025, 1, 18))
  {
    assert DaysBeforeYear(2025) == 739251;
  }
}
