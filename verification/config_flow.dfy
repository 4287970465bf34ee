/**
 * The configuration wizard of `config_flow.py`: the two input validators, the routing of the
 * setup steps by operation mode, and the options flow that checks a reconfiguration and
 * reshapes its flat, prefixed keys into the nested settings maps the sensors read.
 */
module ConfigFlow {
  import opened Wrappers
  import opened Text
  import opened OrderedDict
  import opened Json
  import Tariff

  const ModeDynamic := "dynamic"
  const ModeG12 := "g12"
  const ModeG12w := "g12w"
  const ModeComparison := "comparison"
  const DefaultPeakHours := "6-13,15-22"

  // ---------------------------------------------------------------- validate_hour_format

  /** `\d{1,2}`: one or two ASCII digits. */
  predicate HourNumber(t: string) {
    1 <= |t| <= 2 && IsDigits(t)
  }

  /** `\d{1,2}-\d{1,2}` */
  predicate IsGroup(p: string) {
    var bounds := Split(p, '-');
    |bounds| == 2 && HourNumber(bounds[0]) && HourNumber(bounds[1])
  }

  /** `\d{1,2}-\d{1,2}(,\d{1,2}-\d{1,2})*` covering the whole text. */
  predicate GroupList(t: string) {
    var groups := Split(t, ',');
    forall i :: 0 <= i < |groups| ==> IsGroup(groups[i])
  }

  /**
   * `validate_hour_format`: the empty string, or text that the anchored pattern covers;
   * Python's `$` also matches just before a single final newline.
   */
  predicate ValidHourFormat(s: string)
    ensures s == "" ==> ValidHourFormat(s)
    ensures ValidHourFormat(s) && s != "" ==> GroupList(PatternText(s))
  {
    s == "" || GroupList(s) || (s[|s| - 1] == '\n' && GroupList(s[..|s| - 1]))
  }

  /** The text the pattern covered: `s` without the newline `$` lets through. */
  function PatternText(s: string): string {
    if GroupList(s) || s == "" || s[|s| - 1] != '\n' then s else s[..|s| - 1]
  }

  /** The hours a group names. */
  function GroupPair(p: string): Tariff.HourRange
    requires IsGroup(p)
  {
    var bounds := Split(p, '-');
    (DigitsValue(bounds[0]), DigitsValue(bounds[1]))
  }

  predicate HourFormatChar(c: char) {
    IsDigit(c) || c == '-' || c == ','
  }

  /** A group is its two numbers around one dash, so it holds digits and that dash only. */
  lemma GroupShape(p: string)
    requires IsGroup(p)
    ensures p == Split(p, '-')[0] + "-" + Split(p, '-')[1]
    ensures forall k :: 0 <= k < |p| ==> IsDigit(p[k]) || p[k] == '-'
  {
    var bounds := Split(p, '-');
    JoinSplit(p, '-');
    assert Join(bounds, '-') == bounds[0] + "-" + Join(bounds[1..], '-');
    DashedDigits(bounds[0], bounds[1]);
  }

  lemma DashedDigits(a: string, b: string)
    requires IsDigits(a) && IsDigits(b)
    ensures forall k :: 0 <= k < |a + "-" + b| ==> IsDigit((a + "-" + b)[k]) || (a + "-" + b)[k] == '-'
  {
    var p := a + "-" + b;
    forall k | 0 <= k < |p|
      ensures IsDigit(p[k]) || p[k] == '-'
    {
      if k < |a| {
        assert p[k] == a[k];
      } else if k > |a| {
        assert p[k] == b[k - |a| - 1];
      }
    }
  }

  /** `parse_hour_ranges` reads a group, or a group with whitespace after it, as its hours. */
  lemma ParseGroup(p: string, tail: string)
    requires IsGroup(p) && forall k :: 0 <= k < |tail| ==> IsSpace(tail[k])
    ensures Tariff.ParseRange(p + tail) == Some(GroupPair(p))
  {
    GroupShape(p);
    var bounds := Split(p, '-');
    assert NoSpace(p);
    assert Strip(p + tail) == p by {
      var t := p + tail;
      assert !IsSpace(t[0]);
      assert TrimLeft(t) == t;
      TrimRightSpaces(p, tail);
    }
    IntOfDigits(bounds[0]);
    IntOfDigits(bounds[1]);
  }

  lemma {:induction false} TrimRightSpaces(p: string, tail: string)
    requires |p| > 0 && !IsSpace(p[|p| - 1])
    requires forall k :: 0 <= k < |tail| ==> IsSpace(tail[k])
    ensures TrimRight(p + tail) == p
  {
    if |tail| > 0 {
      assert (p + tail)[..|p + tail| - 1] == p + tail[..|tail| - 1];
      TrimRightSpaces(p, tail[..|tail| - 1]);
    } else {
      assert p + tail == p;
    }
  }

  /** The hours of each group, in order. */
  function GroupPairs(groups: seq<string>): (pairs: seq<Tariff.HourRange>)
    requires forall i :: 0 <= i < |groups| ==> IsGroup(groups[i])
    ensures |pairs| == |groups| && forall i :: 0 <= i < |groups| ==> pairs[i] == GroupPair(groups[i])
  {
    if |groups| == 0 then [] else [GroupPair(groups[0])] + GroupPairs(groups[1..])
  }

  /** Pieces that are all groups are read one pair per group, in order. */
  lemma ParseGroups(s: string)
    requires s != "" && GroupList(s)
    ensures var groups := Split(s, ',');
            |Tariff.HourRanges(s)| == |groups|
            && forall i :: 0 <= i < |groups| ==> Tariff.HourRanges(s)[i] == GroupPair(groups[i])
  {
    var groups := Split(s, ',');
    forall i | 0 <= i < |groups|
      ensures Tariff.ParseRange(groups[i]) == Some(GroupPair(groups[i]))
    {
      ParseGroup(groups[i], "");
      assert groups[i] + "" == groups[i];
    }
  }

  /**
   * Every non-empty string the validator accepts is read by `parse_hour_ranges` as one pair
   * per group, in order, so a validated setting never silently loses its peak hours.
   */
  lemma ValidHourFormatParses(s: string)
    requires ValidHourFormat(s) && s != ""
    ensures var groups := Split(PatternText(s), ',');
            && |Tariff.HourRanges(s)| == |groups| >= 1
            && forall i :: 0 <= i < |groups| ==>
                 IsGroup(groups[i]) && Tariff.HourRanges(s)[i] == GroupPair(groups[i])
  {
    if GroupList(s) {
      ParseGroups(s);
    } else {
      var t := s[..|s| - 1];
      assert s == t + "\n";
      ParseGroupsNewline(t);
    }
  }

  /** A group list followed by the newline `$` tolerates is read as the list itself. */
  lemma ParseGroupsNewline(t: string)
    requires GroupList(t)
    ensures var groups := Split(t, ',');
            |Tariff.HourRanges(t + "\n")| == |groups|
            && forall i :: 0 <= i < |groups| ==> Tariff.HourRanges(t + "\n")[i] == GroupPair(groups[i])
  {
    var groups := Split(t, ',');
    var pairs := GroupPairs(groups);
    NewlinePieces(t);
    forall i | 0 <= i < |groups|
      ensures Tariff.ParseRange(Split(t + "\n", ',')[i]) == Some(pairs[i])
    {
      NewlinePieceReads(t, i);
    }
    Tariff.HourRangesOfPieces(t + "\n", pairs);
  }

  /** Each piece of a group list with the final newline reads as its group's hours. */
  lemma NewlinePieceReads(t: string, i: int)
    requires GroupList(t) && 0 <= i < |Split(t, ',')| && i < |Split(t + "\n", ',')|
    ensures Tariff.ParseRange(Split(t + "\n", ',')[i]) == Some(GroupPair(Split(t, ',')[i]))
  {
    var groups, pieces := Split(t, ','), Split(t + "\n", ',');
    NewlinePieces(t);
    var tail := if i < |groups| - 1 then "" else "\n";
    assert pieces[i] == groups[i] + tail;
    ParseGroup(groups[i], tail);
  }

  /** A final newline stays in the last comma-separated piece. */
  lemma NewlinePieces(t: string)
    ensures var groups, pieces := Split(t, ','), Split(t + "\n", ',');
            && |pieces| == |groups|
            && (forall i :: 0 <= i < |groups| - 1 ==> pieces[i] == groups[i])
            && pieces[|groups| - 1] == groups[|groups| - 1] + "\n"
  {
    SplitAppendChar(t, '\n', ',');
  }

  /**
   * The validator's alphabet: digits, dashes and commas, plus the one final newline `$`
   * tolerates. Spaces anywhere else are rejected.
   */
  lemma ValidHourFormatAlphabet(s: string)
    requires ValidHourFormat(s)
    ensures forall k :: 0 <= k < |s| ==> HourFormatChar(s[k]) || (k == |s| - 1 && s[k] == '\n')
  {
    if s != "" {
      var t := PatternText(s);
      var groups := Split(t, ',');
      JoinSplit(t, ',');
      forall i | 0 <= i < |groups|
        ensures forall k :: 0 <= k < |groups[i]| ==> HourFormatChar(groups[i][k])
      {
        GroupShape(groups[i]);
      }
      JoinChars(groups);
      assert forall k :: 0 <= k < |t| ==> s[k] == t[k];
    }
  }

  lemma {:induction false} JoinChars(parts: seq<string>)
    requires |parts| >= 1
    requires forall i, k :: 0 <= i < |parts| && 0 <= k < |parts[i]| ==> HourFormatChar(parts[i][k])
    ensures forall k :: 0 <= k < |Join(parts, ',')| ==> HourFormatChar(Join(parts, ',')[k])
  {
    if |parts| > 1 {
      JoinChars(parts[1..]);
      var head, tail := parts[0] + [','], Join(parts[1..], ',');
      assert Join(parts, ',') == head + tail;
      forall k | 0 <= k < |head + tail|
        ensures HourFormatChar((head + tail)[k])
      {
        if k < |parts[0]| {
          assert (head + tail)[k] == parts[0][k];
        } else if k > |parts[0]| {
          assert (head + tail)[k] == tail[k - |head|];
        }
      }
    }
  }

  /**
   * An empty group is rejected: a leading, trailing or doubled comma fails validation, also
   * when the text ends in the newline `$` tolerates.
   */
  lemma EmptyGroupRejected(a: string, b: string)
    ensures !ValidHourFormat(a + ",")
    ensures !ValidHourFormat("," + b)
    ensures !ValidHourFormat(a + ",," + b)
    ensures !ValidHourFormat(a + ",\n")
  {
    EmptyGroupBreaksList(a, b);
    assert (a + ",")[|a + ","| - 1] == ',';
    if |b| > 0 && b[|b| - 1] == '\n' {
      var c := b[..|b| - 1];
      EmptyGroupBreaksList(a, c);
      assert ("," + b)[..|"," + b| - 1] == "," + c;
      assert (a + ",," + b)[..|a + ",," + b| - 1] == a + ",," + c;
    }
    TrailingCommaNewline(a);
  }

  lemma SplitOneChar(c: char, sep: char)
    requires c != sep
    ensures Split([c], sep) == [[c]]
  {
    assert [c][1..] == [];
    assert Split([], sep) == [""];
    assert [c] + "" == [c];
  }

  /** A trailing comma stays an empty group when the final newline is dropped. */
  lemma TrailingCommaNewline(a: string)
    ensures !ValidHourFormat(a + ",\n")
  {
    var s := a + ",\n";
    EmptyGroupBreaksList(a, "");
    assert s[..|s| - 1] == a + ",";
    SplitConcat(a, "\n", ',');
    assert a + [','] + "\n" == s;
    SplitOneChar('\n', '-');
    SplitOneChar('\n', ',');
    assert !IsGroup("\n");
    assert Split(s, ',')[|Split(a, ',')|] == "\n";
  }

  /** A text with an empty comma-separated group is no group list. */
  lemma EmptyGroupBreaksList(a: string, b: string)
    ensures !GroupList(a + ",") && !GroupList("," + b) && !GroupList(a + ",," + b)
  {
    SplitConcat(a, "", ',');
    assert a + [','] + "" == a + ",";
    assert Split("", ',') == [""];
    assert !IsGroup("");
    assert !GroupList(a + ",") by {
      assert Split(a + ",", ',')[|Split(a, ',')|] == "";
    }
    SplitConcat("", b, ',');
    assert "" + [','] + b == "," + b;
    assert !GroupList("," + b) by {
      assert Split("," + b, ',')[0] == "";
    }
    SplitConcat(a, "," + b, ',');
    assert a + [','] + ("," + b) == a + ",," + b;
    assert !GroupList(a + ",," + b) by {
      assert Split(a + ",," + b, ',')[|Split(a, ',')|] == "";
    }
  }

  /** The form the pairs are written in always validates when every hour has two digits at most. */
  lemma RangesTextIsValid(rs: seq<Tariff.HourRange>)
    requires |rs| >= 1
    requires forall i :: 0 <= i < |rs| ==> 0 <= rs[i].0 < 100 && 0 <= rs[i].1 < 100
    ensures ValidHourFormat(Tariff.RangesText(rs))
  {
    var ts := Tariff.RangeTexts(rs);
    forall i | 0 <= i < |ts|
      ensures ',' !in ts[i] && IsGroup(ts[i])
    {
      var a, b := NatToStr(rs[i].0), NatToStr(rs[i].1);
      Tariff.ParseRangeText(rs[i]);
      Tariff.DigitsHaveNoSeparators(a);
      Tariff.DigitsHaveNoSeparators(b);
      NatToStrLength(rs[i].0, 2);
      NatToStrLength(rs[i].1, 2);
      assert Join([a, b], '-') == ts[i];
      SplitJoin([a, b], '-');
    }
    SplitJoin(ts, ',');
  }

  /** The default peak hours validate and name 6:00 to 13:00 and 15:00 to 22:00. */
  lemma DefaultPeakHoursValid()
    ensures ValidHourFormat(DefaultPeakHours)
    ensures Tariff.HourRanges(DefaultPeakHours) == [(6, 13), (15, 22)]
  {
    var rs := [(6, 13), (15, 22)];
    assert NatToStr(6) == "6" && NatToStr(13) == "13";
    assert NatToStr(15) == "15" && NatToStr(22) == "22";
    assert Tariff.RangeText((6, 13)) == "6-13";
    assert Tariff.RangeText((15, 22)) == "15-22";
    assert Tariff.RangeTexts(rs) == ["6-13", "15-22"];
    assert Join(["6-13", "15-22"], ',') == DefaultPeakHours;
    RangesTextIsValid(rs);
    Tariff.HourRangesRoundTrip(rs);
  }

  /** `validate_hour_format(v)` on whatever the form delivered: a non-string raises `TypeError`. */
  function CheckHourFormat(v: Value): (r: Result<bool, PyError>)
    ensures v.Str? ==> r == Ok(ValidHourFormat(v.s))
    ensures r.Err? <==> Truthy(v) && !v.Str?
  {
    if !Truthy(v) then Ok(true)
    else if v.Str? then Ok(ValidHourFormat(v.s))
    else Err(TypeError)
  }

  // ---------------------------------------------------------------- validate_entity_id

  /** `.+` before the end: at least one character and no newline. */
  predicate LineText(r: string) {
    |r| >= 1 && '\n' !in r
  }

  /** `validate_entity_id`: empty, or `sensor.` and at least one more character (`^sensor\..+$`). */
  predicate ValidEntityId(s: string)
    ensures ValidEntityId(s) && s != "" ==> |s| >= 8 && s[..7] == "sensor."
  {
    s == ""
    || (|s| >= 7 && s[..7] == "sensor."
        && (LineText(s[7..]) || (s[|s| - 1] == '\n' && LineText(s[7..|s| - 1]))))
  }

  /** Exactly the `sensor.` ids are accepted (besides the empty string). */
  lemma EntityIdShape(rest: string, s: string)
    ensures LineText(rest) ==> ValidEntityId("sensor." + rest)
    ensures !ValidEntityId("sensor.")
    ensures s != "" && (|s| < 7 || s[..7] != "sensor.") ==> !ValidEntityId(s)
  {
    assert ("sensor." + rest)[..7] == "sensor.";
    assert ("sensor." + rest)[7..] == rest;
  }

  // ---------------------------------------------------------------- setup wizard

  datatype Step = User | G12Config | G12wConfig | EnergySensor

  function StepId(step: Step): string {
    match step
    case User => "user"
    case G12Config => "g12_config"
    case G12wConfig => "g12w_config"
    case EnergySensor => "energy_sensor"
  }

  /** What a flow step hands back to Home Assistant, or the exception escaping it. */
  datatype FlowResult =
    | Form(stepId: string, errors: Dict<string, string>)
    | Entry(title: string, data: Dict<string, Value>)
    | Abort(reason: string)
    | Raised(error: PyError)

  /** The step a completed step leads to, or `None` when it creates the entry. */
  function NextStep(step: Step, mode: Value): (r: Option<Step>)
    ensures r != Some(User)
    ensures step == EnergySensor ==> r.None?
    ensures step != User && r.Some? ==> mode == Str(ModeComparison)
  {
    match step
    case User =>
      if mode == Str(ModeG12) || mode == Str(ModeComparison) then Some(G12Config)
      else if mode == Str(ModeG12w) then Some(G12wConfig)
      else None
    case G12Config => if mode == Str(ModeComparison) then Some(G12wConfig) else None
    case G12wConfig => if mode == Str(ModeComparison) then Some(EnergySensor) else None
    case EnergySensor => None
  }

  /** The title of the entry a step creates. */
  function EntryTitle(step: Step, mode: Value): string {
    match step
    case User => "Energy Hub Dynamic"
    case G12Config => "Energy Hub G12"
    case G12wConfig => "Energy Hub G12w"
    case EnergySensor =>
      if mode == Str(ModeDynamic) then "Energy Hub Dynamic"
      else if mode == Str(ModeG12) then "Energy Hub G12"
      else if mode == Str(ModeG12w) then "Energy Hub G12w"
      else if mode == Str(ModeComparison) then "Energy Hub Comparison"
      else "Energy Hub"
  }

  /** The outcome of completing `step`: the next step's empty form, or the entry. */
  function Advance(step: Step, mode: Value, data: Dict<string, Value>): FlowResult {
    match NextStep(step, mode)
    case Some(next) => Form(StepId(next), [])
    case None => Entry(EntryTitle(step, mode), data)
  }

  /** The steps each operation mode walks through, in order. */
  function WizardSteps(mode: Value): seq<Step> {
    if mode == Str(ModeComparison) then [User, G12Config, G12wConfig, EnergySensor]
    else if mode == Str(ModeG12) then [User, G12Config]
    else if mode == Str(ModeG12w) then [User, G12wConfig]
    else [User]
  }

  /**
   * The routing walks exactly the mode's steps and then stops: dynamic (or any other mode)
   * creates the entry at once, G12 and G12w visit their tariff form, comparison visits both
   * tariff forms and the energy sensor form.
   */
  lemma RoutingFollowsWizard(mode: Value)
    ensures var steps := WizardSteps(mode);
            && steps[0] == User
            && (forall i :: 0 <= i < |steps| - 1 ==> NextStep(steps[i], mode) == Some(steps[i + 1]))
            && NextStep(steps[|steps| - 1], mode) == None
  {
  }

  class ConfigFlow {
    /** `self.config_data`: everything the wizard collected so far. */
    var configData: Dict<string, Value>

    constructor()
      ensures configData == []
    {
      configData := [];
    }

    /** `async_step_user`: records the input and routes by `operation_mode`. */
    method StepUser(userInput: Option<Dict<string, Value>>) returns (r: FlowResult)
      modifies this
      ensures userInput.None? ==> r == Form(StepId(User), []) && configData == old(configData)
      ensures userInput.Some? ==> configData == Merge(old(configData), userInput.value)
      ensures userInput.Some? ==>
                r == match Get(userInput.value, "operation_mode")
                     case None => Raised(KeyError)
                     case Some(mode) => Advance(User, mode, configData)
    {
      if userInput.None? {
        return Form(StepId(User), []);
      }
      configData := Merge(configData, userInput.value);
      var mode := Get(userInput.value, "operation_mode");
      if mode.None? {
        return Raised(KeyError);
      }
      if mode.value == Str(ModeG12) {
        r := StepG12Config(None);
        return;
      }
      if mode.value == Str(ModeG12w) {
        r := StepG12wConfig(None);
        return;
      }
      if mode.value == Str(ModeComparison) {
        r := StepG12Config(None);
        return;
      }
      return Entry(EntryTitle(User, mode.value), configData);
    }

    /**
     * `async_step_g12_config`: invalid peak hours keep the form open with an error and store
     * nothing; valid input is stored under `g12_settings` and the flow moves on.
     */
    method StepG12Config(userInput: Option<Dict<string, Value>>) returns (r: FlowResult)
      modifies this
      ensures userInput.None? ==> r == Form(StepId(G12Config), []) && configData == old(configData)
      ensures userInput.Some? ==> TariffStep(G12Config, "g12_settings", userInput.value, old(configData)) == (r, configData)
    {
      if userInput.None? {
        return Form(StepId(G12Config), []);
      }
      var hours := Get(userInput.value, "hours_peak");
      if hours.None? {
        return Raised(KeyError);
      }
      var valid := CheckHourFormat(hours.value);
      if valid.Err? {
        return Raised(valid.error);
      }
      if !valid.value {
        return Form(StepId(G12Config), [("base", "invalid_hour_range")]);
      }
      configData := Put(configData, "g12_settings", Obj(userInput.value));
      var mode := Get(configData, "operation_mode");
      if mode.None? {
        return Raised(KeyError);
      }
      if mode.value == Str(ModeComparison) {
        r := StepG12wConfig(None);
        return;
      }
      return Entry(EntryTitle(G12Config, mode.value), configData);
    }

    /** `async_step_g12w_config`: the same checks, stored under `g12w_settings`. */
    method StepG12wConfig(userInput: Option<Dict<string, Value>>) returns (r: FlowResult)
      modifies this
      ensures userInput.None? ==> r == Form(StepId(G12wConfig), []) && configData == old(configData)
      ensures userInput.Some? ==> TariffStep(G12wConfig, "g12w_settings", userInput.value, old(configData)) == (r, configData)
    {
      if userInput.None? {
        return Form(StepId(G12wConfig), []);
      }
      var hours := Get(userInput.value, "hours_peak");
      if hours.None? {
        return Raised(KeyError);
      }
      var valid := CheckHourFormat(hours.value);
      if valid.Err? {
        return Raised(valid.error);
      }
      if !valid.value {
        return Form(StepId(G12wConfig), [("base", "invalid_hour_range")]);
      }
      configData := Put(configData, "g12w_settings", Obj(userInput.value));
      var mode := Get(configData, "operation_mode");
      if mode.None? {
        return Raised(KeyError);
      }
      if mode.value == Str(ModeComparison) {
        r := StepEnergySensor(None);
        return;
      }
      return Entry(EntryTitle(G12wConfig, mode.value), configData);
    }

    /** `async_step_energy_sensor`: a non-empty id must be a `sensor.` entity. */
    method StepEnergySensor(userInput: Option<Dict<string, Value>>) returns (r: FlowResult)
      modifies this
      ensures userInput.None? ==> r == Form(StepId(EnergySensor), []) && configData == old(configData)
      ensures userInput.Some? ==> SensorStep(userInput.value, old(configData)) == (r, configData)
    {
      if userInput.None? {
        return Form(StepId(EnergySensor), []);
      }
      var sensor := Get(userInput.value, "energy_sensor");
      if sensor.Some? && Truthy(sensor.value) {
        if !sensor.value.Str? {
          return Raised(TypeError);
        }
        if !ValidEntityId(sensor.value.s) {
          return Form(StepId(EnergySensor), [("base", "invalid_entity_id")]);
        }
      }
      configData := Merge(configData, userInput.value);
      var mode := Get(configData, "operation_mode");
      if mode.None? {
        return Raised(KeyError);
      }
      if !Hashable(mode.value) {
        return Raised(TypeError);
      }
      return Entry(EntryTitle(EnergySensor, mode.value), configData);
    }
  }

  /**
   * A submitted tariff form: the result and the collected data afterwards. An invalid
   * peak-hours value leaves the data as it was.
   */
  function TariffStep(step: Step, key: string, input: Dict<string, Value>, data: Dict<string, Value>)
    : (out: (FlowResult, Dict<string, Value>))
    ensures var hours := Get(input, "hours_peak");
            (hours.Some? && CheckHourFormat(hours.value) == Ok(false))
            ==> out == (Form(StepId(step), [("base", "invalid_hour_range")]), data)
    ensures out.0.Entry? || (out.0.Form? && out.0.stepId != StepId(step)) ==> out.1 == Put(data, key, Obj(input))
    ensures out.1 == data || out.1 == Put(data, key, Obj(input))
    ensures var hours := Get(input, "hours_peak");
            && (hours.None? ==> out == (Raised(KeyError), data))
            && (hours.Some? && Truthy(hours.value) && !hours.value.Str? ==> out == (Raised(TypeError), data))
    // valid hours are stored, then comparison mode goes on to the next tariff form or the
    // sensor form, and every other mode creates the entry titled after the tariff
    ensures var hours := Get(input, "hours_peak");
            var stored := Put(data, key, Obj(input));
            var mode := Get(stored, "operation_mode");
            hours.Some? && CheckHourFormat(hours.value) == Ok(true) ==>
              && out.1 == stored
              && (mode.None? ==> out.0 == Raised(KeyError))
              && (mode == Some(Str(ModeComparison)) && step == G12Config ==> out.0 == Form(StepId(G12wConfig), []))
              && (mode == Some(Str(ModeComparison)) && step == G12wConfig ==> out.0 == Form(StepId(EnergySensor), []))
              && (mode.Some? && mode != Some(Str(ModeComparison)) && step == G12Config ==> out.0 == Entry("Energy Hub G12", stored))
              && (mode.Some? && mode != Some(Str(ModeComparison)) && step == G12wConfig ==> out.0 == Entry("Energy Hub G12w", stored))
  {
    match Get(input, "hours_peak")
    case None => (Raised(KeyError), data)
    case Some(hours) =>
      match CheckHourFormat(hours)
      case Err(e) => (Raised(e), data)
      case Ok(false) => (Form(StepId(step), [("base", "invalid_hour_range")]), data)
      case Ok(true) =>
        var stored := Put(data, key, Obj(input));
        match Get(stored, "operation_mode")
        case None => (Raised(KeyError), stored)
        case Some(mode) => (Advance(step, mode, stored), stored)
  }

  /** The submitted energy-sensor form: the result and the collected data afterwards. */
  function SensorStep(input: Dict<string, Value>, data: Dict<string, Value>): (out: (FlowResult, Dict<string, Value>))
    ensures var sensor := Get(input, "energy_sensor");
            (sensor.Some? && sensor.value.Str? && sensor.value.s != "" && !ValidEntityId(sensor.value.s))
            ==> out == (Form(StepId(EnergySensor), [("base", "invalid_entity_id")]), data)
    ensures out.0.Entry? ==> out.1 == Merge(data, input)
    ensures var sensor := Get(input, "energy_sensor");
            sensor.Some? && Truthy(sensor.value) && !sensor.value.Str? ==> out == (Raised(TypeError), data)
    // an absent, empty or valid id merges the input and creates the entry titled after the
    // mode; a list or dict mode cannot be looked up in the title map
    ensures var sensor := Get(input, "energy_sensor");
            var merged := Merge(data, input);
            var mode := Get(merged, "operation_mode");
            (sensor.None? || !Truthy(sensor.value) || (sensor.value.Str? && ValidEntityId(sensor.value.s))) ==>
              && out.1 == merged
              && (mode.None? ==> out.0 == Raised(KeyError))
              && (mode.Some? && !Hashable(mode.value) ==> out.0 == Raised(TypeError))
              && (mode.Some? && Hashable(mode.value) ==> out.0 == Entry(EntryTitle(EnergySensor, mode.value), merged))
  {
    var sensor := Get(input, "energy_sensor");
    if sensor.Some? && Truthy(sensor.value) && !sensor.value.Str? then (Raised(TypeError), data)
    else if sensor.Some? && Truthy(sensor.value) && !ValidEntityId(sensor.value.s) then
      (Form(StepId(EnergySensor), [("base", "invalid_entity_id")]), data)
    else
      var merged := Merge(data, input);
      match Get(merged, "operation_mode")
      case None => (Raised(KeyError), merged)
      case Some(mode) =>
        // `title_map.get(mode, ...)` hashes the mode
        if !Hashable(mode) then (Raised(TypeError), merged)
        else (Advance(EnergySensor, mode, merged), merged)
  }

  // ---------------------------------------------------------------- options flow

  /** The stored config entry: the wizard's data and the options saved over it. */
  datatype ConfigEntry = ConfigEntry(data: Dict<string, Value>, options: Dict<string, Value>)

  /** `{**entry.data, **entry.options}` */
  function EffectiveConfig(entry: ConfigEntry): Dict<string, Value> {
    Merge(entry.data, entry.options)
  }

  predicate UsesG12(mode: Option<Value>) {
    mode == Some(Str(ModeG12)) || mode == Some(Str(ModeComparison))
  }

  predicate UsesG12w(mode: Option<Value>) {
    mode == Some(Str(ModeG12w)) || mode == Some(Str(ModeComparison))
  }

  /**
   * The peak-hours check of the options form: `validate_hour_format(str(val))`, an absent
   * or `None` value counting as `""`. The `str()` of a value that is not a string (a
   * number, bool, list or dict) never matches the pattern.
   */
  predicate HoursValueValid(val: Option<Value>) {
    match val
    case None => true
    case Some(Null) => true
    case Some(Str(s)) => ValidHourFormat(s)
    case Some(_) => false
  }

  /**
   * The error `async_step_reconfigure` reports for `input`, later checks overwriting
   * earlier ones: G12 hours, then G12w hours, then the energy sensor id. `Err` is the
   * `TypeError` of a non-string sensor id, which aborts the flow.
   */
  function ReconfigureError(mode: Option<Value>, input: Dict<string, Value>): (r: Result<Option<string>, PyError>)
    ensures r.Err? ==> r.error == TypeError && mode == Some(Str(ModeComparison))
    ensures r.Ok? && r.value.Some? ==>
              r.value.value in {"invalid_g12_hour_range", "invalid_g12w_hour_range", "invalid_entity_id"}
    ensures !UsesG12(mode) && !UsesG12w(mode) ==> r == Ok(None)
  {
    var afterG12 :=
      if UsesG12(mode) && !HoursValueValid(Get(input, "g12_settings_hours_peak")) then Some("invalid_g12_hour_range")
      else None;
    var afterG12w :=
      if UsesG12w(mode) && !HoursValueValid(Get(input, "g12w_settings_hours_peak")) then Some("invalid_g12w_hour_range")
      else afterG12;
    var sensor := Get(input, "energy_sensor");
    if mode == Some(Str(ModeComparison)) && sensor.Some? && Truthy(sensor.value) then
      if !sensor.value.Str? then Err(TypeError)
      else if !ValidEntityId(sensor.value.s) then Ok(Some("invalid_entity_id"))
      else Ok(afterG12w)
    else Ok(afterG12w)
  }

  /**
   * Error precedence: the entity-id error beats both hour errors, the G12w hour error beats
   * the G12 one, and input passing every check of its mode has no error.
   */
  lemma ReconfigureErrorPrecedence(mode: Option<Value>, input: Dict<string, Value>)
    ensures var g12Bad := UsesG12(mode) && !HoursValueValid(Get(input, "g12_settings_hours_peak"));
            var g12wBad := UsesG12w(mode) && !HoursValueValid(Get(input, "g12w_settings_hours_peak"));
            var sensor := Get(input, "energy_sensor");
            var sensorBad := mode == Some(Str(ModeComparison)) && sensor.Some? && sensor.value.Str?
                             && sensor.value.s != "" && !ValidEntityId(sensor.value.s);
            var sensorOk := mode != Some(Str(ModeComparison)) || sensor.None? || !Truthy(sensor.value)
                            || (sensor.value.Str? && ValidEntityId(sensor.value.s));
            var e := ReconfigureError(mode, input);
            && (sensorBad ==> e == Ok(Some("invalid_entity_id")))
            && (sensorOk && g12wBad ==> e == Ok(Some("invalid_g12w_hour_range")))
            && (sensorOk && g12Bad && !g12wBad ==> e == Ok(Some("invalid_g12_hour_range")))
            && (sensorOk && !g12Bad && !g12wBad ==> e == Ok(None))
  {
  }

  /**
   * Moves the three `<key>_…` entries of `opts` into a nested map stored under `key`,
   * with the given defaults for absent entries.
   */
  function Nest(opts: Dict<string, Value>, key: string, pricePeak: real, priceOffpeak: real): (r: Dict<string, Value>)
    ensures HasKey(r, key)
    ensures Distinct(opts) ==> Distinct(r)
    ensures forall k :: k != key && k !in FlatKeys(key) ==> Get(r, k) == Get(opts, k)
  {
    var (peak, o1) := Pop(opts, key + "_price_peak", Num(pricePeak));
    var (offpeak, o2) := Pop(o1, key + "_price_offpeak", Num(priceOffpeak));
    var (hours, o3) := Pop(o2, key + "_hours_peak", Str(DefaultPeakHours));
    Put(o3, key, Obj([("price_peak", peak), ("price_offpeak", offpeak), ("hours_peak", hours)]))
  }

  /** The options a successful reconfiguration saves. */
  function Reshape(mode: Option<Value>, input: Dict<string, Value>): (r: Dict<string, Value>)
    ensures !UsesG12(mode) && !UsesG12w(mode) ==> r == input
    ensures UsesG12w(mode) ==> HasKey(r, "g12w_settings")
    ensures Distinct(input) ==> Distinct(r)
  {
    var o := AfterG12(mode, input);
    if UsesG12w(mode) then Nest(o, "g12w_settings", 0.85, 0.55) else o
  }

  /** The flat names the options form uses for one tariff's settings. */
  function FlatKeys(key: string): set<string> {
    {key + "_price_peak", key + "_price_offpeak", key + "_hours_peak"}
  }

  /** The nested key and its three flat names are four different strings. */
  lemma FlatKeysDiffer(key: string)
    ensures key !in FlatKeys(key)
    ensures key + "_price_peak" != key + "_price_offpeak"
    ensures key + "_price_peak" != key + "_hours_peak"
    ensures key + "_price_offpeak" != key + "_hours_peak"
  {
    assert (key + "_price_peak")[|key| + 1] == 'p';
    assert (key + "_hours_peak")[|key| + 1] == 'h';
    assert |key + "_price_offpeak"| == |key| + 14;
    assert |key + "_price_peak"| == |key| + 11;
    assert |key + "_hours_peak"| == |key| + 11;
  }

  /** The dict `Nest` builds before storing the nested map: `opts` without the flat names. */
  function Stripped(opts: Dict<string, Value>, key: string): Dict<string, Value> {
    Remove(Remove(Remove(opts, key + "_price_peak"), key + "_price_offpeak"), key + "_hours_peak")
  }

  lemma StrippedFacts(opts: Dict<string, Value>, key: string)
    requires Distinct(opts)
    ensures var o := Stripped(opts, key);
            && Distinct(o)
            && (forall k :: k in FlatKeys(key) ==> !HasKey(o, k))
            && (forall k :: k !in FlatKeys(key) ==> Get(o, k) == Get(opts, k))
  {
    var k1, k2, k3 := key + "_price_peak", key + "_price_offpeak", key + "_hours_peak";
    var o1 := Remove(opts, k1);
    var o2 := Remove(o1, k2);
    var o3 := Remove(o2, k3);
    FlatKeysDiffer(key);
    assert !HasKey(o3, k1) by {
      assert Get(o3, k1) == Get(o2, k1) == Get(o1, k1);
    }
    assert !HasKey(o3, k2) by {
      assert Get(o3, k2) == Get(o2, k2);
    }
  }

  /**
   * `r` holds, under `key`, the nested settings built from the flat entries of `src` (or the
   * defaults), and none of the flat names.
   */
  predicate Nested(r: Dict<string, Value>, src: Dict<string, Value>, key: string, pricePeak: real, priceOffpeak: real) {
    && Get(r, key) == Some(Obj([
         ("price_peak", Get(src, key + "_price_peak").GetOr(Num(pricePeak))),
         ("price_offpeak", Get(src, key + "_price_offpeak").GetOr(Num(priceOffpeak))),
         ("hours_peak", Get(src, key + "_hours_peak").GetOr(Str(DefaultPeakHours)))]))
    && forall k :: k in FlatKeys(key) ==> !HasKey(r, k)
  }

  /**
   * Nesting gathers the three flat entries (or their defaults) under `key`, drops the flat
   * names and leaves every other entry as it was.
   */
  lemma NestMovesKeys(opts: Dict<string, Value>, key: string, pricePeak: real, priceOffpeak: real)
    requires Distinct(opts)
    ensures var r := Nest(opts, key, pricePeak, priceOffpeak);
            && Distinct(r)
            && Nested(r, opts, key, pricePeak, priceOffpeak)
            && (forall k :: k != key && k !in FlatKeys(key) ==> Get(r, k) == Get(opts, k))
  {
    var k1, k2, k3 := key + "_price_peak", key + "_price_offpeak", key + "_hours_peak";
    FlatKeysDiffer(key);
    StrippedFacts(opts, key);
    var o1 := Remove(opts, k1);
    var o2 := Remove(o1, k2);
    assert Get(o1, k2) == Get(opts, k2);
    assert Get(o2, k3) == Get(o1, k3) == Get(opts, k3);
    var nested := Obj([("price_peak", Get(opts, k1).GetOr(Num(pricePeak))),
                       ("price_offpeak", Get(opts, k2).GetOr(Num(priceOffpeak))),
                       ("hours_peak", Get(opts, k3).GetOr(Str(DefaultPeakHours)))]);
    var o := Stripped(opts, key);
    var r := Put(o, key, nested);
    assert Nest(opts, key, pricePeak, priceOffpeak) == r;
    forall k | k in FlatKeys(key)
      ensures !HasKey(r, k)
    {
      assert Get(r, k) == Get(o, k);
    }
    forall k | k != key && k !in FlatKeys(key)
      ensures Get(r, k) == Get(opts, k)
    {
      assert Get(r, k) == Get(o, k);
    }
  }

  /** Names that belong to neither tariff: `Reshape` leaves their entries alone. */
  predicate Untouched(k: string, mode: Option<Value>) {
    && k != "g12_settings" && k != "g12w_settings"
    && (UsesG12(mode) ==> k !in FlatKeys("g12_settings"))
    && (UsesG12w(mode) ==> k !in FlatKeys("g12w_settings"))
  }

  /** The two tariffs' keys and flat names are all different. */
  lemma TariffKeysDiffer()
    ensures "g12_settings" != "g12w_settings"
    ensures "g12_settings" !in FlatKeys("g12w_settings") && "g12w_settings" !in FlatKeys("g12_settings")
    ensures forall k :: k in FlatKeys("g12_settings") ==> k !in FlatKeys("g12w_settings") && k != "g12w_settings"
  {
  }

  /** Nesting the G12w settings keeps what nesting the G12 settings produced. */
  lemma SecondNestKeepsFirst(o: Dict<string, Value>, input: Dict<string, Value>)
    requires Distinct(o) && Nested(o, input, "g12_settings", 0.80, 0.50)
    ensures Nested(Nest(o, "g12w_settings", 0.85, 0.55), input, "g12_settings", 0.80, 0.50)
  {
    NestMovesKeys(o, "g12w_settings", 0.85, 0.55);
    TariffKeysDiffer();
    var r := Nest(o, "g12w_settings", 0.85, 0.55);
    assert Get(r, "g12_settings") == Get(o, "g12_settings");
    forall k | k in FlatKeys("g12_settings")
      ensures !HasKey(r, k)
    {
      assert Get(r, k) == Get(o, k);
    }
  }

  /**
   * The saved options: for each tariff the mode uses, its settings nested with defaults and
   * its flat entries gone; every other entry (a tariff the mode does not use included)
   * keeps its value.
   */
  lemma ReshapeContents(mode: Option<Value>, input: Dict<string, Value>)
    requires Distinct(input)
    ensures var r := Reshape(mode, input);
            && Distinct(r)
            && (UsesG12(mode) ==> Nested(r, input, "g12_settings", 0.80, 0.50))
            && (UsesG12w(mode) ==> Nested(r, input, "g12w_settings", 0.85, 0.55))
            && (forall k :: Untouched(k, mode) ==> Get(r, k) == Get(input, k))
  {
    FirstNestFacts(mode, input);
    if UsesG12w(mode) {
      SecondNestFacts(mode, input);
    }
  }

  /** The options after the G12 step of `Reshape`. */
  function AfterG12(mode: Option<Value>, input: Dict<string, Value>): Dict<string, Value> {
    if UsesG12(mode) then Nest(input, "g12_settings", 0.80, 0.50) else input
  }

  lemma FirstNestFacts(mode: Option<Value>, input: Dict<string, Value>)
    requires Distinct(input)
    ensures var o := AfterG12(mode, input);
            && Distinct(o)
            && (UsesG12(mode) ==> Nested(o, input, "g12_settings", 0.80, 0.50))
            && (forall k :: k != "g12_settings" && k !in FlatKeys("g12_settings") ==> Get(o, k) == Get(input, k))
            && (forall k :: Untouched(k, mode) ==> Get(o, k) == Get(input, k))
  {
    if UsesG12(mode) {
      NestMovesKeys(input, "g12_settings", 0.80, 0.50);
    }
  }

  /** Nesting reads only the three flat entries of its source. */
  lemma NestedSameSource(r: Dict<string, Value>, o: Dict<string, Value>, input: Dict<string, Value>,
                         key: string, pricePeak: real, priceOffpeak: real)
    requires forall k :: k in FlatKeys(key) ==> Get(o, k) == Get(input, k)
    requires Nested(r, o, key, pricePeak, priceOffpeak)
    ensures Nested(r, input, key, pricePeak, priceOffpeak)
  {
    assert key + "_price_peak" in FlatKeys(key);
    assert key + "_price_offpeak" in FlatKeys(key);
    assert key + "_hours_peak" in FlatKeys(key);
  }

  lemma SecondNestFacts(mode: Option<Value>, input: Dict<string, Value>)
    requires Distinct(input) && UsesG12w(mode)
    ensures var r := Nest(AfterG12(mode, input), "g12w_settings", 0.85, 0.55);
            && Distinct(r)
            && (UsesG12(mode) ==> Nested(r, input, "g12_settings", 0.80, 0.50))
            && Nested(r, input, "g12w_settings", 0.85, 0.55)
            && (forall k :: Untouched(k, mode) ==> Get(r, k) == Get(input, k))
  {
    var o := AfterG12(mode, input);
    FirstNestFacts(mode, input);
    TariffKeysDiffer();
    var r := Nest(o, "g12w_settings", 0.85, 0.55);
    NestMovesKeys(o, "g12w_settings", 0.85, 0.55);
    NestedSameSource(r, o, input, "g12w_settings", 0.85, 0.55);
    forall k | Untouched(k, mode)
      ensures Get(r, k) == Get(input, k)
    {
      assert Get(r, k) == Get(o, k);
    }
    if UsesG12(mode) {
      SecondNestKeepsFirst(o, input);
    }
  }

  /**
   * Building the options form reads `config.get(<tariff>_settings) or {}` with `.get`; a
   * stored value that is truthy but not a dict raises `AttributeError`, which aborts.
   */
  predicate FormDefaultsReadable(config: Dict<string, Value>, mode: Option<Value>) {
    var g12 := Get(config, "g12_settings");
    var g12w := Get(config, "g12w_settings");
    (UsesG12(mode) ==> g12.None? || !Truthy(g12.value) || g12.value.Obj?)
    && (UsesG12w(mode) ==> g12w.None? || !Truthy(g12w.value) || g12w.value.Obj?)
  }

  /** The form shown again (with `errors`), or the abort if its defaults cannot be read. */
  function ReconfigureForm(config: Dict<string, Value>, mode: Option<Value>, errors: Dict<string, string>): FlowResult {
    if FormDefaultsReadable(config, mode) then Form("reconfigure", errors) else Abort("unknown")
  }

  /** The three `pop`s and the assignment that nest one tariff's settings. */
  method NestInPlace(options: Dict<string, Value>, key: string, pricePeak: real, priceOffpeak: real)
    returns (r: Dict<string, Value>)
    ensures r == Nest(options, key, pricePeak, priceOffpeak)
  {
    r := options;
    var peak, offpeak, hours;
    peak, r := Get(r, key + "_price_peak").GetOr(Num(pricePeak)), Remove(r, key + "_price_peak");
    offpeak, r := Get(r, key + "_price_offpeak").GetOr(Num(priceOffpeak)), Remove(r, key + "_price_offpeak");
    hours, r := Get(r, key + "_hours_peak").GetOr(Str(DefaultPeakHours)), Remove(r, key + "_hours_peak");
    r := Put(r, key, Obj([("price_peak", peak), ("price_offpeak", offpeak), ("hours_peak", hours)]));
  }

  /**
   * `async_step_reconfigure`: validates a submission; without error the reshaped options
   * become the new entry, otherwise the form comes back with the error. Any exception
   * aborts the flow with reason `unknown`.
   */
  method Reconfigure(entry: ConfigEntry, userInput: Option<Dict<string, Value>>) returns (r: FlowResult)
    ensures var config := EffectiveConfig(entry);
            var mode := Get(config, "operation_mode");
            && (userInput.None? ==> r == ReconfigureForm(config, mode, []))
            && (userInput.Some? ==>
                  match ReconfigureError(mode, userInput.value)
                  case Err(_) => r == Abort("unknown")
                  case Ok(None) => r == Entry("", Reshape(mode, userInput.value))
                  case Ok(Some(e)) => r == ReconfigureForm(config, mode, [("base", e)]))
  {
    var config := EffectiveConfig(entry);
    var mode := Get(config, "operation_mode");
    if userInput.None? {
      return ReconfigureForm(config, mode, []);
    }
    var errors := CheckReconfigureInput(mode, userInput.value);
    ghost var verdict := ReconfigureError(mode, userInput.value);
    if errors.Err? {
      assert verdict.Err?;
      return Abort("unknown");
    }
    if errors.value == [] {
      assert verdict == Ok(None);
      var newOptions := ReshapeOptions(mode, userInput.value);
      return Entry("", newOptions);
    }
    assert verdict.Ok? && verdict.value.Some? && errors.value == [("base", verdict.value.value)];
    return ReconfigureForm(config, mode, errors.value);
  }

  /** The checks of `async_step_reconfigure`, each overwriting `errors["base"]`. */
  method CheckReconfigureInput(mode: Option<Value>, input: Dict<string, Value>)
    returns (errors: Result<Dict<string, string>, PyError>)
    ensures ReconfigureError(mode, input).Err? <==> errors.Err?
    ensures ReconfigureError(mode, input) == Ok(None) ==> errors == Ok([])
    ensures forall e :: ReconfigureError(mode, input) == Ok(Some(e)) ==> errors == Ok([("base", e)])
  {
    var found: Dict<string, string> := [];
    if UsesG12(mode) && !HoursValueValid(Get(input, "g12_settings_hours_peak")) {
      found := Put(found, "base", "invalid_g12_hour_range");
      assert found == [("base", "invalid_g12_hour_range")];
    }
    if UsesG12w(mode) && !HoursValueValid(Get(input, "g12w_settings_hours_peak")) {
      found := Put(found, "base", "invalid_g12w_hour_range");
      assert found == [("base", "invalid_g12w_hour_range")];
    }
    if mode == Some(Str(ModeComparison)) {
      var sensor := Get(input, "energy_sensor");
      if sensor.Some? && Truthy(sensor.value) {
        if !sensor.value.Str? {
          return Err(TypeError);
        }
        if !ValidEntityId(sensor.value.s) {
          found := Put(found, "base", "invalid_entity_id");
          assert found == [("base", "invalid_entity_id")];
        }
      }
    }
    return Ok(found);
  }

  /** The reshaping of `async_step_reconfigure`: G12 settings first, then G12w. */
  method ReshapeOptions(mode: Option<Value>, input: Dict<string, Value>) returns (options: Dict<string, Value>)
    ensures options == Reshape(mode, input)
  {
    options := input;
    if UsesG12(mode) {
      options := NestInPlace(options, "g12_settings", 0.80, 0.50);
    }
    if UsesG12w(mode) {
      options := NestInPlace(options, "g12w_settings", 0.85, 0.55);
    }
  }

  /** `async_step_init`: a dynamic-mode entry has nothing to configure; others reconfigure. */
  method StepInit(entry: ConfigEntry) returns (r: FlowResult)
    ensures Get(EffectiveConfig(entry), "operation_mode") == Some(Str(ModeDynamic)) ==> r == Entry("", [])
    ensures Get(EffectiveConfig(entry), "operation_mode") != Some(Str(ModeDynamic)) ==>
              r == ReconfigureForm(EffectiveConfig(entry), Get(EffectiveConfig(entry), "operation_mode"), [])
  {
    var config := EffectiveConfig(entry);
    if Get(config, "operation_mode") == Some(Str(ModeDynamic)) {
      return Entry("", []);
    }
    r := Reconfigure(entry, None);
  }
}
