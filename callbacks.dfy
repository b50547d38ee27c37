/**
 * `classify_penguin` of src/penguin_classifier/ui/callbacks.py: the one Dash
 * callback of the app. Which input fired it (and whether the button was ever
 * clicked) selects one of five branches; each returns six output slots, any of
 * which may be left as `no_update` (None here).
 *
 * `Respond` is the reference definition of the callback on values; the method
 * `ClassifyPenguin` runs it imperatively over the prediction log object, with
 * the validation loop of the source, and is proved to agree with it. The
 * lemmas below state what each branch promises.
 */
module Callbacks {
  import opened Wrappers
  import opened Errors
  import opened Config
  import opened Frames
  import opened Dataset

  // ------------------------------------------------------------------ inputs

  /** `ctx.triggered_id`: one of the three callback inputs, or none (the first call). */
  datatype Trigger = NoTrigger | ClassifyButton | ScatterXAxis | ScatterYAxis

  /** A component value as Dash delivers it: None, a string, or a number. */
  datatype Input = Null | Str(s: string) | Num(x: real)

  /** Python's `not v`. */
  predicate Falsy(v: Input)
  {
    v == Null || v == Str("") || v == Num(0.0)
  }

  /** The validation test `value is None or value == ""`. */
  predicate Blank(v: Input)
  {
    v == Null || v == Str("")
  }

  /** The six form states the callback reads. */
  datatype Form = Form(
    island: Input,
    billLength: Input,
    billDepth: Input,
    flipperLength: Input,
    bodyMass: Input,
    sex: Input)

  datatype Species = Adelie | Chinstrap | Gentoo

  function SpeciesName(sp: Species): (name: string)
    ensures name != []
  {
    match sp
    case Adelie => "Adelie"
    case Chinstrap => "Chinstrap"
    case Gentoo => "Gentoo"
  }

  type Probability = p: real | 0.0 <= p <= 1.0

  /** What `predict_single_penguin_proba` returns: a label and the top class probability. */
  datatype Prediction = Prediction(species: Species, confidence: Probability)

  /**
   * The code the callback calls but that is not part of this model: the
   * trained classifier (which may raise), `float()` on a string (ValueError on
   * text it cannot parse), the text of `round(proba * 100, 2)`, and
   * `pd.DataFrame(records)` for the cached prediction (None when it raises).
   */
  datatype Env = Env(
    predict: Frame -> Result<Prediction, Error>,
    parseFloat: string -> Result<real, Error>,
    percent: Probability -> string,
    fromRecords: seq<Row> -> Option<Frame>)

  // ----------------------------------------------------------------- outputs

  datatype Color = Info | Danger | Success

  /** `create_scatter_plot(...)`, kept as the arguments it was built from. */
  datatype Figure = Scatter(history: Frame, x: Option<string>, y: Option<string>, size: string, overlay: Option<Frame>)

  /** `dbc.Table.from_dataframe(...)`, or the placeholder text. */
  datatype TableView = HistoryTable(history: Frame) | NoHistory(text: string)

  /** The six outputs; None is `no_update`. */
  datatype Outputs = Outputs(
    message: Option<string>,
    isOpen: Option<bool>,
    color: Option<Color>,
    figure: Option<Figure>,
    table: Option<TableView>,
    store: Option<seq<Row>>)

  /** The calls with effects or failure modes, in the order they are made. */
  datatype Call = LoadCall | PredictCall | SaveCall

  /** The callback's return (or the exception that escapes it), the log file after it, and its calls. */
  datatype Reply = Reply(result: Result<Outputs, Error>, log: LogState, calls: seq<Call>)

  const INITIAL_MESSAGE: string := "Please enter values and press Classify"
  const ISLAND_MESSAGE: string := "Please select an island."
  const NO_HISTORY_TEXT: string := "No historical data available yet."
  const NO_SEX_NOTE: string := " - (Note: No sex provided)"
  const SYSTEM_ERROR_PREFIX: string := "System Error: "
  const DEFAULT_X: string := "flipper_length_mm"
  const DEFAULT_Y: string := "bill_length_mm"
  const SIZE_COLUMN: string := "body_mass_g"

  /** `value or default` for an axis dropdown. */
  function OrDefault(v: Option<string>, default: string): string
  {
    if v.None? || v.value == "" then default else v.value
  }

  /** Python truthiness of the cached store: present and a non-empty list. */
  predicate Truthy(latest: Option<seq<Row>>)
  {
    latest.Some? && |latest.value| > 0
  }

  /** Slot values of an alert: message shown in the given colour, everything else `no_update`. */
  function Alert(message: string, color: Color): Outputs
  {
    Outputs(Some(message), Some(true), Some(color), None, None, None)
  }

  const NO_UPDATE: Outputs := Outputs(None, None, None, None, None, None)

  // -------------------------------------------------------------- validation

  /** `inputs_to_validate`, in its insertion order. */
  function NumericInputs(form: Form): seq<(string, Input)>
  {
    [ ("bill_length_mm", form.billLength),
      ("bill_depth_mm", form.billDepth),
      ("flipper_length_mm", form.flipperLength),
      ("body_mass_g", form.bodyMass) ]
  }

  /** Position of the first blank value, or |fields| when there is none. */
  function FirstBlankIndex(fields: seq<(string, Input)>): (k: nat)
    ensures k <= |fields|
    ensures forall j :: 0 <= j < k ==> !Blank(fields[j].1)
    ensures k < |fields| ==> Blank(fields[k].1)
  {
    if fields == [] then 0
    else if Blank(fields[0].1) then 0
    else 1 + FirstBlankIndex(fields[1..])
  }

  /** The `for feature_name, value in ...` loop: stops at the first blank value. */
  method FirstBlank(fields: seq<(string, Input)>) returns (k: nat)
    ensures k == FirstBlankIndex(fields)
  {
    k := 0;
    while k < |fields|
      invariant k <= |fields|
      invariant forall j :: 0 <= j < k ==> !Blank(fields[j].1)
    {
      if Blank(fields[k].1) {
        return;
      }
      k := k + 1;
    }
  }

  function MissingValueMessage(name: string): string
  {
    "Please enter a valid value for '" + name + "'."
  }

  // --------------------------------------------------------- the observation

  /** `float(v)`; a None is a TypeError (validation already rules it out). */
  function ToFloat(v: Input, env: Env): Result<real, Error>
  {
    match v
    case Null => Err(TypeError("float() argument must be a string or a real number, not 'NoneType'"))
    case Str(s) => env.parseFloat(s)
    case Num(x) => Ok(x)
  }

  /** A form value stored as it is in a DataFrame cell. */
  function ToCell(v: Input): Cell
  {
    match v
    case Null => NA
    case Str(s) => Text(s)
    case Num(x) => Number(x)
  }

  const OBSERVATION_COLUMNS: seq<string> :=
    ["island", "bill_length_mm", "bill_depth_mm", "flipper_length_mm", "body_mass_g", "sex"]

  function ObservationRow(island: Cell, bill: real, depth: real, flipper: real, mass: real, sex: Cell): Row
  {
    map["island" := island, "bill_length_mm" := Number(bill), "bill_depth_mm" := Number(depth),
        "flipper_length_mm" := Number(flipper), "body_mass_g" := Number(mass), "sex" := sex]
  }

  lemma ObservationRowKeys(island: Cell, bill: real, depth: real, flipper: real, mass: real, sex: Cell)
    ensures ObservationRow(island, bill, depth, flipper, mass, sex).Keys == ColumnSet(OBSERVATION_COLUMNS)
  {
  }

  /** `pd.DataFrame({...})` of the form; each `float()` in turn, the first failure raising. */
  function Observation(form: Form, env: Env): (r: Result<Frame, Error>)
    ensures r.Err? <==>
      ToFloat(form.billLength, env).Err? || ToFloat(form.billDepth, env).Err?
      || ToFloat(form.flipperLength, env).Err? || ToFloat(form.bodyMass, env).Err?
    ensures r.Ok? ==> WellFormed(r.value) && r.value.columns == OBSERVATION_COLUMNS && |r.value.rows| == 1
    ensures r.Ok? ==>
      r.value.rows[0] == ObservationRow(ToCell(form.island), ToFloat(form.billLength, env).value,
                                        ToFloat(form.billDepth, env).value, ToFloat(form.flipperLength, env).value,
                                        ToFloat(form.bodyMass, env).value, ToCell(form.sex))
    ensures ToFloat(form.billLength, env).Err? ==> r == Err(ToFloat(form.billLength, env).error)
    ensures ToFloat(form.billLength, env).Ok? && ToFloat(form.billDepth, env).Err? ==>
      r == Err(ToFloat(form.billDepth, env).error)
    ensures (ToFloat(form.billLength, env).Ok? && ToFloat(form.billDepth, env).Ok?
             && ToFloat(form.flipperLength, env).Err?) ==>
      r == Err(ToFloat(form.flipperLength, env).error)
    ensures (ToFloat(form.billLength, env).Ok? && ToFloat(form.billDepth, env).Ok?
             && ToFloat(form.flipperLength, env).Ok? && ToFloat(form.bodyMass, env).Err?) ==>
      r == Err(ToFloat(form.bodyMass, env).error)
  {
    var bill :- ToFloat(form.billLength, env);
    var depth :- ToFloat(form.billDepth, env);
    var flipper :- ToFloat(form.flipperLength, env);
    var mass :- ToFloat(form.bodyMass, env);
    ObservationRowKeys(ToCell(form.island), bill, depth, flipper, mass, ToCell(form.sex));
    Ok(Frame(OBSERVATION_COLUMNS, [ObservationRow(ToCell(form.island), bill, depth, flipper, mass, ToCell(form.sex))]))
  }

  /** `penguin_attributes["species"] = species`. */
  function WithSpecies(f: Frame, sp: Species): (g: Frame)
    ensures g.columns == if "species" in f.columns then f.columns else f.columns + ["species"]
    ensures |g.rows| == |f.rows|
    ensures forall i :: 0 <= i < |g.rows| ==>
      g.rows[i].Keys == f.rows[i].Keys + {"species"} && g.rows[i]["species"] == Text(SpeciesName(sp))
      && forall c :: c in f.rows[i] && c != "species" ==> g.rows[i][c] == f.rows[i][c]
  {
    SetColumn(f, "species", Text(SpeciesName(sp)))
  }

  /** The observation with its species has every CSV_HEADER column, so saving it cannot fail. */
  lemma RecordIsSavable(obs: Frame, sp: Species)
    requires WellFormed(obs) && obs.columns == OBSERVATION_COLUMNS && |obs.rows| == 1
    ensures WellFormed(WithSpecies(obs, sp)) && Savable(WithSpecies(obs, sp)) && |WithSpecies(obs, sp).rows| == 1
    ensures WithSpecies(obs, sp).rows[0]["species"] == Text(SpeciesName(sp))
  {
    var rec := WithSpecies(obs, sp);
    assert "species" !in OBSERVATION_COLUMNS;
    assert rec.columns == OBSERVATION_COLUMNS + ["species"];
    forall c | c in CSV_HEADER ensures c in rec.columns {
      assert c in OBSERVATION_COLUMNS + ["species"];
    }
  }

  // ---------------------------------------------------------------- messages

  /** `f"Species: {species} --- Confidence: {round(proba * 100, 2)}%"`, plus the note when sex is falsy. */
  function SuccessMessage(p: Prediction, sex: Input, env: Env): (m: string)
    ensures var head := "Species: " + SpeciesName(p.species) + " --- Confidence: ";
      && |head| + |env.percent(p.confidence)| + 1 <= |m|
      && m[..|head|] == head
      && m[|head|..|head| + |env.percent(p.confidence)| + 1] == env.percent(p.confidence) + "%"
      && |m| == |head| + |env.percent(p.confidence)| + 1 + (if Falsy(sex) then |NO_SEX_NOTE| else 0)
    ensures EndsWith(m, " - (Note: No sex provided)") <==> Falsy(sex)
  {
    var head := "Species: " + SpeciesName(p.species) + " --- Confidence: ";
    var pct := env.percent(p.confidence);
    var tail := if Falsy(sex) then NO_SEX_NOTE else "";
    var m := head + (pct + "%") + tail;
    assert m[..|head|] == head;
    assert m[|head|..|head| + |pct| + 1] == pct + "%";
    assert !Falsy(sex) ==> m[|m| - 1] == '%';
    m
  }

  predicate EndsWith(s: string, suffix: string)
  {
    |suffix| <= |s| && s[|s| - |suffix|..] == suffix
  }

  function SystemErrorMessage(e: Error): string
  {
    SYSTEM_ERROR_PREFIX + Describe(e)
  }

  // ------------------------------------------------------ reference callback

  /** `try: load_combined_data() ... except FileNotFoundError:` around the table of the first render. */
  function InitialTable(loaded: Result<Frame, Error>): (t: Result<TableView, Error>)
    ensures loaded.Ok? ==> t == Ok(HistoryTable(loaded.value))
    ensures loaded.Err? && loaded.error.FileNotFound? ==> t == Ok(NoHistory(NO_HISTORY_TEXT))
    ensures loaded.Err? && !loaded.error.FileNotFound? ==> t == Err(loaded.error)
  {
    match loaded
    case Ok(f) => Ok(HistoryTable(f))
    case Err(FileNotFound(_)) => Ok(NoHistory(NO_HISTORY_TEXT))
    case Err(e) => Err(e)
  }

  /** Lines 66-89: plot and table of the combined view, the greeting in "info". */
  function InitialRender(xAxis: Option<string>, yAxis: Option<string>, seed: CsvFile, s: LogState): (r: Reply)
    requires ValidLog(s) && ReadableFile(seed)
    ensures r.log == s && r.calls == if r.result.Ok? then [LoadCall, LoadCall] else [LoadCall]
  {
    var current := LoadCombinedData(seed, ReadLog(s));
    if current.Err? then Reply(Err(current.error), s, [LoadCall])
    else
      var fig := Scatter(current.value, Some(OrDefault(xAxis, DEFAULT_X)), Some(OrDefault(yAxis, DEFAULT_Y)), SIZE_COLUMN, None);
      var table := InitialTable(LoadCombinedData(seed, ReadLog(s)));
      Reply(Ok(Outputs(Some(INITIAL_MESSAGE), Some(true), Some(Info), Some(fig), Some(table.value), None)), s, [LoadCall, LoadCall])
  }

  /** Lines 91-109: only the figure, redrawn with the cached prediction when the store holds one. */
  function AxisChange(xAxis: Option<string>, yAxis: Option<string>, latest: Option<seq<Row>>, seed: CsvFile, s: LogState, env: Env): (r: Reply)
    requires ValidLog(s) && ReadableFile(seed)
    ensures r.log == s && r.calls == [LoadCall]
    ensures r.result.Ok? ==> var o := r.result.value;
      o.figure.Some? && o.message.None? && o.isOpen.None? && o.color.None? && o.table.None? && o.store.None?
  {
    var current := LoadCombinedData(seed, ReadLog(s));
    if current.Err? then Reply(Err(current.error), s, [LoadCall])
    else
      var overlay := if Truthy(latest) then env.fromRecords(latest.value) else None;
      var fig := Scatter(current.value, xAxis, yAxis, SIZE_COLUMN, overlay);
      Reply(Ok(Outputs(None, None, None, Some(fig), None, None)), s, [LoadCall])
  }

  /** Lines 111-191: validate, predict, save, reload; any exception becomes a "System Error" alert. */
  function Classify(xAxis: Option<string>, yAxis: Option<string>, form: Form, seed: CsvFile, s: LogState, env: Env): (r: Reply)
    requires ValidLog(s) && ReadableFile(seed)
    ensures ValidLog(r.log)
    ensures r.calls == [] <==>
      Falsy(form.island) || FirstBlankIndex(NumericInputs(form)) < |NumericInputs(form)| || Observation(form, env).Err?
    ensures r.calls == [] || r.calls == [PredictCall] || r.calls == [PredictCall, SaveCall, LoadCall]
    ensures r.calls != [PredictCall, SaveCall, LoadCall] ==> r.log == s
    ensures s.fileExists ==> |r.log.lines| >= |s.lines| && r.log.lines[..|s.lines|] == s.lines
  {
    var fields := NumericInputs(form);
    var k := FirstBlankIndex(fields);
    if Falsy(form.island) then Reply(Ok(Alert(ISLAND_MESSAGE, Danger)), s, [])
    else if k < |fields| then Reply(Ok(Alert(MissingValueMessage(fields[k].0), Danger)), s, [])
    else
      var obs := Observation(form, env);
      if obs.Err? then Reply(Ok(Alert(SystemErrorMessage(obs.error), Danger)), s, [])
      else PredictAndSaveReply(xAxis, yAxis, obs.value, form.sex, seed, s, env)
  }

  /** Lines 145-191 once the observation frame exists: predict, save, reload, or a "System Error" alert. */
  function PredictAndSaveReply(xAxis: Option<string>, yAxis: Option<string>, obs: Frame, sex: Input, seed: CsvFile, s: LogState, env: Env): (r: Reply)
    requires ValidLog(s) && ReadableFile(seed)
    requires WellFormed(obs) && obs.columns == OBSERVATION_COLUMNS && |obs.rows| == 1
    ensures ValidLog(r.log)
    ensures env.predict(obs).Err? ==> r.log == s && r.calls == [PredictCall]
    ensures env.predict(obs).Ok? ==>
      && r.calls == [PredictCall, SaveCall, LoadCall]
      && |WithSpecies(obs, env.predict(obs).value.species).rows| == 1
      && r.log.lines == (if s.fileExists then s.lines else [Header(CSV_HEADER)])
                        + [RecordOf(WithSpecies(obs, env.predict(obs).value.species).rows[0])]
  {
    var prediction := env.predict(obs);
    if prediction.Err? then Reply(Ok(Alert(SystemErrorMessage(prediction.error), Danger)), s, [PredictCall])
    else
      var record := WithSpecies(obs, prediction.value.species);
      RecordIsSavable(obs, prediction.value.species);
      SaveOneRow(s, record);
      ShowSaved(xAxis, yAxis, record, SuccessMessage(prediction.value, sex, env), seed, SavePrediction(s, record).value)
  }

  /** Lines 162-191 once the record is saved: reload, then the success outputs or a "System Error" alert. */
  function ShowSaved(xAxis: Option<string>, yAxis: Option<string>, record: Frame, message: string, seed: CsvFile, s': LogState): (r: Reply)
    requires ValidLog(s') && ReadableFile(seed) && |record.rows| == 1
    ensures r.log == s' && r.calls == [PredictCall, SaveCall, LoadCall] && r.result.Ok?
    ensures r.result.value.color == Some(if LoadCombinedData(seed, ReadLog(s')).Ok? then Success else Danger)
    ensures r.result.value.color == Some(Success) ==> r.result.value.store == Some([record.rows[0]])
  {
    var refreshed := LoadCombinedData(seed, ReadLog(s'));
    if refreshed.Err? then Reply(Ok(Alert(SystemErrorMessage(refreshed.error), Danger)), s', [PredictCall, SaveCall, LoadCall])
    else
      var fig := Scatter(refreshed.value, xAxis, yAxis, SIZE_COLUMN, Some(record));
      var out := Outputs(Some(message), Some(true), Some(Success), Some(fig), Some(HistoryTable(refreshed.value)), Some([record.rows[0]]));
      Reply(Ok(out), s', [PredictCall, SaveCall, LoadCall])
  }

  /** The whole callback: dispatch on the trigger and on whether the button was ever clicked. */
  function Respond(trigger: Trigger, nClicks: Option<int>, xAxis: Option<string>, yAxis: Option<string>,
                   form: Form, latest: Option<seq<Row>>, seed: CsvFile, s: LogState, env: Env): (r: Reply)
    requires ValidLog(s) && ReadableFile(seed)
    ensures ValidLog(r.log)
    ensures PredictCall in r.calls || SaveCall in r.calls || r.log != s ==> trigger == ClassifyButton
    ensures r.log != s ==> r.calls == [PredictCall, SaveCall, LoadCall]
    ensures s.fileExists ==> |r.log.lines| >= |s.lines| && r.log.lines[..|s.lines|] == s.lines
  {
    if trigger == NoTrigger && nClicks.None? then InitialRender(xAxis, yAxis, seed, s)
    else if trigger == ScatterXAxis || trigger == ScatterYAxis then AxisChange(xAxis, yAxis, latest, seed, s, env)
    else if trigger == ClassifyButton then Classify(xAxis, yAxis, form, seed, s, env)
    else Reply(Ok(NO_UPDATE), s, [])
  }

  // ------------------------------------------------------------- the callback

  /** `classify_penguin` over the prediction log file. */
  method ClassifyPenguin(trigger: Trigger, nClicks: Option<int>, xAxis: Option<string>, yAxis: Option<string>,
                         form: Form, latest: Option<seq<Row>>, seed: CsvFile, log: PredictionLog, env: Env)
    returns (r: Result<Outputs, Error>, calls: seq<Call>)
    requires log.Valid() && ReadableFile(seed)
    modifies log
    ensures log.Valid()
    ensures Reply(r, log.State(), calls) == Respond(trigger, nClicks, xAxis, yAxis, form, latest, seed, old(log.State()), env)
  {
    if trigger == NoTrigger && nClicks.None? {
      r, calls := RenderInitial(xAxis, yAxis, seed, log);
    } else if trigger == ScatterXAxis || trigger == ScatterYAxis {
      r, calls := RedrawForAxes(xAxis, yAxis, latest, seed, log, env);
    } else if trigger == ClassifyButton {
      r, calls := ClassifyAndSave(xAxis, yAxis, form, seed, log, env);
    } else {
      r, calls := Ok(NO_UPDATE), [];
    }
  }

  /** Lines 66-89 over the log object. */
  method RenderInitial(xAxis: Option<string>, yAxis: Option<string>, seed: CsvFile, log: PredictionLog)
    returns (r: Result<Outputs, Error>, calls: seq<Call>)
    requires log.Valid() && ReadableFile(seed)
    ensures Reply(r, log.State(), calls) == InitialRender(xAxis, yAxis, seed, log.State())
  {
    calls := [];
    var file := log.Snapshot();
    var current := LoadCombinedData(seed, file);
    calls := calls + [LoadCall];
    if current.Err? {
      return Err(current.error), calls;
    }
    var fig := Scatter(current.value, Some(OrDefault(xAxis, DEFAULT_X)), Some(OrDefault(yAxis, DEFAULT_Y)), SIZE_COLUMN, None);
    var updated := LoadCombinedData(seed, file);
    calls := calls + [LoadCall];
    var table := InitialTable(updated);
    return Ok(Outputs(Some(INITIAL_MESSAGE), Some(true), Some(Info), Some(fig), Some(table.value), None)), calls;
  }

  method RedrawForAxes(xAxis: Option<string>, yAxis: Option<string>, latest: Option<seq<Row>>, seed: CsvFile, log: PredictionLog, env: Env)
    returns (r: Result<Outputs, Error>, calls: seq<Call>)
    requires log.Valid() && ReadableFile(seed)
    ensures Reply(r, log.State(), calls) == AxisChange(xAxis, yAxis, latest, seed, log.State(), env)
  {
    calls := [];
    var current := LoadCombinedData(seed, log.Snapshot());
    calls := calls + [LoadCall];
    if current.Err? {
      return Err(current.error), calls;
    }
    var overlay: Option<Frame> := None;
    if Truthy(latest) {
      overlay := env.fromRecords(latest.value);
    }
    var fig := Scatter(current.value, xAxis, yAxis, SIZE_COLUMN, overlay);
    return Ok(Outputs(None, None, None, Some(fig), None, None)), calls;
  }

  /** Lines 111-191 over the log object: the only branch that writes the file. */
  method ClassifyAndSave(xAxis: Option<string>, yAxis: Option<string>, form: Form, seed: CsvFile, log: PredictionLog, env: Env)
    returns (r: Result<Outputs, Error>, calls: seq<Call>)
    requires log.Valid() && ReadableFile(seed)
    modifies log
    ensures log.Valid()
    ensures Reply(r, log.State(), calls) == Classify(xAxis, yAxis, form, seed, old(log.State()), env)
  {
    calls := [];
    if Falsy(form.island) {
      return Ok(Alert(ISLAND_MESSAGE, Danger)), calls;
    }
    var fields := NumericInputs(form);
    var k := FirstBlank(fields);
    if k < |fields| {
      return Ok(Alert(MissingValueMessage(fields[k].0), Danger)), calls;
    }
    var obs := Observation(form, env);
    if obs.Err? {
      return Ok(Alert(SystemErrorMessage(obs.error), Danger)), calls;
    }
    r, calls := PredictAndSave(xAxis, yAxis, obs.value, form.sex, seed, log, env);
  }

  /** Lines 145-191 over the log object. */
  method PredictAndSave(xAxis: Option<string>, yAxis: Option<string>, obs: Frame, sex: Input, seed: CsvFile, log: PredictionLog, env: Env)
    returns (r: Result<Outputs, Error>, calls: seq<Call>)
    requires log.Valid() && ReadableFile(seed)
    requires WellFormed(obs) && obs.columns == OBSERVATION_COLUMNS && |obs.rows| == 1
    modifies log
    ensures log.Valid()
    ensures Reply(r, log.State(), calls) == PredictAndSaveReply(xAxis, yAxis, obs, sex, seed, old(log.State()), env)
  {
    var attributes := obs;
    var prediction := env.predict(attributes);
    calls := [PredictCall];
    if prediction.Err? {
      return Ok(Alert(SystemErrorMessage(prediction.error), Danger)), calls;
    }
    var message := SuccessMessage(prediction.value, sex, env);
    RecordIsSavable(attributes, prediction.value.species);
    attributes := WithSpecies(attributes, prediction.value.species);
    var _ := log.Save(attributes);
    r, calls := ReloadAndShow(xAxis, yAxis, attributes, message, seed, log);
  }

  /** Lines 162-191 over the log object. */
  method ReloadAndShow(xAxis: Option<string>, yAxis: Option<string>, record: Frame, message: string, seed: CsvFile, log: PredictionLog)
    returns (r: Result<Outputs, Error>, calls: seq<Call>)
    requires log.Valid() && ReadableFile(seed) && |record.rows| == 1
    ensures Reply(r, log.State(), calls) == ShowSaved(xAxis, yAxis, record, message, seed, log.State())
  {
    calls := [PredictCall, SaveCall];
    var store := [record.rows[0]];
    var refreshed := LoadCombinedData(seed, log.Snapshot());
    calls := calls + [LoadCall];
    if refreshed.Err? {
      return Ok(Alert(SystemErrorMessage(refreshed.error), Danger)), calls;
    }
    var fig := Scatter(refreshed.value, xAxis, yAxis, SIZE_COLUMN, Some(record));
    return Ok(Outputs(Some(message), Some(true), Some(Success), Some(fig), Some(HistoryTable(refreshed.value)), Some(store))), calls;
  }
}
