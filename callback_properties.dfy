/**
 * What each branch of `classify_penguin` promises, stated on the reference
 * definition `Respond` (which `ClassifyPenguin` is proved to follow).
 */
module CallbackProperties {
  import opened Wrappers
  import opened Errors
  import opened Config
  import opened Frames
  import opened Dataset
  import opened Callbacks

  // ---------------------------------------------------------- initial render

  /**
   * First call (no trigger, button never clicked): the greeting in "info", figure
   * and table of the combined view with the axes defaulting to flipper length
   * and bill length, the store untouched, the log unchanged. The placeholder
   * table never appears: the second load reads the same files as the first.
   */
  lemma InitialRenderShowsView(xAxis: Option<string>, yAxis: Option<string>, form: Form, latest: Option<seq<Row>>,
                               seed: CsvFile, s: LogState, env: Env)
    requires ValidLog(s) && ReadableFile(seed)
    ensures var rep := Respond(NoTrigger, None, xAxis, yAxis, form, latest, seed, s, env);
      var view := LoadCombinedData(seed, ReadLog(s));
      var x := if xAxis == None || xAxis == Some("") then DEFAULT_X else xAxis.value;
      var y := if yAxis == None || yAxis == Some("") then DEFAULT_Y else yAxis.value;
      && rep.log == s
      && (view.Err? ==> rep.result == Err(view.error) && rep.calls == [LoadCall])
      && (view.Ok? ==>
            && rep.calls == [LoadCall, LoadCall]
            && rep.result == Ok(Outputs(Some("Please enter values and press Classify"), Some(true), Some(Info),
                                        Some(Scatter(view.value, Some(x), Some(y), "body_mass_g", None)),
                                        Some(HistoryTable(view.value)), None)))
  {
  }

  // ------------------------------------------------------------- axis change

  /**
   * An axis dropdown fired: only the figure slot is set, the cached prediction
   * is overlaid only when the store holds a record, and nothing is predicted
   * or saved.
   */
  lemma AxisChangeOnlyRedraws(trigger: Trigger, nClicks: Option<int>, xAxis: Option<string>, yAxis: Option<string>,
                              form: Form, latest: Option<seq<Row>>, seed: CsvFile, s: LogState, env: Env)
    requires ValidLog(s) && ReadableFile(seed)
    requires trigger == ScatterXAxis || trigger == ScatterYAxis
    ensures var rep := Respond(trigger, nClicks, xAxis, yAxis, form, latest, seed, s, env);
      var view := LoadCombinedData(seed, ReadLog(s));
      && rep.log == s && rep.calls == [LoadCall]
      && (view.Err? ==> rep.result == Err(view.error))
      && (view.Ok? ==> rep.result == Ok(Outputs(None, None, None,
            Some(Scatter(view.value, xAxis, yAxis, "body_mass_g",
                         if latest.Some? && latest.value != [] then env.fromRecords(latest.value) else None)),
            None, None)))
  {
  }

  // -------------------------------------------------------------- validation

  /** A falsy island is reported first, whatever the numeric fields hold; nothing else happens. */
  lemma MissingIslandAlert(nClicks: Option<int>, xAxis: Option<string>, yAxis: Option<string>,
                           form: Form, latest: Option<seq<Row>>, seed: CsvFile, s: LogState, env: Env)
    requires ValidLog(s) && ReadableFile(seed)
    requires form.island == Null || form.island == Str("") || form.island == Num(0.0)
    ensures Respond(ClassifyButton, nClicks, xAxis, yAxis, form, latest, seed, s, env)
            == Reply(Ok(Outputs(Some("Please select an island."), Some(true), Some(Danger), None, None, None)), s, [])
  {
  }

  /** The k-th numeric input of the form, in the order the callback checks them. */
  function NumericInput(form: Form, k: nat): Input
    requires k < |NUMERICAL_FEATURES|
  {
    if k == 0 then form.billLength
    else if k == 1 then form.billDepth
    else if k == 2 then form.flipperLength
    else form.bodyMass
  }

  lemma NumericInputsInFeatureOrder(form: Form)
    ensures |NumericInputs(form)| == |NUMERICAL_FEATURES|
    ensures forall k :: 0 <= k < |NUMERICAL_FEATURES| ==>
      NumericInputs(form)[k] == (NUMERICAL_FEATURES[k], NumericInput(form, k))
  {
  }

  /**
   * With an island given, the first numeric input (in NUMERICAL_FEATURES
   * order) that is None or "" is named in a "danger" alert; nothing is
   * predicted or saved and no other slot changes.
   */
  lemma MissingValueAlert(nClicks: Option<int>, xAxis: Option<string>, yAxis: Option<string>, form: Form,
                          latest: Option<seq<Row>>, seed: CsvFile, s: LogState, env: Env, k: nat)
    requires ValidLog(s) && ReadableFile(seed)
    requires !Falsy(form.island)
    requires k < |NUMERICAL_FEATURES| && Blank(NumericInput(form, k))
    requires forall j :: 0 <= j < k ==> !Blank(NumericInput(form, j))
    ensures Respond(ClassifyButton, nClicks, xAxis, yAxis, form, latest, seed, s, env)
            == Reply(Ok(Outputs(Some("Please enter a valid value for '" + NUMERICAL_FEATURES[k] + "'."),
                                Some(true), Some(Danger), None, None, None)), s, [])
  {
    NumericInputsInFeatureOrder(form);
  }

  /**
   * Presence is all that is checked: with an island given, numbers in every
   * numeric field go on to the classifier whatever their value, in particular
   * values outside FEATURE_CONSTRAINTS such as a bill length of 9999.
   */
  lemma NumbersAreNeverRejected(nClicks: Option<int>, xAxis: Option<string>, yAxis: Option<string>, form: Form,
                                latest: Option<seq<Row>>, seed: CsvFile, s: LogState, env: Env,
                                bill: real, depth: real, flipper: real, mass: real)
    requires ValidLog(s) && ReadableFile(seed) && !Falsy(form.island)
    requires form.billLength == Num(bill) && form.billDepth == Num(depth)
    requires form.flipperLength == Num(flipper) && form.bodyMass == Num(mass)
    ensures var rep := Respond(ClassifyButton, nClicks, xAxis, yAxis, form, latest, seed, s, env);
      |rep.calls| >= 1 && rep.calls[0] == PredictCall
  {
    assert Observation(form, env).Ok?;
    ValidInputsReachPredict(nClicks, xAxis, yAxis, form, latest, seed, s, env);
  }

  // ------------------------------------------------------------ classify path

  /** A `float()` that raises becomes a "System Error" alert before anything is predicted. */
  lemma ConversionErrorAlert(nClicks: Option<int>, xAxis: Option<string>, yAxis: Option<string>, form: Form,
                             latest: Option<seq<Row>>, seed: CsvFile, s: LogState, env: Env)
    requires ValidLog(s) && ReadableFile(seed)
    requires !Falsy(form.island) && forall k :: 0 <= k < |NUMERICAL_FEATURES| ==> !Blank(NumericInput(form, k))
    requires Observation(form, env).Err?
    ensures Respond(ClassifyButton, nClicks, xAxis, yAxis, form, latest, seed, s, env)
            == Reply(Ok(Outputs(Some("System Error: " + Describe(Observation(form, env).error)),
                                Some(true), Some(Danger), None, None, None)), s, [])
  {
    NumericInputsInFeatureOrder(form);
    assert FirstBlankIndex(NumericInputs(form)) == 4;
  }

  /**
   * A numeric field holding text the float parser rejects, after fields that
   * all convert, makes the observation fail with the parser's own error.
   */
  lemma UnparsableTextFails(form: Form, env: Env, k: nat, text: string)
    requires k < |NUMERICAL_FEATURES| && NumericInput(form, k) == Str(text) && env.parseFloat(text).Err?
    requires forall j :: 0 <= j < k ==> ToFloat(NumericInput(form, j), env).Ok?
    ensures Observation(form, env) == Err(env.parseFloat(text).error)
  {
    if k > 0 {
      assert ToFloat(NumericInput(form, 0), env).Ok?;
    }
    if k > 1 {
      assert ToFloat(NumericInput(form, 1), env).Ok?;
    }
    if k > 2 {
      assert ToFloat(NumericInput(form, 2), env).Ok?;
    }
  }

  /** Inputs that pass validation and convert lead to the predict step with their observation frame. */
  lemma ValidInputsReachPredict(nClicks: Option<int>, xAxis: Option<string>, yAxis: Option<string>, form: Form,
                                latest: Option<seq<Row>>, seed: CsvFile, s: LogState, env: Env)
    requires ValidLog(s) && ReadableFile(seed)
    requires !Falsy(form.island) && forall k :: 0 <= k < |NUMERICAL_FEATURES| ==> !Blank(NumericInput(form, k))
    requires Observation(form, env).Ok?
    ensures Respond(ClassifyButton, nClicks, xAxis, yAxis, form, latest, seed, s, env)
            == PredictAndSaveReply(xAxis, yAxis, Observation(form, env).value, form.sex, seed, s, env)
  {
    NumericInputsInFeatureOrder(form);
    assert FirstBlankIndex(NumericInputs(form)) == 4;
  }

  /** A classifier that raises gives a "System Error" alert after the one predict call; nothing is saved. */
  lemma PredictErrorAlert(nClicks: Option<int>, xAxis: Option<string>, yAxis: Option<string>, form: Form,
                          latest: Option<seq<Row>>, seed: CsvFile, s: LogState, env: Env)
    requires ValidLog(s) && ReadableFile(seed)
    requires !Falsy(form.island) && forall k :: 0 <= k < |NUMERICAL_FEATURES| ==> !Blank(NumericInput(form, k))
    requires Observation(form, env).Ok? && env.predict(Observation(form, env).value).Err?
    ensures Respond(ClassifyButton, nClicks, xAxis, yAxis, form, latest, seed, s, env)
            == Reply(Ok(Outputs(Some("System Error: " + Describe(env.predict(Observation(form, env).value).error)),
                                Some(true), Some(Danger), None, None, None)), s, [PredictCall])
  {
    ValidInputsReachPredict(nClicks, xAxis, yAxis, form, latest, seed, s, env);
  }

  /** The record saved on the classify path: the observation with the predicted species. */
  function SavedRecord(form: Form, env: Env): Frame
    requires Observation(form, env).Ok? && env.predict(Observation(form, env).value).Ok?
  {
    WithSpecies(Observation(form, env).value, env.predict(Observation(form, env).value).value.species)
  }

  /**
   * A successful classification: predict, then one save of the observation
   * labelled with the predicted species, then the reload from which both figure
   * and table are built; "success" colour, the message of the prediction, and
   * the saved record as the store.
   */
  lemma ClassifySuccess(nClicks: Option<int>, xAxis: Option<string>, yAxis: Option<string>, form: Form,
                        latest: Option<seq<Row>>, seed: CsvFile, s: LogState, env: Env)
    requires ValidLog(s) && ReadableFile(seed)
    requires !Falsy(form.island) && forall k :: 0 <= k < |NUMERICAL_FEATURES| ==> !Blank(NumericInput(form, k))
    requires Observation(form, env).Ok? && env.predict(Observation(form, env).value).Ok?
    ensures Savable(SavedRecord(form, env)) && WellFormed(SavedRecord(form, env)) && |SavedRecord(form, env).rows| == 1
    ensures SavePrediction(s, SavedRecord(form, env)).Ok?
    ensures var saved := SavePrediction(s, SavedRecord(form, env)).value;
      var view := LoadCombinedData(seed, ReadLog(saved));
      var p := env.predict(Observation(form, env).value).value;
      var rep := Respond(ClassifyButton, nClicks, xAxis, yAxis, form, latest, seed, s, env);
      view.Ok? ==>
        && rep.log == saved && rep.calls == [PredictCall, SaveCall, LoadCall]
        && rep.result == Ok(Outputs(Some(SuccessMessage(p, form.sex, env)), Some(true), Some(Success),
                                    Some(Scatter(view.value, xAxis, yAxis, "body_mass_g", Some(SavedRecord(form, env)))),
                                    Some(HistoryTable(view.value)), Some([SavedRecord(form, env).rows[0]])))
        && SavedRecord(form, env).rows[0]["species"] == Text(SpeciesName(p.species))
  {
    ValidInputsReachPredict(nClicks, xAxis, yAxis, form, latest, seed, s, env);
    SavedRecordHoldsValue(form, env);
  }

  /** A reload that raises after the save: "System Error", although the record stays written. */
  lemma ReloadErrorAfterSave(nClicks: Option<int>, xAxis: Option<string>, yAxis: Option<string>, form: Form,
                             latest: Option<seq<Row>>, seed: CsvFile, s: LogState, env: Env)
    requires ValidLog(s) && ReadableFile(seed)
    requires !Falsy(form.island) && forall k :: 0 <= k < |NUMERICAL_FEATURES| ==> !Blank(NumericInput(form, k))
    requires Observation(form, env).Ok? && env.predict(Observation(form, env).value).Ok?
    ensures SavePrediction(s, SavedRecord(form, env)).Ok?
    ensures var saved := SavePrediction(s, SavedRecord(form, env)).value;
      var view := LoadCombinedData(seed, ReadLog(saved));
      view.Err? ==>
        Respond(ClassifyButton, nClicks, xAxis, yAxis, form, latest, seed, s, env)
        == Reply(Ok(Outputs(Some("System Error: " + Describe(view.error)), Some(true), Some(Danger), None, None, None)),
                 saved, [PredictCall, SaveCall, LoadCall])
  {
    ValidInputsReachPredict(nClicks, xAxis, yAxis, form, latest, seed, s, env);
    SavedRecordHoldsValue(form, env);
  }

  /** After a successful classification, the reloaded view (the figure's history) starts with the saved row. */
  lemma SuccessShowsNewRowFirst(nClicks: Option<int>, xAxis: Option<string>, yAxis: Option<string>, form: Form,
                                latest: Option<seq<Row>>, raw: Frame, s: LogState, env: Env)
    requires ValidLog(s) && WellFormed(raw)
    requires !Falsy(form.island) && forall k :: 0 <= k < |NUMERICAL_FEATURES| ==> !Blank(NumericInput(form, k))
    requires Observation(form, env).Ok? && env.predict(Observation(form, env).value).Ok?
    requires CleanData(raw).Ok?
    ensures var rep := Respond(ClassifyButton, nClicks, xAxis, yAxis, form, latest, Present(raw), s, env);
      && rep.result.Ok? && rep.result.value.figure.Some?
      && |rep.result.value.figure.value.history.rows| >= 1
      && SavedAs(rep.result.value.figure.value.history.rows[0], SavedRecord(form, env).rows[0])
  {
    var record := SavedRecord(form, env);
    SavedRecordHoldsValue(form, env);
    SaveThenLoadNewestFirst(raw, s, record);
    ClassifySuccess(nClicks, xAxis, yAxis, form, latest, Present(raw), s, env);
  }

  lemma SavedRecordHoldsValue(form: Form, env: Env)
    requires Observation(form, env).Ok? && env.predict(Observation(form, env).value).Ok?
    ensures WellFormed(SavedRecord(form, env)) && Savable(SavedRecord(form, env)) && |SavedRecord(form, env).rows| == 1
    ensures HoldsValue(SavedRecord(form, env).rows[0])
  {
    var obs := Observation(form, env).value;
    var sp := env.predict(obs).value.species;
    RecordIsSavable(obs, sp);
    SpeciesCellHoldsValue(SavedRecord(form, env).rows[0], sp);
  }

  lemma SpeciesCellHoldsValue(row: Row, sp: Species)
    requires "species" in row && row["species"] == Text(SpeciesName(sp))
    ensures HoldsValue(row)
  {
    assert "species" in CSV_HEADER && ReadBack(row["species"]) != NA;
  }

  /**
   * The saved record is the form as entered (island and sex as given, the four
   * numbers as converted) with the predicted species.
   */
  lemma SavedRecordIsEntry(form: Form, env: Env)
    requires Observation(form, env).Ok? && env.predict(Observation(form, env).value).Ok?
    ensures var sp := env.predict(Observation(form, env).value).value.species;
      SavedRecord(form, env).rows ==
        [ObservationRow(ToCell(form.island), ToFloat(form.billLength, env).value, ToFloat(form.billDepth, env).value,
                        ToFloat(form.flipperLength, env).value, ToFloat(form.bodyMass, env).value,
                        ToCell(form.sex))["species" := Text(SpeciesName(sp))]]
  {
    var obs := Observation(form, env).value;
    var sp := env.predict(obs).value.species;
    var rec := SavedRecord(form, env);
    assert rec == SetColumn(obs, "species", Text(SpeciesName(sp)));
    assert rec.rows[0] == obs.rows[0]["species" := Text(SpeciesName(sp))];
  }

  /** Saving that record appends exactly its line to the log. */
  lemma SavedRecordLine(form: Form, env: Env, s: LogState)
    requires Observation(form, env).Ok? && env.predict(Observation(form, env).value).Ok?
    ensures SavePrediction(s, SavedRecord(form, env)).Ok?
    ensures SavePrediction(s, SavedRecord(form, env)).value.lines ==
      (if s.fileExists then s.lines else [Header(CSV_HEADER)]) + [RecordOf(SavedRecord(form, env).rows[0])]
  {
    RecordIsSavable(Observation(form, env).value, env.predict(Observation(form, env).value).value.species);
    SaveOneRow(s, SavedRecord(form, env));
  }

  // ------------------------------------------------------------- fallthrough

  /** A call with no trigger after the button was clicked changes nothing. */
  lemma FallthroughNoUpdate(n: int, xAxis: Option<string>, yAxis: Option<string>, form: Form,
                            latest: Option<seq<Row>>, seed: CsvFile, s: LogState, env: Env)
    requires ValidLog(s) && ReadableFile(seed)
    ensures Respond(NoTrigger, Some(n), xAxis, yAxis, form, latest, seed, s, env)
            == Reply(Ok(Outputs(None, None, None, None, None, None)), s, [])
  {
  }
}
