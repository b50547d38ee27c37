# penguin_classifier: the dispatcher and the history store, in Dafny

penguin_classifier is a Dash app. It classifies a penguin from six form inputs, appends each prediction to a CSV log, and shows the seed dataset together with that log as a scatter plot and a table. This project models the two parts that hold its logic:

- **`classify_penguin`** (`src/penguin_classifier/ui/callbacks.py`), the app's only callback. Which input fired (`ctx.triggered_id`), and whether the button was ever clicked, selects one of five branches:
  - initial render;
  - axis change;
  - classify with a validation failure;
  - classify with success or an exception;
  - fallthrough.

  Each branch returns six output slots, any of which may be `no_update`.
- **The history store** (`src/penguin_classifier/dataset.py`): `load_data`, `clean_data`, `split_feature_from_target`, the append-only `save_prediction`, and `load_combined_data`, which is the cleaned seed followed by the log, newest row first.

Modules:
- `Wrappers` (`wrappers.dfy`): Option and Result.
- `Errors` (`wrappers.dfy`): the Python exceptions the core raises, as a datatype. `Describe` gives the text `str(e)` shows, with the abstractions listed under "## Left out".
- `Config` (`config.dfy`): the constants of `config.py`.
- `Frames` (`frames.dfy`): the part of a pandas DataFrame the core relies on.
  - A row is a map from column name to a cell: NA, a string or a number.
  - `WellFormed` is the DataFrame invariant: distinct column labels, and every row keyed by exactly the columns.
  - Also here: `drop`, the row filter of `dropna`, `concat`, `iloc[::-1]` and `df[c] = v`.
- `Dataset` (`dataset.dfy`): the dataset functions as pure functions.
  - The log file is a class, `PredictionLog`, whose `Save` method appends in place.
  - `SavePrediction` is its specification on values. The lemmas about it cover any number of appends, and the CSV round trip back into the combined view.
- `Callbacks` (`callbacks.dfy`): the callback in two forms.
  - `Respond` is the callback as a reference function on values.
  - `ClassifyPenguin` is a method over the `PredictionLog` object, with the validation written as the source's loop. It is proved to return what `Respond` returns and to leave the log in the state `Respond` gives.
- `CallbackProperties` (`callback_properties.dfy`): what each branch promises, stated on `Respond`.

### Modelling choices

- **Parameters instead of foreign code.** The classifier, `float()` on a string, the text of `round(proba * 100, 2)` and `pd.DataFrame(records)` are parameters of the callback (the `Env` record). The classifier returns one of Adelie, Chinstrap or Gentoo, with a confidence in [0, 1], or raises.
- **Opaque outputs.** Plots and tables are values that record what they were built from.
- **Visible calls.** The calls to `load_combined_data`, predict and `save_prediction` are returned as a list, so their order and number can be stated.
- **Files as values.**
  - The seed file is absent, or present with the frame it reads as.
  - The log file is a `LogState`: whether it exists, and its lines (a header, or records in `CSV_HEADER` order).
  - Reading a cell back from the CSV turns an empty string into NA, as pandas does. Every other cell reads back as written.
- **Code over tests.** The code and its tests disagree in two places, and the model follows the code:
  - `tests/test_frontend.py:45` expects "Please enter island."; the code says "Please select an island.".
  - `tests/test_frontend.py:55-64` expects out-of-range values to be rejected. The code checks only presence, and the `FEATURE_CONSTRAINTS` it imports is never used.

  `NumbersAreNeverRejected` states the behaviour as written.

## Model

| member | source | states |
|---|---|---|
| Config.ConstraintsCoverNumericFeatures | src/penguin_classifier/config.py:38-58 | FEATURE_CONSTRAINTS has a range for exactly the four NUMERICAL_FEATURES, and each default lies within its min and max |
| Errors.Describe | src/penguin_classifier/ui/callbacks.py:182-191 | the text after "System Error: ": "No data found at <path>" for a missing file (dataset.py:56), the missing names as a Python list for a KeyError, and the raised message for the others |
| Frames.MissingFrom | src/penguin_classifier/dataset.py:101 | the columns a selection lacks: exactly the wanted names not present, without repeats when the wanted names are distinct |
| Frames.MissingFromAppend | src/penguin_classifier/dataset.py:101 | the missing names of a ++ b are those of a followed by those of b, so they come in the order they were wanted, the order a KeyError lists them |
| Frames.MissingFromOne | src/penguin_classifier/dataset.py:101 | a single wanted name is missing exactly when it is not present |
| Frames.Without | src/penguin_classifier/dataset.py:70-72 | the column list after a drop: exactly the other names, distinctness kept, and the list unchanged when the name is absent |
| Frames.WithoutAppend | src/penguin_classifier/dataset.py:70-72 | dropping a name commutes with concatenating column lists, so the remaining names keep their order |
| Frames.WithoutOne | src/penguin_classifier/dataset.py:70-72 | a single name is dropped exactly when it is the dropped name |
| Frames.DropColumn | src/penguin_classifier/dataset.py:70-72 | `drop(columns=[c])`: KeyError [c] iff c is absent; otherwise a well-formed frame without c, with row i equal to the input's row i minus c |
| Frames.KeepComplete | src/penguin_classifier/dataset.py:69 | the filter of `dropna(subset=...)`: every kept row is an input row complete on the subset, and every complete input row is kept |
| Frames.KeepCompleteAppend | src/penguin_classifier/dataset.py:69 | the row filter commutes with concatenation, so the surviving rows keep their relative order |
| Frames.Reversed | src/penguin_classifier/dataset.py:121 | `iloc[::-1]`: position i holds element n-1-i |
| Frames.ReversedAppend | src/penguin_classifier/dataset.py:125-128 | reversing a concatenation puts the reversed second part first |
| Frames.ReverseRows | src/penguin_classifier/dataset.py:121 | `iloc[::-1]` on a frame: same columns and row count, row i is row n-1-i, well-formedness kept |
| Frames.Extend | src/penguin_classifier/dataset.py:125-127 | a row widened to the union of columns keeps its cells and has NA in the columns it lacked |
| Frames.Concat | src/penguin_classifier/dataset.py:125-127 | `pd.concat` by rows: the first frame's columns, then the second's new ones; rows of both, widened; well-formed inputs give a well-formed result |
| Frames.ConcatNoNewColumns | src/penguin_classifier/dataset.py:125-127 | when the second frame brings no new column, the first frame's columns and rows come through unchanged |
| Frames.SetColumn | src/penguin_classifier/ui/callbacks.py:158 | `df[c] = v`: c is appended when absent, every row gets v in c, and well-formedness is kept |
| Dataset.LoadData | src/penguin_classifier/dataset.py:52-56 | FileNotFoundError iff the file is absent, with the message "No data found at <path>"; otherwise the file's frame |
| Dataset.CleanData | src/penguin_classifier/dataset.py:69-72 | succeeds iff the numeric features, species and year are columns, with the exact KeyError otherwise; the result is well-formed, has no year column, keeps every other column, and holds only complete rows |
| Dataset.CleanDataKeepsExactlyCompleteRows | src/penguin_classifier/dataset.py:69-72 | each input row complete on the numeric features and species reappears without its year, and every output row is such a row; rows missing only island, sex or year survive |
| Dataset.CleanDataAppend | src/penguin_classifier/dataset.py:69-72 | cleaning rows a ++ b gives clean(a) ++ clean(b), so order is kept |
| Dataset.CleanDataOneRow | src/penguin_classifier/dataset.py:69-72 | a one-row frame keeps its row, without the year, exactly when the row is complete |
| Dataset.CleanDataOnSample | tests/test_backend.py:17-54 | on the four-row fixture, cleaning succeeds, leaves two rows and no year column |
| Dataset.SplitFeatureFromTarget | src/penguin_classifier/dataset.py:85-88 | KeyError iff species is absent; otherwise features without species, same row count as the target, and putting each target back into its feature row gives the input row |
| Dataset.RecordOf | src/penguin_classifier/dataset.py:101-103 | a row is written as one record of exactly the CSV_HEADER width |
| Dataset.SavePrediction | src/penguin_classifier/dataset.py:98-104 | KeyError listing the absent CSV_HEADER columns iff any is absent, and then nothing is written; otherwise the file exists, earlier lines are kept as a prefix, the header is written only when the file was absent, and the last lines are the rows in CSV_HEADER order |
| Dataset.SavePredictionAppends | src/penguin_classifier/dataset.py:98-104 | after a save the lines are the earlier lines (the header alone for a new file) followed by one record per row, in row order |
| Dataset.SaveOneRow | src/penguin_classifier/dataset.py:98-104 | a one-row frame with the CSV_HEADER columns is saved as exactly its one record |
| Dataset.SaveAll | src/penguin_classifier/dataset.py:98-104 | saves in turn; a failure is a KeyError, and only when some frame lacks a CSV_HEADER column |
| Dataset.SaveAllWritesRecords | src/penguin_classifier/dataset.py:98-104 | saves of frames with the CSV_HEADER columns never fail, and leave the earlier lines (or the header, for a new file) followed by every frame's records, frame by frame and row by row |
| Dataset.SaveAllAppendsOnly | src/penguin_classifier/dataset.py:98-104 | any number of saves of frames with the CSV_HEADER columns never fail, keep every earlier line, add one line per row (plus the header for a new file), and leave exactly one header |
| Dataset.FreshLogAfterSaves | src/penguin_classifier/dataset.py:98-104 | k one-row saves to an absent file give one header followed by exactly the k records, in save order |
| Dataset.ValidLogHasOneHeader | src/penguin_classifier/dataset.py:102-104 | a log written only by save_prediction holds exactly one header, its first line |
| Dataset.ReadLog | src/penguin_classifier/dataset.py:123 | reading the log: present iff the file exists, then a well-formed frame with the CSV_HEADER columns and one row per record line |
| Dataset.ReadBack | src/penguin_classifier/dataset.py:123 | the CSV round trip of a cell: missing iff the written cell is missing or the empty string; any other cell comes back unchanged |
| Dataset.RowOfRecord | src/penguin_classifier/dataset.py:101-103 | a record read back under the header gives each CSV_HEADER cell as the CSV round trip leaves it |
| Dataset.ReadLogAfterSave | src/penguin_classifier/dataset.py:98-104 | after a save, the log reads as the rows it held before (none for a new file) followed by the saved rows |
| Dataset.OneSaveReadsBack | src/penguin_classifier/dataset.py:98-104 | after a one-row save with a value, the log reads as before plus that row, and holds a non-missing value |
| Dataset.MissingSeedFails | src/penguin_classifier/dataset.py:117 | an absent seed file gives FileNotFoundError for RAW_DATA_PATH, whatever the log |
| Dataset.LoadCombinedData | src/penguin_classifier/dataset.py:107-130 | an absent seed gives FileNotFoundError for RAW_DATA_PATH; with readable files the view is a well-formed frame |
| Dataset.LoadCombinedDataFromSeed | src/penguin_classifier/dataset.py:117-128 | with the seed present, the view fails iff cleaning fails, with the same error; otherwise it starts with the cleaned columns and has at least the cleaned rows |
| Dataset.SeedOnlyView | src/penguin_classifier/dataset.py:117-130 | with no log file, or a log with no non-missing value, the view is the cleaned seed reversed |
| Dataset.ViewWithLog | src/penguin_classifier/dataset.py:117-128 | with a log holding a value, the view is reverse(concat(clean(seed), log)) |
| Dataset.CombinedViewOrder | src/penguin_classifier/dataset.py:117-128 | with a log holding a value, the view lists the log rows newest first, then the seed rows newest first, all under the combined columns |
| Dataset.ReversedConcat | src/penguin_classifier/dataset.py:125-128 | reversing a concat lists the second frame's rows reversed, then the first frame's rows reversed |
| Dataset.SaveThenLoadNewestFirst | src/penguin_classifier/dataset.py:98-130 | after saving a one-row frame, the combined view starts with that row, each CSV_HEADER cell as the CSV round trip leaves it |
| Dataset.SaveKeepsEarlierView | src/penguin_classifier/dataset.py:98-130 | when the column layout cannot change (the log already held a value, or it held no row and the seed has every CSV_HEADER column), the view after a save is the new row followed by exactly the view before it: existing rows are never rewritten |
| Dataset.PredictionLog.Save | src/penguin_classifier/dataset.py:98-104 | the in-place append keeps the file well formed and ends in the state SavePrediction gives; on a KeyError it changes nothing |
| Callbacks.FirstBlankIndex | src/penguin_classifier/ui/callbacks.py:126-130 | the position of the first value that is None or "", or the length when there is none; none before it is blank |
| Callbacks.FirstBlank | src/penguin_classifier/ui/callbacks.py:126-130 | the validation loop with early return stops at FirstBlankIndex |
| Callbacks.Observation | src/penguin_classifier/ui/callbacks.py:134-143 | fails iff one of the four `float()` calls raises, with the error of the first that does in bill length, bill depth, flipper length, body mass order; otherwise a well-formed one-row frame with the six form columns whose row holds the island and sex as entered and the four converted numbers |
| Callbacks.WithSpecies | src/penguin_classifier/ui/callbacks.py:158 | the species column is appended when absent; every row gains the predicted label and keeps all its other cells |
| Callbacks.RecordIsSavable | src/penguin_classifier/ui/callbacks.py:158-159 | the observation with the species column has every CSV_HEADER column and one row, so save_prediction cannot raise; its species cell is the predicted label |
| Callbacks.SuccessMessage | src/penguin_classifier/ui/callbacks.py:149-153 | the message is exactly "Species: <label> --- Confidence: ", the percentage text and "%", followed by " - (Note: No sex provided)" when sex is falsy and by nothing otherwise |
| Callbacks.InitialTable | src/penguin_classifier/ui/callbacks.py:80-86 | the table of the first render: a loaded view gives its table, a FileNotFoundError gives "No historical data available yet.", any other error propagates |
| Callbacks.InitialRender | src/penguin_classifier/ui/callbacks.py:66-89 | the log is unchanged and only loads are made: two when the first succeeds, one when it raises |
| Callbacks.AxisChange | src/penguin_classifier/ui/callbacks.py:91-109 | the log is unchanged, exactly one load is made, and a successful reply sets the figure slot and no other |
| Callbacks.Classify | src/penguin_classifier/ui/callbacks.py:111-191 | no call is made exactly when the island is falsy, a field is blank or a `float()` raises; otherwise the calls are predict alone, or predict, save, reload; the log changes only with the latter, stays valid and keeps every line |
| Callbacks.PredictAndSaveReply | src/penguin_classifier/ui/callbacks.py:145-191 | a raising classifier: one predict call and the log unchanged; otherwise predict, save, reload, and the log gains exactly the record of the observation with its species (after the header, for a new file) |
| Callbacks.ShowSaved | src/penguin_classifier/ui/callbacks.py:161-191 | the log as saved, the calls predict, save, reload; "success" exactly when the reload succeeds, with the store holding the saved record, "danger" otherwise |
| Callbacks.Respond | src/penguin_classifier/ui/callbacks.py:42-193 | only the classify trigger predicts or saves or changes the log, and a change comes with predict, save, reload in that order; the log stays valid and keeps every line it had |
| Callbacks.ClassifyPenguin | src/penguin_classifier/ui/callbacks.py:42-193 | the callback over the log object returns what Respond returns, makes the same calls, and ends with the log file Respond gives |
| Callbacks.RenderInitial | src/penguin_classifier/ui/callbacks.py:66-89 | the initial-render branch over the log object agrees with InitialRender |
| Callbacks.RedrawForAxes | src/penguin_classifier/ui/callbacks.py:91-109 | the axis branch over the log object agrees with AxisChange |
| Callbacks.ClassifyAndSave | src/penguin_classifier/ui/callbacks.py:111-191 | the classify branch, including the loop and the in-place save, agrees with Classify and keeps the log valid |
| Callbacks.PredictAndSave | src/penguin_classifier/ui/callbacks.py:145-191 | predict, add the species column in place, save, then reload; agrees with PredictAndSaveReply |
| Callbacks.ReloadAndShow | src/penguin_classifier/ui/callbacks.py:161-191 | the reload after the save agrees with ShowSaved |
| CallbackProperties.InitialRenderShowsView | src/penguin_classifier/ui/callbacks.py:62-89 | first call: "Please enter values and press Classify", open, "info"; figure and table of the combined view; axes default to flipper_length_mm and bill_length_mm; store no_update; log unchanged; a failing load propagates |
| CallbackProperties.AxisChangeOnlyRedraws | src/penguin_classifier/ui/callbacks.py:92-109 | an axis trigger sets only the figure, overlays the cached prediction only when the store is non-empty, makes one load and no predict or save, and leaves the log unchanged |
| CallbackProperties.MissingIslandAlert | src/penguin_classifier/ui/callbacks.py:112-117 | a falsy island gives exactly "Please select an island." in "danger", whatever the numeric fields; no other slot, no call, log unchanged |
| CallbackProperties.NumericInputsInFeatureOrder | src/penguin_classifier/ui/callbacks.py:120-125 | the fields are validated in NUMERICAL_FEATURES order |
| CallbackProperties.MissingValueAlert | src/penguin_classifier/ui/callbacks.py:119-130 | the first blank numeric field, in feature order, is named in "Please enter a valid value for '<name>'." in "danger"; nothing else changes |
| CallbackProperties.NumbersAreNeverRejected | src/penguin_classifier/ui/callbacks.py:119-148 | with an island given, any numbers in the four fields reach the classifier, whether or not they lie in FEATURE_CONSTRAINTS |
| CallbackProperties.ConversionErrorAlert | src/penguin_classifier/ui/callbacks.py:132-143 | a `float()` that raises gives "System Error: <message>" in "danger" before any call; nothing else changes |
| CallbackProperties.UnparsableTextFails | src/penguin_classifier/ui/callbacks.py:137-140 | text the float parser rejects, in any of the four numeric fields after fields that convert, fails the observation with the parser's own error |
| CallbackProperties.ValidInputsReachPredict | src/penguin_classifier/ui/callbacks.py:112-148 | inputs that pass validation and convert go on to predict with their observation frame |
| CallbackProperties.PredictErrorAlert | src/penguin_classifier/ui/callbacks.py:145-191 | a classifier that raises gives "System Error: <message>" in "danger" after the one predict call; nothing is saved |
| CallbackProperties.ClassifySuccess | src/penguin_classifier/ui/callbacks.py:145-180 | success: predict, then one save of the observation labelled with the predicted species, then one reload; figure and table both from the reloaded view; "success"; the prediction's message; the store is that single record, whose species is the label |
| CallbackProperties.ReloadErrorAfterSave | src/penguin_classifier/ui/callbacks.py:159-191 | a reload that raises after the save gives "System Error" in "danger", and the record stays written |
| CallbackProperties.SuccessShowsNewRowFirst | src/penguin_classifier/ui/callbacks.py:159-171 | after a successful classification, the figure's history starts with the saved record |
| CallbackProperties.SavedRecordHoldsValue | src/penguin_classifier/ui/callbacks.py:158-159 | the saved record is well formed, has the CSV_HEADER columns, a single row, and a cell that reads back as a value |
| CallbackProperties.SavedRecordIsEntry | src/penguin_classifier/ui/callbacks.py:134-158 | the saved record is the form as entered (island and sex as given, the four numbers as converted) with the predicted species |
| CallbackProperties.SavedRecordLine | src/penguin_classifier/ui/callbacks.py:158-159 | saving that record appends exactly its one record line to the log |
| CallbackProperties.FallthroughNoUpdate | src/penguin_classifier/ui/callbacks.py:193 | no trigger after the button was clicked gives six no_update slots, no call, log unchanged |

## Left out

- Layout (`src/penguin_classifier/ui/layout.py`), training (`modeling/train.py`, `features.py`) and app start-up (`app.py`): these are Dash, Bootstrap and sklearn construction, or server start-up and a timer. `penguin_classifier/dataset.py` is not part of this model.
- `fetch_and_save_raw_data` (`src/penguin_classifier/dataset.py:18-36`): it downloads the dataset over the network and writes a file.
- `predict_single_penguin_proba`: an oracle parameter. It returns a species from the three and a confidence in [0, 1], or raises.
- `create_scatter_plot` and `dbc.Table.from_dataframe`: opaque values that record the history, the axes and the overlay. Their own exceptions are not modelled.
- `pd.DataFrame(latest_prediction)` at callbacks.py:97: an oracle parameter. None stands for the exception the source catches and logs.
- The text of `round(proba * 100, 2)`: a parameter, as it is float formatting. The message is stated up to that text.
- `float()` on a string: an oracle parameter from text to a number or a ValueError. Python's exact float grammar is not modelled.
- The module-level `prediction_history` at callbacks.py:19: it is never read.
- Logging through loguru, and `logger.success` in `split_feature_from_target`: these have no effect on results.
- `ctx.triggered_id` values other than the three component ids: these are all `NoTrigger`.
- The file system:
  - Reading and writing files is modelled as values: `CsvFile` for the seed, `LogState` and `PredictionLog` for the log.
  - Concurrent writers are not modelled.
  - Other I/O errors (permissions, a full disk) are not modelled.
- Float column types: a cell is NA, a string or an exact real. pandas' dtype inference and float text are not modelled.
- Dataset.ReadBack: only an empty string reads back as missing. pandas also reads its other default missing-value strings ("NA", "nan", and so on) as NaN; this is left out because the island and sex dropdowns never supply those strings.
- Dataset.SaveThenLoadNewestFirst: requires the saved row to hold a non-missing cell (`HoldsValue`), because a log of empty records is dropped at `dataset.py:124`. Every record the callback saves has its species, so the callback path always meets this requirement.
- Dataset.SaveKeepsEarlierView: requires the column layout to stay the same: either the log already held a value, or the log held no row (absent, or the header alone) and the seed has every CSV_HEADER column. Otherwise the first saved row can add columns, which widens every older row with NA; and a log of records with no value is hidden from the view until a save brings a value, when those records appear too.
- CallbackProperties.InitialRenderShowsView: the `except FileNotFoundError` placeholder at callbacks.py:85-86 cannot be produced. The second load reads the same files as the first, so once the first load succeeded it succeeds too. `Callbacks.InitialTable` still models the handler.
- Errors.Describe: a KeyError's text is only the Python list of the missing names. pandas wraps that list in further words, which differ between `dropna`, `drop` and `df[cols]`, and `df["species"]` shows the single quoted name without brackets; those texts are not modelled.
- Config.RAW_DATA_PATH and Config.PROCESSED_DATA_PATH are relative to the project root. The source makes them absolute from PROJ_ROOT (config.py:10-15), so the path in "No data found at <path>" is the relative one here.
- A range check against FEATURE_CONSTRAINTS: the code has none, so the optional variant that the tests expect is not modelled.
