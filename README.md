# Well-model builder for a petroleum simulator — verified Dafny model

The toolkit reads a "technological regime" report (one spreadsheet row per
well), builds a simulator model for each well through the simulator's
scripting interface (well, tubing, casing, deviation trajectory, black-oil
fluid, completion and, for wells on an electrical submersible pump, the pump
chosen from a catalog), and runs pressure/temperature profiles on a saved
model. This project models the logic of that toolkit and proves its
properties:

- `tr_parser.dfy` (module `TrParser`): the report parser. After 10 header rows
  every row becomes a 33-field well record, each field read unchanged from a
  fixed column. Nothing is filtered or converted.
- `esp_catalog.dfy` (module `EspCatalog`): pump selection. The search takes
  the first catalog entry whose nominal rate equals the well's. The head at
  that rate on the entry's curve sets the stage count,
  `floor(head_nom / head_per_stage) + 1`.
- `engine.dfy` (module `Engine`): the simulator session. It is opaque and
  records every call (kind, name, context, parameters) in a log. The PT solver
  is a function the session is created with; its answer depends on the
  session's call history (which model was opened and what was done to it),
  the producer and the parameters.
- `pipesim_model.dfy` (module `PipesimModel`): model creation. It is a fixed
  order of engine calls. The file also defines the parameter values derived
  from a well record and the pump branch.
- `pt_profile.dfy` (module `PtProfile`): a profile run. It chooses default
  parameters, opens the model, runs the solver and turns each result group
  into tables keyed by simulation case.
- `wrappers.dfy` (module `Wrappers`): Option/Result/Outcome, which stand in
  for the exceptions the code raises.

Points where the code behaves in ways a reader might not expect, and which
the model follows:

- Blank rows still yield records whose values are all blank, and cells are
  neither validated nor converted (tr_parser.py:18-54).
- The curve lookup searches the rate points for `int(rate_nom_sm3day)`, the
  matched entry's own nominal rate truncated toward zero. Besides the
  not-found error, the search can fail with ValueError (the rate is not on
  the curve), IndexError (the head list is shorter) or ZeroDivisionError (the
  per-stage head is 0) (pipesim_model.py:44-46).
- A failed pump search leaves the reopened model unsaved and open
  (pipesim_model.py:205-223).
- `calc_pt_profile` never closes the model it opens (pipesim_model.py:77-96).

## Model

| member | source | states |
|---|---|---|
| `TrParser.ParseTr` | tr_parser.py:13-56 | one record per data row after the 10 header rows, in row order, with no row dropped; fails exactly when a data row lacks a column that is read, and reports the first such row |
| `TrParser.DataRows` | tr_parser.py:13-16 | the data rows are the sheet rows after the first 10, in order; a sheet of 10 or fewer rows has none |
| `TrParser.RowToRecord` | tr_parser.py:19-53 | the record of a row: every key's value is the cell at that key's fixed zero-based column, unchanged, and every such column lies within the row |
| `TrParser.ColumnRoundTrip` | tr_parser.py:19-53 | the key-to-column table is invertible: the key read from a key's column is that key |
| `TrParser.ColumnsDistinct` | tr_parser.py:19-53 | no two keys read the same column |
| `TrParser.KeyNameRoundTrip` | tr_parser.py:19-53 | the dictionary key names can be read back to their keys |
| `TrParser.KeyNamesDistinct` | tr_parser.py:19-53 | the 33 dictionary key names are pairwise distinct |
| `TrParser.ColumnsBelowWidth` | tr_parser.py:50 | every column read is below 174, and the highest (regime) is 173, so a narrower row cannot be mapped |
| `TrParser.UnreadColumnIgnored` | tr_parser.py:19-53 | overwriting a column that no key reads leaves the record unchanged |
| `TrParser.ReadColumnCaptured` | tr_parser.py:19-53 | overwriting a key's column changes that key's value to the new cell and no other key's value |
| `TrParser.BlankRowGivesBlankRecord` | tr_parser.py:18-54 | a blank row is not dropped: it gives a record whose every value is blank |
| `EspCatalog.GetEspModelStages` | pipesim_model.py:27-51 | the search loop agrees with SelectPump; it fails with NotFound exactly when no entry has the requested rate, and a success names a catalog key whose rate matches |
| `EspCatalog.FirstMatch` | pipesim_model.py:41-43 | the position found holds the requested nominal rate and no earlier entry does; nothing is found exactly when no entry matches |
| `EspCatalog.IndexOf` | pipesim_model.py:44 | list.index: the first position holding the value; nothing is found exactly when the value is absent |
| `EspCatalog.TruncateToInt` | pipesim_model.py:44 | int() truncates toward zero: the result lies within 1 of the input on the input's side of zero |
| `EspCatalog.FloorDiv` | pipesim_model.py:46 | `a // b` is the integer q with q*b <= a < (q+1)*b for positive b, and the mirror bounds for negative b |
| `EspCatalog.EntryStages` | pipesim_model.py:44-46 | for the matched entry: the error is never NotFound; it is the rate-off-curve error (ValueError) exactly when the truncated nominal rate is not among the rate points, the head-index error (IndexError) exactly when that rate's first position is past the head list, and the zero-head error (ZeroDivisionError) exactly when the head there is 0; a success carries the entry's key and the stage count head_nom // head + 1 for that non-zero head |
| `EspCatalog.SelectPump` | pipesim_model.py:41-49 | a selected pump is the key of a catalog entry whose nominal rate equals the requested one; any error other than NotFound comes from an entry with that rate |
| `EspCatalog.NotFoundIff` | pipesim_model.py:48-49 | selection fails with NotFound exactly when no entry's nominal rate equals the requested one |
| `EspCatalog.FirstMatchDecides` | pipesim_model.py:41-47 | the first matching entry alone decides the result, whether a pump or an error |
| `EspCatalog.LaterEntriesIgnored` | pipesim_model.py:41-47 | once a catalog has a match, appending entries changes nothing: later matches are ignored |
| `EspCatalog.HeadFromFirstRatePoint` | pipesim_model.py:44-46 | the per-stage head is the head point at the first position of the truncated nominal rate on the rate curve, and stages = head_nom // head + 1 |
| `EspCatalog.RateOffCurveFails` | pipesim_model.py:44 | if the first matching entry's truncated rate is not on its curve, selection fails and no later entry is tried |
| `EspCatalog.StagesCoverHead` | pipesim_model.py:46 | with per-stage head h > 0 the stage count n satisfies (n-1)*h <= head_nom < n*h, and n >= 1 when head_nom >= 0 |
| `EspCatalog.WorkedExample` | pipesim_model.py:41-47 | rate 50 with curve [10,30,50]/[5,8,12] and head 30 selects the entry with 3 stages |
| `PipesimModel.DefineModel` | pipesim_model.py:9-24 | model creation is new (metric, overwrite), save, close, then open again in metric units |
| `PipesimModel.MakePipesimModel` | pipesim_model.py:99-224 | the calls made are exactly BuildCalls, and the outcome is a pass, or the pump-search error for an ESP well |
| `PipesimModel.AddComponents` | pipesim_model.py:113-203 | the well, tubing, casing, trajectory, fluid and completion are added in that order, and nothing else is done |
| `PipesimModel.BuildCalls` | pipesim_model.py:111-223 | every build starts with model creation and the six component calls, whatever the pump search gives; the build ends by closing the model exactly when its outcome is a pass |
| `PipesimModel.BuildOutcome` | pipesim_model.py:205-212 | a well not on an ESP always passes; an ESP well whose pump search fails fails with that search's error, unchanged, and every failure is such a pump-search error |
| `PipesimModel.CallOrder` | pipesim_model.py:111-223 | call order: new, save, close, open, well, tubing, casing, trajectory, fluid, completion; then pump add and stage-count set only when a pump is selected; then save and close unless the search failed |
| `PipesimModel.PumpCallsIff` | pipesim_model.py:205-220 | a pump-related call is made exactly when al_type is the ESP marker and a pump was selected |
| `PipesimModel.PumpCallsCarrySelection` | pipesim_model.py:205-220 | the pump sits at the tubing depth, runs at the record's frequency and has the selected key as its model; the next call sets the selected stage count |
| `PipesimModel.FailedSelectionLeavesModelOpen` | pipesim_model.py:205-223 | a failed pump search ends the build after the completion; the reopened model is never saved or closed |
| `PipesimModel.PipeGeometry` | pipesim_model.py:118-135 | tubing inner diameter plus two 5.5 walls is d_tub; casing inner diameter is d_cas with wall 8.5; both have roughness 0.001, start at depth 0 and have lengths h_tub and h_perf |
| `PipesimModel.TrajectoryShape` | pipesim_model.py:137-157 | three points; the depth lists have equal length and start at 0; MD is [0, h_tub, h_perf]; MD exceeds TVD by ext_h_tub and ext_h_perf |
| `PipesimModel.PressureConversion` | pipesim_model.py:160-203 | OFVF and saturated-gas pressures are pb*1.01325 and reservoir pressure is p_res*1.01325; the viscosity pressure is pb unconverted, so it differs from the others whenever pb is not 0 |
| `PipesimModel.ComponentsReferToWell` | pipesim_model.py:113-203 | tubing, casing, completion, pump and trajectory are attached to the well by its name; the completion names the fluid that was added |
| `PtProfile.ResolveParameters` | pipesim_model.py:68-75 | absent parameters give exactly the four defaults (outlet pressure p_wh, liquid rate q_liq, liquid-rate type, inlet pressure calculated); given parameters, even an empty map, are used verbatim |
| `PtProfile.ReshapeCases` | pipesim_model.py:86-94 | the reshaped map has exactly the engine's case keys, and each table comes from that case's result |
| `PtProfile.ProfileRunLeavesModelOpen` | pipesim_model.py:77-81 | a profile run opens the model and never saves or closes it |
| `PtProfile.CalcPtProfile` | pipesim_model.py:54-96 | the run opens the model and runs the task with the resolved parameters; system, nodal and profile tables come from the engine's groups, the nodal and profile maps keyed by its cases |

## Left out

- Reading files is not modelled. The report's sheet (a sequence of rows of
  cells) and the pump catalog (an ordered sequence of key and entry pairs) are
  inputs. Duplicate catalog keys, which a JSON load would collapse, are not
  modelled.
- main.py is not part of this model. It is orchestration: creating the output
  directory, printing, truncating the well list and composing model paths.
- The simulator's semantics are not modelled: components, unit handling, file
  effects and the PT solver. Every engine call succeeds and is only logged, so
  an engine failure in the middle of a build is not represented.
  `Model.new` and `Model.open` return separate handles in the code; the model
  has one session log.
- Table construction is not modelled. A `Frame` records only the engine table
  it comes from and its orientation (by index for system and node results, by
  columns for profiles). Row and column counts of real tables are not modelled.
- Floating point is modelled as `real`. Rounding of the 1.01325 products, the
  subtractions and the floor division is not modelled. The stage count is
  modelled as an integer; the code produces it as a float with an integral
  value.
- Dynamic typing is not modelled. The builder takes a typed `WellData` (text
  and real fields), while the parser yields untyped cells, and no function
  converts one into the other, because the code does not convert either. A
  blank or text cell in a numeric field would fail or propagate NaN in the
  code; that is not represented.
- Key order of the parameter dictionaries, of the record dictionary and of the
  `nodal_results` and `profile_results` dictionaries (which keep the engine's
  case order) is not modelled: maps and a record datatype are unordered.
- `TrParser.ParseTr`: rows may have different lengths, and a short data row
  fails. The table reader pads every row to the sheet's width, so in the code
  either every row is wide enough or the first one fails.
