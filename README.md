# DISCO core, modelled in Dafny

DISCO (Distribution Integration Solution Cost Options) runs hosting-capacity and
upgrade-cost analyses of distribution feeders. This project models four parts of
its core and proves properties of each model:

- **Snapshot time-point selection** (module `TimepointSelection`).
  - It resolves the requested selection mode against whether the circuit has PV systems.
  - It builds the evenly spaced time index of a load shape.
  - It aggregates the PV and load profiles, caching each shape's frame by name.
  - It derives the PV-to-load ratio and PV-minus-load columns.
  - It fills the table of six candidate time points: global or 08:00–17:00-window extrema, earliest on ties.
  - It returns the entry for the resolved criterion.
- **Pipeline templates and stages** (module `Pipelines`).
  - `PipelineTemplate` is a class over the template's sections. It scrubs `"null"` parameters in place, removes sections and parameter groups, and builds command-option strings.
  - `PipelineCreator` is a class with the stage counter. It builds the prescreen, simulation and postprocess stages and writes their auto-config scripts into a modelled file map.
- **Error codes** (module `Exceptions`): the table from DISCO exception classes to process error codes, the generic code, the rejection of foreign classes, and the convergence-code predicate.
- **Upgrade costs** (module `CostComputation`).
  - Transformer and line upgrades are priced from unit-cost databases: an exact match on the deciding properties, else the row closest on a backup property.
  - Fixed transformer costs come from the miscellaneous database.
  - Line lengths are converted to metres.
  - Capacitor-controller changes are priced from the controls database.
  - The thermal and voltage cost tables are concatenated.

Shared modules:
- `Wrappers`: the `Result` type.
- `Seqs`: first index and order-preserving filter.
- `Extrema`: first-occurrence argmax/argmin over a mask, which is how pandas `idxmax`/`idxmin` after `between_time` behave.
- `Text`: join, split, replace and substring search.

Modelling choices:
- **Inputs and errors.** Power-flow queries, files and the environment become inputs. The `KeyError`, `IndexError` and `ValueError` the core raises on missing keys, rows and data, and the failed `assert` on mode `NONE`, become `Err` values of the module's error type. Two failures the model does not reproduce are listed under "## Left out": the template's `preconfigured` key and the undefined load-shape settings object.
- **Time.** Time stamps are whole seconds from a midnight. The daily window is the inclusive range 08:00–17:00 of `t % 86400`.
- **Aligned profiles.** All shapes of a circuit are required to share one time index, because pandas NaN re-alignment is not modelled. The PV-to-load ratio is required to have a non-zero load wherever it is computed.
- **Mutable state.** The classes keep the source's mutable state as fields. Their methods are proved against the pure functions that define each result (`CommandParams`, `OptionsString`, `PrescreenStageOf`, …), and the properties are lemmas about those functions.

Note on time-point selection:
- **"Min Daytime Load" is always computed.** It is computed whether or not PV systems exist (timepoint_selection.py lines 125-126), so selection fails on an empty daytime window even when the requested criterion is "Max Load".
- **The model follows the code.** `NightOnlyProfileFails` exhibits a PV-free circuit sampled only at night where selection fails. `DayProfilePeaksAtTwo` shows the same circuit, given daytime samples, succeeding.

## Model

| member | source | states |
|---|---|---|
| TimepointSelection.ModeFromValue | disco/analysis/feeder_analysis/timepoint_selection.py:23-30 | an accepted string is the value of the returned mode; a rejected string is the value of no mode and the error names it |
| TimepointSelection.ModeValueRoundTrip | disco/analysis/feeder_analysis/timepoint_selection.py:23-30 | parsing the value of any mode gives back that mode |
| TimepointSelection.ResolveMode | disco/analysis/feeder_analysis/timepoint_selection.py:62-67 | without PV systems every mode, `NONE` included, becomes max-load; with PV systems the mode is unchanged |
| TimepointSelection.CriterionOf | disco/analysis/feeder_analysis/timepoint_selection.py:68-77 | only `NONE` fails (as unsupported), and the criterion needs PV data exactly for the ratio and PV-minus-load modes |
| TimepointSelection.CriterionLabels | disco/analysis/feeder_analysis/timepoint_selection.py:68-75 | the four modes select the rows "Max Load", "Max PV to Load Ratio", "Min Daytime Load" and "Max PV minus Load" |
| TimepointSelection.LabelsDistinct | disco/analysis/feeder_analysis/timepoint_selection.py:115-126 | two criteria have the same row label iff they are the same criterion, so the lookup by criterion is the lookup by label |
| TimepointSelection.Criteria | disco/analysis/feeder_analysis/timepoint_selection.py:115-126 | the table rows, in insertion order, never need PV data the circuit lacks |
| TimepointSelection.CriteriaMembership | disco/analysis/feeder_analysis/timepoint_selection.py:115-126 | a criterion is in the table iff PV systems exist or it needs no PV data: Max Load, Min Load and Min Daytime Load always, the three PV rows exactly with PV |
| TimepointSelection.ResolvedCriterionIsTabulated | disco/analysis/feeder_analysis/timepoint_selection.py:68-126 | the criterion chosen for the resolved mode is always one of the table's rows, so the final lookup never misses |
| TimepointSelection.TimeIndexEvenlySpaced | disco/analysis/feeder_analysis/timepoint_selection.py:51-56 | consecutive index entries differ by exactly the interval |
| TimepointSelection.TimeIndexStrictlyIncreasing | disco/analysis/feeder_analysis/timepoint_selection.py:51-56 | with a positive interval the index is strictly increasing |
| TimepointSelection.BuildIndex | disco/analysis/feeder_analysis/timepoint_selection.py:51-56 | the loop's list is the `npts` entries `start + i * interval` |
| TimepointSelection.CreateLoadshapePmultFrame | disco/analysis/feeder_analysis/timepoint_selection.py:34-58 | the frame is the shape's multipliers on the built index, one time stamp per multiplier |
| TimepointSelection.CircuitLengths | disco/analysis/feeder_analysis/timepoint_selection.py:82-109 | in a well-formed circuit every device's shape has exactly as many points as the common index |
| TimepointSelection.PlusZeros | disco/analysis/feeder_analysis/timepoint_selection.py:89-91 | adding a column to zeros (the NaN-to-0 start of the aggregate) leaves it unchanged |
| TimepointSelection.ColumnTotal | disco/analysis/feeder_analysis/timepoint_selection.py:89-109 | the aggregate column has one entry per time stamp |
| TimepointSelection.DeviceSumSnoc | disco/analysis/feeder_analysis/timepoint_selection.py:93 | one more device adds its rating times its multiplier at t |
| TimepointSelection.ColumnTotalIsDeviceSum | disco/analysis/feeder_analysis/timepoint_selection.py:89-109 | the aggregate column at t is the sum over devices of rating × multiplier at t |
| TimepointSelection.ProfilesOf | disco/analysis/feeder_analysis/timepoint_selection.py:80-113 | the profiles are well formed; the ratio and PV-minus-load columns exist iff PV systems exist and are then PV/Load and PV−Load pointwise |
| TimepointSelection.ProfilesAreDeviceSums | disco/analysis/feeder_analysis/timepoint_selection.py:82-113 | the PV and Load columns at t are the device sums of Pmpp and kW times the multipliers at t, starting from zero |
| TimepointSelection.ColumnTotalStep | disco/analysis/feeder_analysis/timepoint_selection.py:92-93 | adding device k to the running column adds its scaled shape |
| TimepointSelection.ColumnTotalFirst | disco/analysis/feeder_analysis/timepoint_selection.py:89-90 | the first device's column is its scaled shape |
| TimepointSelection.DeviceOnFrameIndex | disco/analysis/feeder_analysis/timepoint_selection.py:87-88 | a device's cached frame is built on the circuit's common index |
| TimepointSelection.AggregateProfiles | disco/analysis/feeder_analysis/timepoint_selection.py:80-113 | the two device loops with their shape caches produce exactly the profiles `ProfilesOf` defines, so reusing a cached shape gives the same sums as rebuilding it |
| TimepointSelection.RuleOf | disco/analysis/feeder_analysis/timepoint_selection.py:115-126 | a criterion reads a column other than Load exactly when it needs PV data |
| TimepointSelection.Series | disco/analysis/feeder_analysis/timepoint_selection.py:116-126 | the column a criterion ranks has one value per time stamp |
| TimepointSelection.Mask | disco/analysis/feeder_analysis/timepoint_selection.py:118-126 | a time stamp is eligible iff the criterion is global or its time of day is in 08:00–17:00 inclusive |
| TimepointSelection.BestPosition | disco/analysis/feeder_analysis/timepoint_selection.py:116-126 | it succeeds iff some time stamp is eligible, and then it is the earliest eligible optimum (`idxmax`/`idxmin`); an empty window is a no-data error |
| TimepointSelection.Tabulate | disco/analysis/feeder_analysis/timepoint_selection.py:115-126 | the table has one row per criterion in order, it succeeds iff every criterion has a best position, and an error names a failing criterion |
| TimepointSelection.TabulateUnfold | disco/analysis/feeder_analysis/timepoint_selection.py:115-126 | a complete table is the first criterion's row followed by the rest's table |
| TimepointSelection.TabulateRows | disco/analysis/feeder_analysis/timepoint_selection.py:115-126 | row i of the table holds the time stamp at criterion i's best position |
| TimepointSelection.Lookup | disco/analysis/feeder_analysis/timepoint_selection.py:129 | it succeeds iff the table has a row for the criterion, and returns that row's time |
| TimepointSelection.TabulateAllRows | disco/analysis/feeder_analysis/timepoint_selection.py:115-126 | when every criterion has data, the table is the criteria's rows in order |
| TimepointSelection.TabulateFirstError | disco/analysis/feeder_analysis/timepoint_selection.py:115-126 | when the rows before criterion i have data and criterion i has none, the table fails with criterion i's no-data error |
| TimepointSelection.FillTimepoints | disco/analysis/feeder_analysis/timepoint_selection.py:115-126 | the row-by-row fill of the table returns exactly `Tabulate`: the rows in order, or the error of the first criterion without data |
| TimepointSelection.LookupTabulated | disco/analysis/feeder_analysis/timepoint_selection.py:115-129 | looking up a tabulated criterion returns the time stored in its own row |
| TimepointSelection.SnapshotOf | disco/analysis/feeder_analysis/timepoint_selection.py:61-129 | the unsupported-mode error arises exactly when the resolved mode is `NONE` |
| TimepointSelection.CriteriaApplicable | disco/analysis/feeder_analysis/timepoint_selection.py:111-126 | every tabulated criterion finds its column in the circuit's profiles |
| TimepointSelection.SnapshotIsSelectedRow | disco/analysis/feeder_analysis/timepoint_selection.py:115-129 | a returned snapshot is the time stamp at the best position of the resolved criterion |
| TimepointSelection.FirstIndexOf | disco/analysis/feeder_analysis/timepoint_selection.py:129 | the first occurrence of a present element is found |
| TimepointSelection.TableCompleteIff | disco/analysis/feeder_analysis/timepoint_selection.py:115-126 | the table is complete iff the daytime window holds at least one time stamp |
| TimepointSelection.SnapshotOkIffTableOk | disco/analysis/feeder_analysis/timepoint_selection.py:115-129 | for a supported mode, selection succeeds iff the whole table could be filled |
| TimepointSelection.SnapshotFailsIff | disco/analysis/feeder_analysis/timepoint_selection.py:61-129 | selection fails iff the resolved mode is `NONE` or no time stamp lies in the daytime window |
| TimepointSelection.MaxLoadIsEarliestPeak | disco/analysis/feeder_analysis/timepoint_selection.py:116 | in max-load mode the snapshot has a load ≥ every load and is the earliest such time |
| TimepointSelection.WindowedModeIsEarliestInWindow | disco/analysis/feeder_analysis/timepoint_selection.py:118-126 | in the ratio, PV-minus-load and daytime-min-load modes the snapshot is in the window and is the earliest optimum among in-window time stamps |
| TimepointSelection.NoPvIgnoresMode | disco/analysis/feeder_analysis/timepoint_selection.py:62-67 | without PV systems every requested mode gives the max-load result |
| TimepointSelection.GetSnapshotTimepoint | disco/analysis/feeder_analysis/timepoint_selection.py:61-129 | the imperative selection (mode reassignment, the aggregation loops, the table filled row by row by `FillTimepoints`) returns `SnapshotOf` and, on success, the full table |
| TimepointSelection.NightProfiles | disco/analysis/feeder_analysis/timepoint_selection.py:99-109 | the night-only example circuit is well formed and its load profile is the scaled shape |
| TimepointSelection.NightOnlyProfileFails | disco/analysis/feeder_analysis/timepoint_selection.py:125-126 | a PV-free circuit sampled 00:00–03:00 fails with no daytime data, although its mode resolves to max-load |
| TimepointSelection.DayProfiles | disco/analysis/feeder_analysis/timepoint_selection.py:99-109 | the example circuit with daytime samples is well formed and its load profile is the scaled shape |
| TimepointSelection.DayProfilePeaksAtTwo | disco/analysis/feeder_analysis/timepoint_selection.py:116 | with daytime samples present the same circuit selects its 02:00 peak |
| Extrema.FirstBest | disco/analysis/feeder_analysis/timepoint_selection.py:116 | the position is eligible, no eligible value beats it, and every earlier eligible value is strictly worse |
| Extrema.FirstBestIsUnique | disco/analysis/feeder_analysis/timepoint_selection.py:116 | at most one position is the first best, so the choice is determined |
| Pipelines.ParamValue | disco/pipelines/base.py:252 | a key lookup fails iff the dictionary lacks the key, and otherwise returns the key's value |
| Pipelines.ScrubNulls | disco/pipelines/base.py:57-59 | keys and order are kept, no value is the string `"null"` afterwards, every other value is unchanged |
| Pipelines.ScrubNullsIdempotent | disco/pipelines/base.py:57-59 | scrubbing twice equals scrubbing once |
| Pipelines.CommandParams | disco/pipelines/base.py:46-60 | fails iff the section or the group is missing, with the matching error; otherwise it is the scrubbed group |
| Pipelines.DashParam | disco/pipelines/base.py:91 | `--` followed by the name with every `_` turned into `-` and every other character kept |
| Text.ReplaceRemovesTarget | disco/pipelines/base.py:91 | after `replace("_", "-")` no underscore is left and the length is unchanged |
| Pipelines.OptionToken | disco/pipelines/base.py:91-95 | `True` gives the bare flag, any other kept value gives `flag=value` |
| Pipelines.OptionTokens | disco/pipelines/base.py:87-95 | at most one token per entry, each starting with `--` |
| Pipelines.OptionTokensAreKeptTokens | disco/pipelines/base.py:87-95 | the tokens are those of the kept entries, in dictionary order; `"null"`, `False` and `None` emit nothing |
| Pipelines.OptionsStringEmptyIff | disco/pipelines/base.py:87-96 | the option string is empty iff every entry is skipped |
| Pipelines.JoinStartsWithFirst | disco/pipelines/base.py:96 | a space-joined string starts with its first part |
| Pipelines.OptionTokenSpaceFree | disco/pipelines/base.py:91-95 | a token built from space-free names and values has no space |
| Pipelines.OptionsStringSplits | disco/pipelines/base.py:96 | splitting the option string on spaces gives back exactly the tokens |
| Pipelines.ScrubbedOptionsUnchanged | disco/pipelines/base.py:57-59 | options built after scrubbing are those built before, since `"null"` and `None` are both skipped |
| Pipelines.ConstructOptionsString | disco/pipelines/base.py:85-97 | the loop's result is the space-joined tokens of the kept entries |
| Pipelines.CommandOptions | disco/pipelines/base.py:74-83 | fails exactly when the lookup fails, otherwise the option string of the group |
| Pipelines.PipelineTemplate.constructor | disco/pipelines/base.py:17-19 | the object holds the loaded template |
| Pipelines.PipelineTemplate.GetCommandParams | disco/pipelines/base.py:46-60 | returns `CommandParams`; on success the group is replaced in place by its scrubbed form, on error nothing changes |
| Pipelines.PipelineTemplate.RemoveSection | disco/pipelines/base.py:120-125 | the sections afterwards are the old ones minus that key, a no-op if absent |
| Pipelines.PipelineTemplate.RemoveParams | disco/pipelines/base.py:127-133 | removes the group only when the section and the group exist, and changes nothing else |
| Pipelines.RemovedSectionIsGone | disco/pipelines/base.py:120-125 | after removal the section is gone and every other section is present and unchanged exactly when it was before |
| Pipelines.TransformPrefix | disco/pipelines/base.py:193-195 | the transform command is omitted exactly when the models are preconfigured |
| Pipelines.SimulationScript | disco/pipelines/base.py:206-215 | with a prescreen section the script is the prescreen filter command |
| Pipelines.SimulationScriptSplits | disco/pipelines/base.py:206-215 | otherwise its lines are the transform command (unless preconfigured) then the simulation config command |
| Pipelines.PrescreenScriptSplits | disco/pipelines/base.py:190-199 | the prescreen script's lines are the transform command (unless preconfigured), the config command and the prescreen create command |
| Pipelines.PostprocessScript | disco/pipelines/base.py:222-231 | fails iff the postprocess config parameters are missing, else `jade config create <command file> <options>` |
| Pipelines.SubmitterParamsOf | disco/pipelines/base.py:243-244 | succeeds iff the submitter group exists and names an `hpc_config`, returning that group |
| Pipelines.SimulationConfigFile | disco/pipelines/base.py:265-270 | the prescreen `filtered_config_file` when a prescreen section exists, else the simulation `config_file` |
| Pipelines.PrescreenStageOf | disco/pipelines/base.py:240-256 | on success the stage has the given number, the prescreen auto-config command, the submitter group and the prescreen `prescreen_config_file`; it fails exactly when a needed group or key is missing |
| Pipelines.SimulationStageOf | disco/pipelines/base.py:258-280 | on success the stage has the given number, the simulation auto-config command, the submitter group and `SimulationConfigFile`; fails exactly when that or the submitter group fails |
| Pipelines.PostprocessStageOf | disco/pipelines/base.py:282-298 | on success the stage has the given number, the postprocess auto-config command, the submitter group and the postprocess `config_file`; fails exactly when a needed group or key is missing |
| Pipelines.PipelineCreator.constructor | disco/pipelines/base.py:142-144 | the stage counter starts at 0 and no file is written |
| Pipelines.PipelineCreator.MakePrescreenStage | disco/pipelines/base.py:240-256 | the counter rises by one, the prescreen script is written, and the stage carries the new number |
| Pipelines.PipelineCreator.MakeSimulationStage | disco/pipelines/base.py:258-280 | the counter rises by one, the simulation script is written, and the stage carries the new number |
| Pipelines.PipelineCreator.MakePostprocessStage | disco/pipelines/base.py:282-298 | the counter rises by one, the command and config scripts are written when the options exist, and the stage carries the new number |
| Pipelines.NumberedAppend | disco/pipelines/base.py:241 | appending the stage numbered one past the last keeps the 1, 2, … numbering |
| Pipelines.MakeStages | tests/integration/test_pipelines.py:253 | a pipeline has 1, 2 or 3 stages as the template has neither, one or both of prescreen and postprocess, numbered from 1 and matching the counter |
| Exceptions.GetErrorCodeFromException | disco/exceptions.py:116-125 | a foreign class is rejected; a listed class gets its table code; any other DISCO class gets the generic code 1 |
| Exceptions.ErrorCodesDistinct | disco/exceptions.py:60-113 | different listed classes have different codes |
| Exceptions.ErrorCodesInRange | disco/exceptions.py:60-113 | every table code lies in 114..125 and is neither 0 nor 1 |
| Exceptions.UnlistedClasses | disco/exceptions.py:60-113 | the table leaves out exactly the base class and the analysis-run error |
| Exceptions.ErrorCodeNeverSuccess | disco/exceptions.py:116-125 | every DISCO class gets a non-zero code |
| Exceptions.ConvergenceClasses | disco/exceptions.py:128-130 | a class's code is a convergence code exactly for the four OpenDSS/PyDSS convergence classes |
| Seqs.Filter | disco/extensions/upgrade_simulation/upgrades/cost_computation.py:116 | the selection keeps exactly the rows satisfying the condition, each from the input |
| CostComputation.CommentText | disco/extensions/upgrade_simulation/upgrades/cost_computation.py:130-142 | the comment is empty exactly for an exact match |
| CostComputation.Closest | disco/extensions/upgrade_simulation/upgrades/cost_computation.py:134-135 | the returned row minimises the absolute difference and is the first that does |
| CostComputation.MiscTotal | disco/extensions/upgrade_simulation/upgrades/cost_computation.py:159-161 | succeeds iff a row has the description, and returns a row's `total_cost` with it |
| CostComputation.FixedCost | disco/extensions/upgrade_simulation/upgrades/cost_computation.py:144-161 | zero for an empty database; the replace cost for "upgrade" and the new-transformer cost for "new (parallel)" when listed, else zero |
| CostComputation.ClosestTransformer | disco/extensions/upgrade_simulation/upgrades/cost_computation.py:134-135 | the first row closest to the upgrade on the backup property |
| CostComputation.ClosestTransformerUnique | disco/extensions/upgrade_simulation/upgrades/cost_computation.py:134-135 | the closest row is unique |
| CostComputation.TransformerCost | disco/extensions/upgrade_simulation/upgrades/cost_computation.py:118-163 | fails iff the database is empty; otherwise one "Transformer" row of count 1 priced from the first exact match on all seven properties with a blank comment, or from the closest row with a closest-match comment, plus the fixed cost |
| CostComputation.TransformerCostRows | disco/extensions/upgrade_simulation/upgrades/cost_computation.py:118-163 | on success one row per upgrade, each its `TransformerCost` |
| CostComputation.TransformerRowsFail | disco/extensions/upgrade_simulation/upgrades/cost_computation.py:118-163 | pricing a list fails iff it is non-empty and the database is empty |
| CostComputation.TransformerRowsSnoc | disco/extensions/upgrade_simulation/upgrades/cost_computation.py:163 | pricing one more upgrade appends its row |
| CostComputation.TransformerLoopStep | disco/extensions/upgrade_simulation/upgrades/cost_computation.py:116-163 | a row that is not an added upgrade leaves the rows unchanged; an added one appends its priced row |
| CostComputation.TransformerErrorIsFinal | disco/extensions/upgrade_simulation/upgrades/cost_computation.py:134-135 | an added upgrade that cannot be priced makes the whole computation fail with its error |
| CostComputation.ComputeTransformerCosts | disco/extensions/upgrade_simulation/upgrades/cost_computation.py:81-167 | the row loop returns the rows of exactly the added upgrades in order, and fails when there are none or one cannot be priced |
| CostComputation.TransformerRowsComplete | disco/extensions/upgrade_simulation/upgrades/cost_computation.py:164-166 | after the loop no added upgrade is the no-added-upgrades error (the `KeyError` of selecting columns of an empty frame), else the rows |
| CostComputation.TransformerCostsCountAdded | disco/extensions/upgrade_simulation/upgrades/cost_computation.py:115-166 | succeeds iff some upgrade is added and the database is non-empty; the rows are as many as the added upgrades, each of count 1 and type "Transformer" |
| CostComputation.LineDescription | disco/extensions/upgrade_simulation/upgrades/cost_computation.py:252-259 | "reconductored_line" exactly for "upgrade", "new_line" otherwise |
| CostComputation.LengthInMetres | disco/extensions/upgrade_simulation/upgrades/cost_computation.py:237-267 | an unknown unit is an error naming it; otherwise length times the unit's factor |
| CostComputation.LengthConversionScales | disco/extensions/upgrade_simulation/upgrades/cost_computation.py:237-245 | the table is consistent: kft is 1000 ft, km is 1000 m, m is the identity |
| CostComputation.ClosestLine | disco/extensions/upgrade_simulation/upgrades/cost_computation.py:275-276 | the first row closest to the upgrade on the backup property |
| CostComputation.LineRow | disco/extensions/upgrade_simulation/upgrades/cost_computation.py:260-283 | one "Line" row of count 1 priced per metre from the first exact match (blank comment) or the closest row (closest-match comment) |
| CostComputation.LineExactPriced | disco/extensions/upgrade_simulation/upgrades/cost_computation.py:268-272 | the first exact match's cost per metre times the length, blank comment |
| CostComputation.LineClosestPriced | disco/extensions/upgrade_simulation/upgrades/cost_computation.py:273-283 | without an exact match, the closest row's cost per metre times the length, with a comment |
| CostComputation.LineCost | disco/extensions/upgrade_simulation/upgrades/cost_computation.py:252-284 | fails iff the unit is unknown (that error first) or the database is empty; otherwise the priced line row on the length in metres |
| CostComputation.LineCostRows | disco/extensions/upgrade_simulation/upgrades/cost_computation.py:251-284 | succeeds iff every line can be priced, with one row per line, each its `LineCost` |
| CostComputation.LineRowsSnoc | disco/extensions/upgrade_simulation/upgrades/cost_computation.py:284 | pricing one more line appends its row |
| CostComputation.LineRowsErrorPersists | disco/extensions/upgrade_simulation/upgrades/cost_computation.py:251-284 | once a line fails, later lines do not change the error |
| CostComputation.LineLoopStep | disco/extensions/upgrade_simulation/upgrades/cost_computation.py:249-284 | a non-added row leaves the rows unchanged; an added one appends its priced row |
| CostComputation.LineErrorIsFinal | disco/extensions/upgrade_simulation/upgrades/cost_computation.py:267-276 | the first added line that cannot be priced decides the whole computation's error |
| CostComputation.ComputeLineCosts | disco/extensions/upgrade_simulation/upgrades/cost_computation.py:203-288 | the row loop returns the rows of exactly the added lines in order, and fails when there are none or one cannot be priced |
| CostComputation.LabelCount | disco/extensions/upgrade_simulation/upgrades/cost_computation.py:353 | a missing row label is an error; otherwise the row's sum over the capacitor columns |
| CostComputation.ControlUnitCost | disco/extensions/upgrade_simulation/upgrades/cost_computation.py:354-355 | a missing control type is an error; otherwise the first matching row's cost |
| CostComputation.CapControlCostAsWritten | disco/extensions/upgrade_simulation/upgrades/cost_computation.py:342-370 | as written: zero rows without capacitor upgrades, and an error whenever there are some |
| CostComputation.CapControlCost | disco/extensions/upgrade_simulation/upgrades/cost_computation.py:342-367 | two rows; zero counts and costs without capacitor upgrades; otherwise it succeeds iff the counts and unit costs exist, and each total is count × unit cost |
| CostComputation.RowSumAppend | disco/extensions/upgrade_simulation/upgrades/cost_computation.py:353 | a row's sum over two column groups is the sum of the two sums |
| CostComputation.OtherColumnsIgnored | disco/extensions/upgrade_simulation/upgrades/cost_computation.py:348-349 | a column without "Capacitor" in its name does not change the capacitor costs |
| CostComputation.CapControlAsWrittenFails | disco/extensions/upgrade_simulation/upgrades/cost_computation.py:369 | for one new controller and one setting change the code as written fails on the missing `comment` column, while the corrected version prices them at 500 and 50 |
| CostComputation.TotalCosts | disco/extensions/upgrade_simulation/upgrades/cost_computation.py:436-438 | the thermal rows followed by the voltage rows, nothing dropped or reordered |
| CostComputation.TotalCostsSum | disco/extensions/upgrade_simulation/upgrades/cost_computation.py:436-438 | the total cost of the concatenation is the sum of the two totals |

## Left out

- Power-flow engine queries (`dss.PVsystems`, `dss.Loads`, `dss.Properties`, `dss.LoadShape`): they are foreign calls, replaced by the device sequences and the shape map passed in.
- Logging, the JSON dump of the candidate table, and the `__main__` block of time-point selection: I/O and scaffolding.
- NaN and infinity from a PV-to-load ratio at zero load: floating point is not modelled, so a non-zero load is required wherever the ratio is computed.
- pandas re-alignment of shapes of different lengths and time-zone details of `between_time`: all shapes of a circuit are required to share one index.
- `load_data`, `dump_data`, `HpcConfig`, `PipelineStage`, `os.environ` and `os.path.join`: I/O and foreign types. Submitter parameters are returned as loaded, without the `HpcConfig` object.
- The abstract `make_*_command` methods: their results are opaque strings passed in as `Commands`.
- `update_transform_params`, `set_preconfigured_models`, `get_model_transform_output` and `get_transform_options`: not modelled. They are single dictionary writes or path joins outside the modelled operations.
- The template's `preconfigured` key: the template is assumed to carry it. Python reads it with `self.data["preconfigured"]` (base.py lines 26-27, read at 193 and 212), which raises `KeyError` when it is absent; the model's `Template.preconfigured` is a `bool` that cannot be absent.
- The load-shape settings object `INPUT_SETTINGS`: it is bound only inside the `__main__` block (timepoint_selection.py line 137), so `get_snapshot_timepoint` as written raises `NameError` at lines 88 and 105 for any circuit with a PV system or a load. The model replaces it by the parameter `start`, the load-shape start time.
- The template's `inputs`, `simulation_type` and `analysis_type` properties: plain lookups that no modelled operation uses.
- The `PipelineCreatorBase.template` property re-reads the template file on every access: the creator holds the loaded template as an immutable value.
- Pipelines.PipelineTemplate.GetCommandParams: Python returns the very dictionary it scrubbed in place; the model returns a copy, so aliasing is not captured.
- `compute_all_costs`: CSV and Excel I/O.
- The `reformat_*` functions: dtype coercion and float rounding.
- `compute_voltage_regcontrol_cost`: it appends to a dict and looks up a missing field, so it always raises.
- Cost rows carry only the output columns `type`, `count`, `total_cost_usd` and `comment`.
- CostComputation.CommentText: the comment's rendering of the closest row as a Python dict is not modelled; the text stops before it.
- CostComputation.FixedCost: `.lower()` is not modelled. It is the identity on the added rows, whose type is already "upgrade" or "new (parallel)".
- CostComputation.TransformerCost: the backup property ranges over the numeric properties only; a connection-type backup would make `abs(...)` fail in Python.
- CostComputation.CapControlCost: voltage upgrades with repeated row labels are excluded by a precondition. With them, pandas `.loc` would return a frame rather than a row.
- CostComputation.ComputeTransformerCosts: when no upgrade is added, selecting the output columns of the empty frame raises `KeyError`. This is modelled as `Err(NoAddedUpgrades)`, and so is the same case in ComputeLineCosts.
- `is_convergence_error` is modelled as `Exceptions.IsConvergenceError`, a predicate without a contract; `Exceptions.ConvergenceClasses` states its meaning.
- `contains_prescreen` and `contains_postprocess` are the predicates `Pipelines.ContainsPrescreen` and `Pipelines.ContainsPostprocess`.

## Findings

| source | as written | input that shows it | evidently intended | confidence | as-written member | corrected member |
|---|---|---|---|---|---|---|
| disco/extensions/upgrade_simulation/upgrades/cost_computation.py:363-369 | the controller-cost frame has only `type`, `count` and `total_cost_usd`, but is then indexed with the output column list that includes `comment`, so every call with capacitor upgrades raises `KeyError` | voltage upgrades with one "Capacitor" column counting one new controller and one setting change, controls database at 500 and 50 | return the two controller rows with totals count × unit cost | not executed | CostComputation.CapControlCostAsWritten | CostComputation.CapControlCost |
