# Dosage Designer — a verified model

Dosage Designer is a small browser application for pharmaceutical dosage forms. It keeps a
library of records (tablets, patches, …) in the browser's local storage. Its pages let a user
search the library, add or edit a record, view counts per release type on a dashboard, and
simulate a form's drug-release curve, then download that curve as CSV.

This project models the application's logic in Dafny and proves properties of the model:

- `types.dfy` (`DosageTypes`): the record type, the three release kinds, the six routes of
  administration and the simulation result (three parallel series).
- `simulation_engine.dfy` (`SimulationEngine`): `simulate`, written as a method with the source's
  sampling loop and proved equal to the value-level function `Profile`. The per-kind formulas
  are first-order (`exp`), zero-order (linear, capped) and Higuchi (`2k·sqrt(t)`, capped).
  `Math.exp` and `Math.sqrt` are passed in as a `MathLib`.
- `simulation_properties.dfy` (`SimulationProperties`): the time grid, conservation, bounds,
  monotonicity, the closed forms per kind, and two worked profiles computed exactly.
- `csv_export.dfy` (`CsvExport`): `exportToCSV`, written as a method with the source's
  accumulating loop. `toFixed` is supplied as a formatter. A general split/join theory proves
  the line and field layout of the text.
- `dosage_form_store.dfy` (`DosageFormStore`): the record store as a class. A field `stored`
  stands for the local-storage entry; when it is missing, the three sample records are used.
  The module-level sample list is held in a constant field `samples` that the constructor sets
  to `SampleForms()`.
  `getAll`, `getById`, `save` and `delete` are methods. Pure functions state the list each one
  produces.
- `library.dfy` (`Library`): the library page's search and release-type filter.
- `add_edit_form.dfy` (`AddEditForm`): the form's state as a class, ingredient editing, the
  required-field check and the record that submitting builds and saves.
- `dashboard.dfy` (`Dashboard`): the per-release-type count computed by `reduce`, as a loop over
  a map.
- `simulation_page.dfy` (`SimulationPage`): the page state as a class, per-kind default
  parameters, running the engine, the chart series and the download file name.
- `sequences.dfy` (`Sequences`) and `text.dfy` (`Text`): the `filter`, `toLowerCase`,
  `includes` and `trim` built-ins the pages rely on.

The numbers are modelled as `real`, not IEEE doubles. About `exp` and `sqrt`, the lemmas assume
only what `SimulationEngine.Plausible` lists: `exp(0) = 1`, `exp` positive and monotone,
`sqrt(0) = 0`, `sqrt(16) = 4`, `sqrt` non-negative and monotone on `x >= 0`. About `toFixed`,
they assume only that it never writes a comma or a newline (`CsvExport.FormatterSafe`).

The code validates none of the parameters of `simulate`. For an unknown kind, its `default:`
branch yields zeros.

- The model has no error path. The engine requires `timePoints >= 1`, and a non-zero duration
  for the zero-order kind, the only branch that divides by the duration.
- With a closed `ReleaseType` datatype, the `default:` branch cannot be reached.

## Model

| member | source | states |
|---|---|---|
| DosageTypes.ReleaseTypeName | src/types/dosageForm.ts:1 | each kind has one of the three lower-case tags used in the code, never "all" |
| DosageTypes.ReleaseTypeNameInjective | src/types/dosageForm.ts:1 | distinct kinds have distinct tags, so comparing a form's tag with a filter string identifies the kind |
| SimulationEngine.Simulate | src/lib/simulationEngine.ts:12-63 | the loop yields exactly `Profile`: three series of length timePoints + 1, `time[i] = i·(duration/timePoints)`, every concentration >= 0 and every cumulative value <= the dose |
| SimulationEngine.ReleaseStep | src/lib/simulationEngine.ts:32-51 | the per-kind switch computes the first-order, zero-order or Higuchi amounts `RawAmounts` |
| SimulationEngine.RawAmounts | src/lib/simulationEngine.ts:32-51 | the unclamped per-kind amounts; released plus cumulative is always the whole dose, and the zero-order and Higuchi branches cap the cumulative amount at the dose; only the zero-order branch needs a non-zero duration |
| SimulationEngine.TimeAt | src/lib/simulationEngine.ts:23-26 | the time of sample i is `i * dt` with `dt = duration / timePoints` |
| SimulationEngine.Min | src/lib/simulationEngine.ts:42-59 | `Math.min`, which caps the cumulative amount in the zero-order and Higuchi branches and in the stored series |
| SimulationEngine.Max | src/lib/simulationEngine.ts:58 | `Math.max`, which clamps the stored concentration at 0 |
| SimulationEngine.ConcentrationAt | src/lib/simulationEngine.ts:58 | the pushed concentration is never negative and never below the unclamped amount |
| SimulationEngine.CumulativeAt | src/lib/simulationEngine.ts:59 | the pushed cumulative release never exceeds the dose or the unclamped amount |
| SimulationEngine.Profile | src/lib/simulationEngine.ts:19-27 | all three series have timePoints + 1 entries |
| SimulationProperties.TimeGrid | src/lib/simulationEngine.ts:23-27 | the grid starts at 0, ends at `duration` and strictly increases |
| SimulationProperties.TimeNonNegative | src/lib/simulationEngine.ts:26 | every sample time is >= 0 |
| SimulationProperties.ImmediateComplementary | src/lib/simulationEngine.ts:33-36 | before clamping, released + cumulative equals the dose; at t = 0 they are the dose and 0 |
| SimulationProperties.SampleAtZero | src/lib/simulationEngine.ts:33-59 | for every kind, at t = 0 the concentration is the dose and the cumulative release is 0 |
| SimulationProperties.SampleConservation | src/lib/simulationEngine.ts:33-59 | concentration + cumulative release equals the dose at every time, for every kind |
| SimulationProperties.SampleBounds | src/lib/simulationEngine.ts:33-59 | both series stay within [0, dose] for non-negative parameters and times |
| SimulationProperties.SampleMonotone | src/lib/simulationEngine.ts:33-59 | cumulative release never decreases over time, for every kind |
| SimulationProperties.RawCumulativeMonotone | src/lib/simulationEngine.ts:32-51 | the unclamped cumulative amount is monotone in t, for every kind |
| SimulationProperties.ImmediateCumulativeMonotone | src/lib/simulationEngine.ts:36 | `D·(1 − exp(−k·t))` is monotone in t when `exp` is |
| SimulationProperties.ExtendedCumulativeMonotone | src/lib/simulationEngine.ts:41-42 | `min(D/duration·t, D)` is monotone in t |
| SimulationProperties.ControlledCumulativeMonotone | src/lib/simulationEngine.ts:48-49 | `min(2k·sqrt(t), D)` is monotone in t when `sqrt` is |
| SimulationProperties.ProfileInvariants | src/lib/simulationEngine.ts:12-63 | the whole profile: grid endpoints, start values, bounds, conservation, cumulative rising and concentration falling |
| SimulationProperties.ExtendedLinear | src/lib/simulationEngine.ts:41-42 | `(D/duration)·time[i] = D·i/timePoints` |
| SimulationProperties.ExtendedClosedForm | src/lib/simulationEngine.ts:39-44 | extended release: cumulative[i] = D·i/n and concentration[i] = D·(n − i)/n, so the dose is out exactly at the end |
| SimulationProperties.ControlledClosedForm | src/lib/simulationEngine.ts:46-51 | controlled release: cumulative[i] = min(2k·sqrt(time[i]), D) and concentration[i] = D − cumulative[i] |
| SimulationProperties.ControlledCompletion | src/lib/simulationEngine.ts:46-51 | controlled release has the full dose out at the last sample iff 2k·sqrt(duration) >= D |
| SimulationProperties.ImmediateNeverComplete | src/lib/simulationEngine.ts:33-37 | immediate release with a positive dose never reaches the full dose at any sample |
| SimulationProperties.ExtendedExample | src/lib/simulationEngine.ts:39-44 | (500 mg, 24 h, 4 steps) gives times 0..24 by 6, concentrations 500,375,250,125,0 and cumulative 0,125,250,375,500 |
| SimulationProperties.ControlledExample | src/lib/simulationEngine.ts:46-51 | (100 mg, k = 5, 16 h, 1 step) gives times 0,16, concentrations 100,60 and cumulative 0,40 |
| CsvExport.ExportToCsv | src/lib/simulationEngine.ts:68-76 | the text is the header, then one line per sample, each newline-terminated; split at newlines it is header, rows, ""; each row splits at commas into its three formatted fields; the form name plays no part |
| CsvExport.Rows | src/lib/simulationEngine.ts:71-73 | one data line per entry of `time` |
| CsvExport.RowFields | src/lib/simulationEngine.ts:72 | the three fields of data line i: the time to 2 digits, the two amounts to 4 |
| CsvExport.Columns | src/lib/simulationEngine.ts:69 | the three column titles of the header |
| CsvExport.Header | src/lib/simulationEngine.ts:69 | the header line, the titles joined by commas (its text is `HeaderIsLiteral`) |
| CsvExport.CsvText | src/lib/simulationEngine.ts:69-75 | the exported text opens with the header line and its newline and ends with a newline |
| CsvExport.Join | src/lib/simulationEngine.ts:72 | `join`: no parts give "", otherwise the text opens with the first part, followed by the separator when more parts follow |
| CsvExport.HeaderIsLiteral | src/lib/simulationEngine.ts:69 | the header is exactly `Time (hours),Concentration (mg),Cumulative Release (mg)` |
| CsvExport.CsvLayout | src/lib/simulationEngine.ts:69-75 | the line and field structure of the export, for any formatter that writes no comma or newline |
| CsvExport.HeaderOneLine | src/lib/simulationEngine.ts:69 | the header holds no newline |
| CsvExport.HeaderColumns | src/lib/simulationEngine.ts:69 | split at commas, the header gives back exactly the three column titles |
| CsvExport.Split | src/lib/simulationEngine.ts:72 | splitting yields at least one piece, no piece holds the separator, and joining the pieces gives back the text |
| CsvExport.SplitJoin | src/lib/simulationEngine.ts:72 | joining separator-free pieces and splitting again gives back the pieces |
| CsvExport.SplitTerminated | src/lib/simulationEngine.ts:69-73 | splitting newline-terminated lines gives the lines and a final empty piece |
| DosageFormStore.SampleForms | src/lib/dosageFormStore.ts:4-41 | the three sample records, field by field, with the dates as UTC milliseconds |
| DosageFormStore.SampleIds | src/lib/dosageFormStore.ts:4-41 | there are three sample records, with ids "1", "2" and "3" in that order |
| DosageFormStore.SampleKinds | src/lib/dosageFormStore.ts:4-41 | the sample records are immediate, extended and controlled release, in that order |
| DosageFormStore.SampleIdsDistinct | src/lib/dosageFormStore.ts:4-41 | the sample ids are pairwise distinct |
| DosageFormStore.IndexOf | src/lib/dosageFormStore.ts:67 | `findIndex`: the first index holding the id, or −1 exactly when no record has it |
| DosageFormStore.FindById | src/lib/dosageFormStore.ts:61-63 | `find`: none exactly when no record has the id, otherwise the first record holding it |
| DosageFormStore.Upsert | src/lib/dosageFormStore.ts:65-76 | a new id is appended, everything else kept; a present id's first record is replaced in place with `updatedAt` set to now, same length, every other index unchanged |
| DosageFormStore.RemoveId | src/lib/dosageFormStore.ts:79 | the `filter` of `delete`: no record with the id is left, and every record with another id is kept as often as it occurs in the list |
| DosageFormStore.SaveThenGet | src/lib/dosageFormStore.ts:61-76 | after saving, looking the id up gives the saved record, with `updatedAt` refreshed when the id was present |
| DosageFormStore.SaveKeepsOthers | src/lib/dosageFormStore.ts:65-76 | saving does not change what any other id looks up |
| DosageFormStore.SaveKeepsIdsDistinct | src/lib/dosageFormStore.ts:65-76 | saving keeps ids pairwise distinct |
| DosageFormStore.DeleteRemoves | src/lib/dosageFormStore.ts:78-81 | after deleting, the id is not found; what is left is an order-preserving subsequence holding every copy of every record with another id |
| DosageFormStore.DeleteAbsent | src/lib/dosageFormStore.ts:78-81 | deleting an absent id leaves the list unchanged |
| DosageFormStore.DeleteKeepsOthers | src/lib/dosageFormStore.ts:78-81 | deleting does not change what any other id looks up |
| DosageFormStore.DeleteKeepsIdsDistinct | src/lib/dosageFormStore.ts:78-81 | deleting keeps ids pairwise distinct |
| DosageFormStore.IdsDistinctFilter | src/lib/dosageFormStore.ts:79 | filtering keeps ids pairwise distinct |
| DosageFormStore.Store.constructor | src/lib/dosageFormStore.ts:43-44 | the store starts with nothing stored, its first-use records being the sample list |
| DosageFormStore.Store.Current | src/lib/dosageFormStore.ts:46-58 | the list `getAll` would return: the stored list, or the sample records while nothing is stored |
| DosageFormStore.Store.GetAll | src/lib/dosageFormStore.ts:46-59 | returns the stored list, or the store's sample records when nothing is stored, and writes that list back |
| DosageFormStore.Store.GetById | src/lib/dosageFormStore.ts:61-63 | returns the first record with the id, and writes the list back as `getAll` does |
| DosageFormStore.Store.Save | src/lib/dosageFormStore.ts:65-76 | the stored list becomes `Upsert` of the current one |
| DosageFormStore.Store.Delete | src/lib/dosageFormStore.ts:78-81 | the stored list becomes the current one without the id's records |
| Sequences.Filter | src/pages/Library.tsx:33 | `filter`: every kept element satisfies the predicate and comes from the input; every element satisfying it is kept |
| Sequences.FilterCount | src/pages/Library.tsx:33 | a filter keeps every copy of a passing value and no copy of a failing one |
| Sequences.FilterIsSubsequence | src/pages/Library.tsx:33 | a filter neither reorders nor duplicates |
| Sequences.FilterDistinct | src/pages/AddEditForm.tsx:60 | filtering a list without duplicates gives one without duplicates |
| Sequences.FilterFilter | src/pages/Library.tsx:33-45 | filtering twice is filtering once by the conjunction |
| Text.Lower | src/pages/Library.tsx:35-38 | `toLowerCase` keeps the length and leaves no upper-case ASCII letter |
| Text.LowerOfUpper | src/pages/Library.tsx:35-38 | lower-casing forgets case: it gives the same result after upper-casing or lower-casing first |
| Text.IncludesIffOccurs | src/pages/Library.tsx:35-38 | `includes` holds exactly when the needle occurs at some position |
| Text.IncludesEmpty | src/pages/Library.tsx:35-38 | every string includes the empty string |
| Text.Includes | src/pages/Library.tsx:35-38 | `includes`, as a scan of start positions; its meaning is `IncludesIffOccurs` |
| Text.IsSpace | src/pages/AddEditForm.tsx:53 | the ECMAScript white-space and line-terminator set that `trim` and `\s` use, character by character |
| Text.TrimStart | src/pages/AddEditForm.tsx:53 | removes exactly the leading white space: what remains is a suffix that does not start with white space, and everything cut is white space |
| Text.TrimEnd | src/pages/AddEditForm.tsx:53 | removes exactly the trailing white space: what remains is a prefix that does not end with white space, and everything cut is white space |
| Text.Trim | src/pages/AddEditForm.tsx:53 | `trim` cuts only white space, from both ends, leaving neither end white |
| Text.TrimIdempotent | src/pages/AddEditForm.tsx:53-54 | trimming twice is trimming once |
| Library.FilteredForms | src/pages/Library.tsx:33-45 | the result is an order-preserving subsequence; every form in it matches, and every matching form appears in it as often as in the list |
| Library.MatchesSearch | src/pages/Library.tsx:34-39 | the search test: the lower-cased query occurs in the lower-cased name, form type or some ingredient |
| Library.MatchesRelease | src/pages/Library.tsx:41-42 | the release test: the filter is "all" or equals the form's release tag (meaning proved in `ReleaseFilterMeaning`) |
| Library.SomeIngredientMatches | src/pages/Library.tsx:37-39 | `some`: at least one lower-cased ingredient includes the lower-cased query |
| Library.Matches | src/pages/Library.tsx:33-45 | the filter's predicate: the search test and the release test both hold |
| Library.ReleaseFilterMeaning | src/pages/Library.tsx:41-42 | "all" passes every form; any other filter passes exactly the forms whose tag equals it |
| Library.EmptyQuery | src/pages/Library.tsx:34-45 | an empty query leaves only the release filter |
| Library.AllReleaseTypes | src/pages/Library.tsx:41-45 | the filter "all" leaves only the search |
| Library.SearchIgnoresCase | src/pages/Library.tsx:35-38 | queries that lower-case alike give the same list |
| Library.UpperCaseQuery | src/pages/Library.tsx:35-38 | an upper-cased query finds the same forms |
| Library.FilterInStages | src/pages/Library.tsx:33-45 | release-filtering and then searching is the single combined filter |
| AddEditForm.WithIngredient | src/pages/AddEditForm.tsx:52-57 | the trimmed input is appended when non-blank and not yet listed; otherwise the list is unchanged |
| AddEditForm.WithoutIngredient | src/pages/AddEditForm.tsx:59-61 | every occurrence is gone; every other ingredient is kept in order, each as often as it was listed |
| AddEditForm.AddKeepsClean | src/pages/AddEditForm.tsx:52-57 | adding keeps the list free of duplicates, blanks and untrimmed entries |
| AddEditForm.RemoveKeepsClean | src/pages/AddEditForm.tsx:59-61 | removing keeps the list free of duplicates, blanks and untrimmed entries |
| AddEditForm.RemoveUndoesAdd | src/pages/AddEditForm.tsx:52-61 | removing an ingredient just added restores the list |
| AddEditForm.AddTwice | src/pages/AddEditForm.tsx:53 | adding the same input again changes nothing |
| AddEditForm.Submit | src/pages/AddEditForm.tsx:63-88 | nothing is built iff a required field is empty or no ingredient is listed; an edit of a missing record fails; otherwise the record carries the current fields, is stamped now, keeps the id and creation time when editing, and takes the fresh id and now when creating |
| AddEditForm.Missing | src/pages/AddEditForm.tsx:66 | the required-field guard: an empty name, form type, strength or description, or no ingredient |
| AddEditForm.IsEdit | src/pages/AddEditForm.tsx:19 | `!!id`: the route parameter is present and not the empty string |
| AddEditForm.StoredAfter | src/pages/AddEditForm.tsx:84-88 | the store after a submission: untouched on missing fields, the list written back on a missing edit target, `Upsert` of the record on a save |
| AddEditForm.EditReplaces | src/pages/AddEditForm.tsx:76-88 | a submitted edit replaces the record in place: same count, found under its id, original creation time kept |
| AddEditForm.CreateAppends | src/pages/AddEditForm.tsx:76-88 | a submitted new record is appended and no other id's lookup changes |
| AddEditForm.FormState.constructor | src/pages/AddEditForm.tsx:21-28 | blank fields, immediate release, oral route |
| AddEditForm.FormState.AddIngredient | src/pages/AddEditForm.tsx:52-57 | the list becomes `WithIngredient`; the input is cleared exactly when the list changed; the other fields are untouched |
| AddEditForm.FormState.RemoveIngredient | src/pages/AddEditForm.tsx:59-61 | the list becomes `WithoutIngredient`; nothing else changes |
| AddEditForm.FormState.Load | src/pages/AddEditForm.tsx:30-50 | editing a stored record copies its fields into the form; with no id, or a missing record, the fields stay as they were |
| AddEditForm.FormState.HandleSubmit | src/pages/AddEditForm.tsx:63-96 | returns `Submit` of the current fields; the store is untouched on missing fields, written back unchanged when the edit target is missing, and upserted with the record when saved |
| Dashboard.CountOf | src/pages/Dashboard.tsx:11-14 | a count never exceeds the number of forms |
| Dashboard.ReleaseTypeCounts | src/pages/Dashboard.tsx:11-14 | the loop builds `CountMap`; a kind is a key iff some form has it; each count lies between 1 and the number of forms |
| Dashboard.CountMap | src/pages/Dashboard.tsx:11-14 | the counts `reduce` builds: one entry per kind that occurs, holding its count (proved in `CountPositive`, `CountsSum`, `CountMapKeys`) |
| Dashboard.CountOrZero | src/pages/Dashboard.tsx:12 | `acc[k] || 0`: the running count, or 0 for a kind not met yet |
| Dashboard.CountMapSnoc | src/pages/Dashboard.tsx:12 | one more form raises only its own kind's entry, creating it at 1 |
| Dashboard.CountPositive | src/pages/Dashboard.tsx:12 | a kind's count is positive iff some form has that kind |
| Dashboard.CountsSum | src/pages/Dashboard.tsx:11-14 | the three counts add up to the number of forms |
| Dashboard.CountMapTotal | src/pages/Dashboard.tsx:11-14 | the map's entries add up to the number of forms |
| Dashboard.CountMapKeys | src/pages/Dashboard.tsx:75 | the map has at most three keys |
| Dashboard.DistributionShown | src/pages/Dashboard.tsx:137 | the map has a key iff there is at least one form |
| Dashboard.BarWidthInRange | src/pages/Dashboard.tsx:163 | every bar width lies in (0, 100] percent |
| Dashboard.BarWidth | src/pages/Dashboard.tsx:163 | the bar width in percent: never negative, positive for a positive count, at most 100 when the count is at most the total |
| SimulationPage.Defaults | src/pages/Simulation.tsx:32-41 | every kind's default duration is positive; the default rate is a notch of the rate slider of lines 153-159 (ten times the rate, an integer in 1..50) and the default duration a notch of the duration slider of lines 172-178 (6..72 hours in steps of 6) |
| SimulationPage.ExtendedDefaultsComplete | src/pages/Simulation.tsx:35-37 | with the extended defaults the last of the 100 samples has the whole dose out and none left |
| SimulationPage.ChartData | src/pages/Simulation.tsx:83-89 | empty without a result; otherwise one point per time sample, point i holding sample i of each series |
| SimulationPage.ChartMatchesCsv | src/pages/Simulation.tsx:74-89 | data line i of the export is chart point i, formatted |
| SimulationPage.CollapseWhitespace | src/pages/Simulation.tsx:75 | the result is never longer than the name |
| SimulationPage.CollapseFrom | src/pages/Simulation.tsx:75 | the scan never lengthens its input |
| SimulationPage.CollapseHasNoSpace | src/pages/Simulation.tsx:75 | the replacement leaves no white space |
| SimulationPage.CollapseNoSpace | src/pages/Simulation.tsx:75 | a name without white space is unchanged |
| SimulationPage.CollapseIdempotent | src/pages/Simulation.tsx:75 | replacing twice is replacing once |
| SimulationPage.CollapseRunAlone | src/pages/Simulation.tsx:75 | a non-empty run of white space becomes one underscore |
| SimulationPage.CollapseAppend | src/pages/Simulation.tsx:75 | the replacement splits at any boundary, resuming in the state reached at the end of the first part |
| SimulationPage.CollapseRun | src/pages/Simulation.tsx:75 | a run of white space between two words becomes exactly one underscore |
| SimulationPage.DownloadFilename | src/pages/Simulation.tsx:75 | the file name ends in `_simulation.csv` |
| SimulationPage.FilenameHasNoSpace | src/pages/Simulation.tsx:75 | the file name holds no white space |
| SimulationPage.SimulationPage.constructor | src/pages/Simulation.tsx:20-24 | no form, no result, 100 mg, rate 0.5, 24 h |
| SimulationPage.SimulationPage.Load | src/pages/Simulation.tsx:26-51 | a found form is loaded with its kind's defaults; the dose and any earlier result are kept; with no id or a missing form nothing but the store's write-back changes |
| SimulationPage.SimulationPage.RunSimulation | src/pages/Simulation.tsx:53-69 | without a form nothing changes; otherwise the result becomes the profile for the form's kind and the current parameters at 100 points |
| SimulationPage.SimulationPage.HandleDownload | src/pages/Simulation.tsx:71-81 | a download exists iff there is a result and a form; it is the CSV of the result under `DownloadFilename` of the form's name, laid out as header, rows, "" |

## Left out

- `downloadCSV` (src/lib/simulationEngine.ts:81-91) is not modelled: it is only Blob, URL and DOM side effects. `HandleDownload` returns the text and file name it would be given.
- Local storage, JSON encoding and the re-creation of `Date` objects on read. The `stored` field holds the list itself, and dates are integer millisecond timestamps.
- `generateId` reads the clock and a random number. Its id arrives as the `freshId` parameter, and a "now" timestamp arrives as the `now` parameter.
- `AddEditForm.FormState.HandleSubmit`: the source reads the clock twice on either path, at different points: creating reads it for `createdAt` and `updatedAt` (src/pages/AddEditForm.tsx:84-85), and `save` then appends without a new stamp; editing reads it for `updatedAt` and again for `save`'s own stamp (src/lib/dosageFormStore.ts:70). The model uses one `now` for both reads.
- Floating point. All numbers are reals. `Math.exp`, `Math.sqrt` and `toFixed` are parameters about which only the facts listed above are assumed. No digit output or rounding is modelled, so the CSV lines are proved only up to what the formatter writes.
- Sequences.Filter: its own contract fixes which values are kept. The copy counts are stated by `Sequences.FilterCount` and the order by `Sequences.FilterIsSubsequence`. Both are separate lemmas because a multiset clause on the recursive function makes every proof that uses it too costly. `RemoveId`, `FilteredForms` and `WithoutIngredient` state the counts in their own contracts.
- SimulationEngine.Simulate: requires `timePoints >= 1`, and a non-zero duration for extended release, which the source does not check. With `timePoints = 0` the grid step divides by zero; with extended release and `duration = 0` the rate `totalDosage / duration` does. Both give `Infinity` or `NaN`, which reals cannot represent. The page always passes 100 points. The model's `timePoints` is a `nat`, so two more inputs the source accepts are not modelled: a negative count, for which the loop runs zero times and `simulate` returns three empty arrays, and a fractional count such as 2.5, which gives 3 samples ending at 0.8 times the duration. The lemmas about a profile assume a positive duration: with a negative one the Higuchi branch takes `sqrt` of negative times, where the source gets `NaN` and the model only the value of an unconstrained `sqrt`.
- SimulationPage.SimulationPage.RunSimulation: requires a non-zero duration when an extended-release form is loaded, for the same reason. The page's duration field accepts any number.
- The `default:` branch of the release-kind switch (src/lib/simulationEngine.ts:53-56) cannot be reached once the kind is a closed datatype.
- Text.Lower: `toLowerCase` is modelled for ASCII letters only. White space for `trim` and `\s` is the ECMAScript set, listed character by character.
- On first use, when nothing is stored, `getAll` returns the module's sample array itself, and a `save` made at that moment pushes into or overwrites an element of that very array (src/lib/dosageFormStore.ts:56-58, 66-72). Once the key exists, `getAll` returns a freshly parsed array (lines 48-54), so later saves never touch the samples. The model's lists are values, so this one-time sharing is not represented.
- CsvExport.ExportToCsv and SimulationPage.ChartData: require the two amount series to be at least as long as `time`. On shorter series the source behaves differently (`exportToCSV` throws on `undefined.toFixed`, and the chart gets points holding `undefined`). Every call site passes a `simulate` result, whose series have equal lengths.
- React rendering, effects' dependency lists, toasts, navigation, charts, and the wiring of inputs and sliders are not modelled. Neither is the key order of `Object.entries` on the dashboard.
- src/components/DosageFormCard.tsx only maps release types to CSS classes and is not part of this model.
- `handleDelete` on the library page (src/pages/Library.tsx:24-31) deletes and re-reads the store. It is covered by `DosageFormStore.Store.Delete` followed by `GetAll`, with no model of its own.
