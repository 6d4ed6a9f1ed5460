# NeuroStack tracker: a Dafny model of its state logic

NeuroStack is a local-first dashboard for logging compounds taken, their
doses and how one felt (anxiety, functionality, a 1..5 sentiment score and
three groups of effect tags). Under its React screens sits a sequential,
deterministic core, and this project models that core as pure functions over
immutable datatypes:

- `Store`: the persisted application store. It holds the PIN lock and four
  collections: compounds, stack presets, log entries and settings. It also
  provides add, update and delete by id, the cascading compound delete,
  preset-to-log expansion, and export and import.
- `LocalAdapter`: the on-device storage adapter. It keeps a flat list of log
  entries, a user record and a PIN under three keys of the browser's
  key-value store. That store is `None` when it is unavailable.
- `Schemas`: the log-entry schema as a predicate, with an issue list that a
  lemma proves equivalent to it.
- `Provider`: the selection between the local and the remote adapter, and
  `switchMode`.
- One module per component with logic:
  - `SmartLogger`: the auto-save, with create once and update afterwards.
  - `TagSelector`, `CompoundChip`, `CompoundAutocomplete`, `LogHistory`.
  - `LoggingDrawer`: dose stepping and the save filter.
  - `AuthGuard`: the PIN gate.
  - `SettingsPage`: the form guards, the import format check and sample
    loading.
  - `Dashboard`: the day streak and the last entry.
  - `ActivityHeatmap`: per-day grouping and colour levels.
  - `SeedData`: the sample catalogue.
- Shared modules: `Wrappers` (Option/Result), `Seqs` (JavaScript's array
  `filter`, `findIndex`, conditional `map` and index edits, each with an
  independent characterisation) and `Text` (ECMAScript `trim` and the
  `/\D/g` digit filter).

The code's identifiers (`Date.now()`-and-`Math.random()` strings) and clock
readings are parameters: `id`, `freshId`, `now`, `date`. No uniqueness is
assumed, since the code does not guarantee any. Dates are integer day numbers
and timestamps integer milliseconds. Doses and scores are JavaScript numbers,
modelled as `real`. The compound unit is an enumeration, so every seed
compound's unit belongs to it by construction.

## Model

| member | source | states |
|---|---|---|
| Store.SetPin | store/useStore.ts:20-22 | the PIN is stored and the store unlocked; the four data collections are unchanged |
| Store.Authenticate | store/useStore.ts:24-31 | returns true exactly when the attempt equals the stored PIN (a missing PIN never matches); success only sets the unlocked flag, and failure returns the state unchanged |
| Store.Logout | store/useStore.ts:33-35 | only the unlocked flag is cleared; the PIN and all data stay |
| Store.PinRoundTrip | store/useStore.ts:20-35 | after setting a PIN and locking, an attempt unlocks exactly when it equals that PIN |
| Store.AddCompound | store/useStore.ts:38-47 | exactly one compound is appended with the draft's fields, the given id and timestamp; the earlier compounds and everything else are unchanged |
| Store.UpdateCompound | store/useStore.ts:49-55 | every compound with the id becomes the patch merged over it; all others stay at their positions; the length and the other collections are unchanged |
| Store.DeleteCompound | store/useStore.ts:57-71 | compounds with the id are removed and the rest keep their multiplicity and order; every preset and every log is kept, losing exactly its dose items for that compound, with each other item kept as often as before and in order; the PIN lock and settings are unchanged |
| Store.DeleteCompoundLeavesNoReference | store/useStore.ts:57-71 | after the cascade no compound, preset dose item or log dose item mentions the deleted id |
| Store.AddPreset | store/useStore.ts:74-83 | exactly one preset is appended with the draft's fields, id and timestamp; nothing else changes |
| Store.UpdatePreset | store/useStore.ts:85-91 | presets with the id are merged with the patch in place; all others and the length are unchanged |
| Store.DeletePreset | store/useStore.ts:93-97 | exactly the presets with the id are removed; others keep multiplicity and relative order; nothing else changes |
| Store.AddLog | store/useStore.ts:100-109 | exactly one log is appended with the draft's fields, id and timestamp; the earlier logs and everything else are unchanged |
| Store.UpdateLog | store/useStore.ts:111-117 | logs with the id are merged with the patch in place; all others and the length are unchanged |
| Store.DeleteLog | store/useStore.ts:119-123 | exactly the logs with the id are removed; others keep multiplicity and relative order; nothing else changes |
| Store.LogPreset | store/useStore.ts:125-154 | an unknown preset id changes nothing; otherwise exactly one log is appended for the first preset with the id, copying its compounds and doses in order, all stamped with the same clock reading, with the preset id set and nothing else changed |
| Store.ImportData | store/useStore.ts:157-162 | each key present in the bundle overwrites the state's value and every absent key keeps it |
| Store.ExportData | store/useStore.ts:164-172 | the backup carries exactly the four collections |
| Store.ExportImportRoundTrip | store/useStore.ts:157-172 | importing an export restores the exported collections and keeps the importing state's PIN lock; importing one's own export is the identity |
| Store.UpdateSettings | store/useStore.ts:174-178 | only the fields the patch carries change; the rest of the state is unchanged |
| LocalAdapter.PinOf | lib/storage/local-adapter.ts:32 | the PIN is the last four characters of the password, or all of a shorter one |
| LocalAdapter.SignUp | lib/storage/local-adapter.ts:26-43 | unavailable storage gives the error and writes nothing; otherwise the derived PIN and a user record with the email are stored and the logs are untouched |
| LocalAdapter.SignIn | lib/storage/local-adapter.ts:45-62 | unavailable storage is reported; "no account" exactly when no non-empty PIN is stored; success exactly when the stored PIN equals the password's last four characters; the email plays no part |
| LocalAdapter.GetUser | lib/storage/local-adapter.ts:69-81 | a session exists exactly when storage is available and the user record is present and parses; it carries that record's id and email |
| LocalAdapter.SignUpThenSignIn | lib/storage/local-adapter.ts:31-62 | after signing up with a non-empty password, signing in succeeds exactly when the attempt ends with the same four characters, whatever the email; the user is the one recorded |
| LocalAdapter.EmptyPasswordLocksOut | lib/storage/local-adapter.ts:31-55 | an empty password stores an empty PIN, which later sign-ins report as no account |
| LocalAdapter.PinScenario | lib/storage/local-adapter.ts:31-62 | "abcd1234" yields PIN "1234"; "zzzz9999" is rejected and "xyz1234" accepted under another email |
| LocalAdapter.SaveLogs | lib/storage/local-adapter.ts:96-99 | on available storage the stored list becomes the given list and the user and PIN are kept; on unavailable storage it is a no-op |
| LocalAdapter.CreateLog | lib/storage/local-adapter.ts:101-113 | returns the input with the fresh id; exactly that record is appended to the stored list; user and PIN are kept; nothing is written on unavailable storage |
| LocalAdapter.UpdateLog | lib/storage/local-adapter.ts:115-128 | it fails with "Log not found" exactly when no stored record has the id, and then writes nothing; otherwise the first record with the id is replaced in place by the merge and returned; the id is kept when the patch has none |
| LocalAdapter.InsertDesc | lib/storage/local-adapter.ts:134-136 | inserting into a most-recent-first list keeps it sorted and adds exactly the one record |
| LocalAdapter.SortDesc | lib/storage/local-adapter.ts:134-136 | the sort result is ordered by occurrence time descending and is a permutation of the input |
| LocalAdapter.ApplyLimit | lib/storage/local-adapter.ts:138-142 | the result is a prefix; no limit or 0 keeps everything; a positive limit keeps min(limit, length); a negative one drops that many from the end |
| LocalAdapter.PrefixIsNewest | lib/storage/local-adapter.ts:138-142 | a prefix of a sorted list is sorted, a sub-multiset, and no record left out is newer than a record kept |
| LocalAdapter.GetLogs | lib/storage/local-adapter.ts:130-143 | the result is sorted most recent first and is a sub-multiset of the stored records; without a limit (or with 0) it is a permutation of all of them; a positive limit gives min(limit, count) records, and anything left out is no newer than anything returned |
| LocalAdapter.GetLastLog | lib/storage/local-adapter.ts:145-148 | none exactly when nothing is stored; otherwise a stored record that no stored record is newer than |
| LocalAdapter.DeleteLog | lib/storage/local-adapter.ts:150-154 | no stored record keeps the id; every other record keeps its multiplicity and order; an absent id is not an error; user and PIN are kept |
| LocalAdapter.ExportData | lib/storage/local-adapter.ts:156-163 | the export carries the stored records, the current user, the clock reading and version "2.0.0" |
| LocalAdapter.ImportData | lib/storage/local-adapter.ts:165-169 | a payload without a `logs` array changes nothing; otherwise the stored list becomes that array; user and PIN are kept |
| LocalAdapter.ExportImportRoundTrip | lib/storage/local-adapter.ts:156-169 | importing an export leaves the stored records, user and PIN as they were |
| LocalAdapter.UnavailableDegrades | lib/storage/local-adapter.ts:26-99 | with storage unavailable, sign-up and sign-in fail, there is no user, reads are empty, and create, update, delete and import write nothing |
| LocalAdapter.CreateThenReadBack | lib/storage/local-adapter.ts:101-148 | a created record newer than all stored ones is what the last-log read returns |
| LocalAdapter.UpdateTwice | lib/storage/local-adapter.ts:115-128 | two updates of the same record equal one update with the later patch merged over the earlier, at the same position |
| Schemas.CompoundIssuesEmptyIff | lib/schemas.ts:4-7 | the compound checks report nothing exactly when every compound has a non-empty name and dose |
| Schemas.TagIssuesEmptyIff | lib/schemas.ts:46-48 | a tag list reports nothing exactly when every element belongs to its enumeration; repeats are not rejected |
| Schemas.IssuesEmptyIffValid | lib/schemas.ts:40-50 | validation reports no issue exactly when the entry satisfies the schema predicate |
| Schemas.MissingNameReported | lib/schemas.ts:5 | an empty compound name is reported at its index with the message "Compound name is required" |
| Schemas.InsertIsEntryWithoutIds | lib/schemas.ts:55-58 | the insert schema accepts an entry exactly when the entry schema accepts it with id and user id removed |
| Schemas.CompoundsAndNotesUnconstrained | lib/schemas.ts:44-49 | an empty compound list and any notes value (absent, null or text) keep a valid entry valid |
| Schemas.SentimentBounds | lib/schemas.ts:45 | 0, 6 and 2.5 are rejected; null and 3 are accepted |
| Schemas.MergeTwice | lib/storage/local-adapter.ts:123 | two successive `{...e, ...p}` merges equal one merge of the combined patch; keys no patch carries keep their value |
| Schemas.AsPatch | components/logs/SmartLogger.tsx:47-55 | the save payload used as a patch carries no ids and turns any record into the payload with that record's ids |
| Schemas.SentimentOptionsMatchRange | lib/schemas.ts:63-69 | the five options carry 1..5 in order, and a score is valid and present exactly when some option carries it |
| Provider.Detect | lib/storage/provider.tsx:24-45 | detection makes the context ready, with the adapter matching the mode; without the remote backend the mode is local; with it, the mode is local exactly when the preference is "local" |
| Provider.SwitchMode | lib/storage/provider.tsx:50-60 | switching to the remote backend while it is unavailable changes nothing, including the preference; any other switch sets the mode and a matching adapter and persists the mode's name |
| Provider.SwitchThenDetect | lib/storage/provider.tsx:26-60 | after a successful switch, detection with the same availability picks the same mode |
| Provider.MountedThenDetected | lib/storage/provider.tsx:18-44 | before detection the adapter is local and not ready; after detection it is ready |
| SmartLogger.NotesValue | components/logs/SmartLogger.tsx:54 | the notes are sent as null exactly when the field is empty, otherwise as the text |
| SmartLogger.Payload | components/logs/SmartLogger.tsx:47-55 | the payload carries the form's time, compounds, score and tags, the notes as above, and no ids |
| SmartLogger.PlanSave | components/logs/SmartLogger.tsx:41-67 | no call exactly when the compound list is empty; an update of the remembered id exactly when a non-empty id is remembered; otherwise a create of the payload |
| SmartLogger.FinishSave | components/logs/SmartLogger.tsx:57-76 | a created record's id is remembered; success shows saved and failure returns to idle, keeping the remembered id; the other form fields are unchanged |
| SmartLogger.SaveLocal | components/logs/SmartLogger.tsx:41-76 | an empty compound list saves nothing and changes nothing |
| SmartLogger.CreateThenUpdate | components/logs/SmartLogger.tsx:57-67 | the first save creates one record and remembers its id; the next save updates that record in place, so one record holds the latest form |
| SmartLogger.FailedSaveKeepsId | components/logs/SmartLogger.tsx:71-76 | an update whose record is gone keeps the remembered id and the store and returns to idle |
| SmartLogger.CopyYesterday | components/logs/SmartLogger.tsx:99-123 | with no previous entry the form is unchanged; otherwise compounds, tags and score are copied, notes cleared and the time reset, and the save state is kept |
| SmartLogger.CopyThenSave | components/logs/SmartLogger.tsx:99-119 | copying the newest stored entry and saving appends one record that repeats its compounds, score and tags, with null notes and the new time |
| SmartLogger.AddCompound | components/logs/SmartLogger.tsx:125-127 | the compound is appended and nothing else changes |
| SmartLogger.RemoveCompound | components/logs/SmartLogger.tsx:129-131 | an in-range index drops exactly that compound and keeps the rest in order; any other index changes nothing |
| SmartLogger.UpdateCompound | components/logs/SmartLogger.tsx:133-135 | only the compound at an in-range index is replaced and the length is kept; any other index changes nothing |
| SmartLogger.AddThenRemove | components/logs/SmartLogger.tsx:125-131 | adding a compound and removing it at its index restores the form |
| TagSelector.Toggle | components/logs/TagSelector.tsx:14-20 | the toggled tag is selected afterwards exactly when it was not before; an absent tag is appended at the end; a present one loses every occurrence; the other tags keep their counts and relative order |
| TagSelector.ToggleTwice | components/logs/TagSelector.tsx:14-20 | toggling an absent tag twice gives the list back |
| TagSelector.ToggleKeepsNoRepeats | components/logs/TagSelector.tsx:14-20 | a list without repeats stays without repeats; the toggled tag occurs once or not at all |
| CompoundChip.SelectDose | components/logs/CompoundChip.tsx:22-25 | the handed-up compound keeps the name and takes exactly the chosen dose; the popover closes |
| CompoundChip.CustomDose | components/logs/CompoundChip.tsx:27-32 | a blank entry hands up nothing and changes nothing; otherwise the compound takes the entry with only surrounding whitespace removed, non-empty, and the popover closes |
| CompoundChip.UpdatesAreValid | components/logs/CompoundChip.tsx:16-32 | every handed-up compound keeps the name and, for a named compound, satisfies the compound schema |
| CompoundAutocomplete.SetQuery | components/logs/CompoundAutocomplete.tsx:36-40 | a query under two characters empties and hides the suggestions; a longer one leaves them as they are |
| CompoundAutocomplete.Arrive | components/logs/CompoundAutocomplete.tsx:46-48 | a reply shows its suggestions, with a missing list read as empty |
| CompoundAutocomplete.FetchFailed | components/logs/CompoundAutocomplete.tsx:49-51 | a failed lookup empties the suggestions and leaves them shown or hidden as they were |
| CompoundAutocomplete.FailureLikeEmptyReply | components/logs/CompoundAutocomplete.tsx:46-51 | a failure and a reply without a list agree exactly when the suggestions were already shown; after either, Enter adds the query itself |
| CompoundAutocomplete.Select | components/logs/CompoundAutocomplete.tsx:64-69 | the picked name is added with an empty dose, and the query and suggestions are cleared and hidden |
| CompoundAutocomplete.KeyDown | components/logs/CompoundAutocomplete.tsx:71-82 | anything but Enter with a query of two or more characters does nothing; Enter with no suggestions adds the query and clears it; Enter with suggestions adds the first one and resets the box |
| CompoundAutocomplete.EnterResetsBox | components/logs/CompoundAutocomplete.tsx:64-82 | every compound added by Enter has an empty dose and so fails the compound schema, and the box ends empty and hidden |
| LogHistory.SentimentColor | components/logs/LogHistory.tsx:21-26 | null or 0 is neutral, 4 and up green, exactly 3 yellow, anything else red: each band with its exact condition |
| LogHistory.SentimentEmoji | components/logs/LogHistory.tsx:28-31 | an unscored entry gets the neutral face; otherwise the emoji of the option carrying the score, or the neutral face when none does |
| LogHistory.ValidScoreDisplay | components/logs/LogHistory.tsx:21-31 | on valid scores none is neutral, below 3 red, and the emoji is the option's own |
| LogHistory.TopCompounds | components/logs/LogHistory.tsx:37 | at most the first three compounds are shown, in order |
| LogHistory.MoreCount | components/logs/LogHistory.tsx:71-75 | the "+N more" badge appears exactly when there are more than three compounds |
| LogHistory.SummaryCoversAll | components/logs/LogHistory.tsx:37-75 | the shown chips and N account for every compound: N is the length minus three |
| LoggingDrawer.ActiveInputs | components/LoggingDrawer.tsx:29-35 | one input per active compound at its default dose: as many as there are active compounds, and exactly their inputs |
| LoggingDrawer.ActiveInputsConcat | components/LoggingDrawer.tsx:29-35 | the inputs follow catalogue order: those of a concatenation are those of each part, in order |
| LoggingDrawer.InitInputs | components/LoggingDrawer.tsx:26-37 | inputs are filled only while they are empty and the catalogue is not |
| LoggingDrawer.Max0 | components/LoggingDrawer.tsx:45 | the clamp is never negative, at least its argument, and either the argument or 0 |
| LoggingDrawer.DoseChange | components/LoggingDrawer.tsx:41-49 | only the inputs of the compound change, to max(0, dose + delta); the length is kept |
| LoggingDrawer.DirectEdit | components/LoggingDrawer.tsx:131-139 | only the inputs of the compound change, to the typed number or 0 when it is not one |
| LoggingDrawer.StepNeverNegative | components/LoggingDrawer.tsx:41-49 | a stepped dose is never negative, and a non-negative step from a non-negative dose is exact |
| LoggingDrawer.SavedItems | components/LoggingDrawer.tsx:56-62 | the saved items are the positive inputs, in order, with their compound and dose; every saved dose is positive |
| LoggingDrawer.SavedIffPositive | components/LoggingDrawer.tsx:56-62 | an input is saved exactly when it is present and its dose is positive |
| LoggingDrawer.Save | components/LoggingDrawer.tsx:51-73 | one log is appended with the date, the saved items, the scores and notes and no preset; the scores reset to 5 and the notes to empty |
| AuthGuard.ScreenOf | components/AuthGuard.tsx:19-134 | blank exactly before mounting; setup exactly when no non-empty PIN is stored; login exactly when locked with a PIN; the app exactly when unlocked with a PIN |
| AuthGuard.OnInput | components/AuthGuard.tsx:52-55 | the field keeps only digits and the error is cleared |
| AuthGuard.HandleSetPin | components/AuthGuard.tsx:25-32 | exactly four digits become the PIN and unlock; anything else shows "PIN must be exactly 4 digits" and leaves the store alone |
| AuthGuard.HandleLogin | components/AuthGuard.tsx:81-89 | the field is cleared either way; a matching PIN unlocks and clears the error; otherwise "Incorrect PIN" shows and the store is unchanged |
| AuthGuard.SetupThenLogin | components/AuthGuard.tsx:24-89 | a valid setup opens the app; after locking, login opens it again exactly when the typed digits match |
| AuthGuard.DigitsAccepted | components/AuthGuard.tsx:25-53 | four typed digits pass the filter unchanged and become the PIN |
| Text.Trim | components/logs/CompoundChip.tsx:28-29 | the result is the input with whitespace removed from its two ends only, and starts and ends with non-whitespace |
| Text.TrimEmptyIffBlank | app/settings/page.tsx:67 | the trimmed name is empty exactly when the name is all whitespace |
| Text.DigitsOnly | components/AuthGuard.tsx:53 | the result holds only digits and every digit of the input as often as the input does, in their original order |
| Text.DigitsOnlyKeepsDigits | components/AuthGuard.tsx:53 | the filter leaves a digit string unchanged |
| SettingsPage.HandleAddCompound | app/settings/page.tsx:66-84 | a blank name adds nothing and keeps the form; otherwise one active compound is appended under the untrimmed name and the form resets to its defaults |
| SettingsPage.HandleAddPreset | app/settings/page.tsx:86-101 | a blank name or an empty selection adds nothing; otherwise one preset with the selection is appended and the form resets |
| SettingsPage.SwitchCompound | app/settings/page.tsx:546-566 | switching on appends the compound at its default dose; switching off removes exactly its entries and keeps every other entry as often as before and in order |
| SettingsPage.SwitchOnOff | app/settings/page.tsx:546-566 | switching an unselected compound on and off restores the selection |
| SettingsPage.EditPresetDose | app/settings/page.tsx:577-586 | only that compound's entries take the typed dose; the length is kept |
| SettingsPage.HandleImport | app/settings/page.tsx:116-137 | no file changes nothing; unparseable text or null shows "Failed to parse backup file"; a value without compounds, presets or logs shows "Invalid backup file format"; anything else is imported with the error cleared |
| SettingsPage.ExportedFileImports | app/settings/page.tsx:103-137 | an exported file is accepted and restores the exported collections, keeping the PIN |
| SettingsPage.AddAll | app/settings/page.tsx:153-155 | adding drafts in turn appends one compound per draft, in order, and keeps the earlier compounds |
| SettingsPage.HandleLoadSampleData | app/settings/page.tsx:148-158 | without confirmation nothing changes; with it the sixteen sample compounds are appended in order, all active |
| SettingsPage.HandleToggleCompound | app/settings/page.tsx:144-146 | only the active flag of the compounds with the id changes |
| SettingsPage.HandleSaveApiKey | app/settings/page.tsx:139-142 | only the API key changes; the theme and all data are kept |
| SeedData.SeedCompoundsWellFormed | lib/seed-data.ts:4-24 | there are sixteen sample compounds, each active, named and with a positive default dose |
| SeedData.SeedPresetsWellFormed | lib/seed-data.ts:27-78 | there are five sample presets, each with at least one item and every dose positive |
| Dashboard.DateList | app/page.tsx:24 | one date per entry, in entry order |
| Dashboard.SortAsc | app/page.tsx:24 | sorting distinct days gives a strictly ascending list with the same members |
| Dashboard.SortedDays | app/page.tsx:24 | the de-duplicated sorted dates are strictly ascending, are exactly the days with an entry, and are as many as those days |
| Dashboard.Streak | app/page.tsx:24-39 | the streak never exceeds the number of distinct days; a log dated after today makes it 0; otherwise today back to today minus (streak - 1) all have entries and the day before has none |
| Dashboard.StreakStops | app/page.tsx:28-39 | where the backward walk stops, the count is the length of the run of days ending today, or 0 when a later day exists |
| Dashboard.LastLog | app/page.tsx:48-50 | none exactly when there are no entries, otherwise the last in insertion order |
| Dashboard.LastLogAfterAdd | app/page.tsx:48-50 | after an entry is added, it is the last entry whatever its date |
| ActivityHeatmap.Step | components/ActivityHeatmap.tsx:14-27 | an entry on a known day adds its scores and one to that day only; an entry on a new day appends that day with count 1; the total count grows by one |
| ActivityHeatmap.Group | components/ActivityHeatmap.tsx:12-27 | the grouped days are the distinct entry dates in first-occurrence order |
| ActivityHeatmap.StepHolds | components/ActivityHeatmap.tsx:14-27 | one step keeps each day's count and score totals equal to those of the entries on that day |
| ActivityHeatmap.GroupStats | components/ActivityHeatmap.tsx:14-27 | each day's count is the number of entries on that day, at least one, and its totals are the sums of their scores |
| ActivityHeatmap.CountsSumToEntries | components/ActivityHeatmap.tsx:14-27 | the day counts add up to the number of entries |
| ActivityHeatmap.Level | components/ActivityHeatmap.tsx:36-48 | the level is in 1..4; anxiety above 7 gives 1; otherwise functionality of 8 and up gives 4, of 6 and up 3, of 4 and up 2, and below 4 gives 1, each band with its exact condition |
| ActivityHeatmap.LevelMonotone | components/ActivityHeatmap.tsx:40-48 | a higher average functionality never lowers the level |
| ActivityHeatmap.Heatmap | components/ActivityHeatmap.tsx:10-58 | one entry per distinct date in first-occurrence order, with that date's entry count and the level of that date's average scores, in 1..4 |

## Left out

- The remote adapter, the API routes and the hosted database clients are not modelled. The selector takes remote availability as a boolean.
- The local adapter's `signOut` has an empty body and is not modelled.
- JSON serialisation is abstracted: stored blobs either parse to a typed value or are corrupt. A parsed value of the wrong shape is not modelled.
- Import is modelled only for keys holding arrays or objects. A backup key holding a falsy non-array (0, "") counts as absent.
- `Date` parsing and formatting are not modelled: days are integers and timestamps milliseconds. The ISO day strings sort in day order for four-digit years, which the integer order assumes.
- Timers, debouncing and asynchronous races are not modelled: the auto-save delay, the suggestion lookup delay and the two-second return of the save status to idle. A save is one atomic step, so the transient "saving" state is not modelled.
- The logging drawer calls `Date.now()` once per saved dose item; the model uses one clock reading for all items.
- String lengths count characters, not UTF-16 code units. This affects the schema's minimum length and the autocomplete's two-character threshold.
- The PIN field's browser `maxLength` of 4 is not modelled.
- The preset dose edit stores `Number(text)`, which can be NaN. The model takes the parsed number as a real.
- The sample presets name compounds by fixed slugs ('bupropion', ...), which never match generated compound ids. The settings page never loads them, so they are modelled only as a constant table.
- The trends chart and the dashboard's seven-day anxiety average are not modelled. Both depend on `toFixed` rounding and locale date strings.
- Rendering is not modelled: styling, dialogs and the calendar widget. This includes the history card showing a dose only when it is non-empty and notes only when present.
- LocalAdapter.GetLogs: states sortedness and the permutation, but not the relative order of records with equal times, which the stable sort keeps in stored order.
- SmartLogger.SaveLocal: its own contract states only the empty-list case; the create and update behaviour is stated by SmartLogger.CreateThenUpdate and SmartLogger.FailedSaveKeepsId.
