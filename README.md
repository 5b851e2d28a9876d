# SHARKtools QC sensors — a Dafny model of the plugin's core

SHARKtools QC sensors is a Tkinter plugin for checking the quality of sensor data
(CTD profiles, ferrybox and fixed-platform time series). This project models the
part of the plugin that decides what happens, leaving out the widgets:

- **The main window** (`AppShell`, from `app.py`):
  - choosing data files: the filename filter per sampling type;
  - the "; "-joined data-file text and how loading splits it back into paths;
  - the remembered open directory per sampling type;
  - the stored sampling-type and settings-file choices, and the platform depth offered for fixed platforms;
  - the file-loading loop with its error handling and its one depth retry;
  - the loaded-files list and deleting a loaded file;
  - refreshing the started pages, and `show_frame`.
- **The start page** (`StartPage`, from `gui/page_start.py`):
  - the 4 × 8 frame grid;
  - the three page buttons, placed row by row in sorted label order.
- **The profile page** (`ProfilePage`, from `gui/page_profile.py`):
  - the automatic-QC run over the selected routines and how each of its failures is reported;
  - the reference-file list;
  - the plotted-parameter list, which needs `time`, `lat`, `lon` and `depth`;
  - the current-file selection;
  - the loaded-data check;
  - the callbacks of the data filter.
- **The sampling-type settings page** (`SettingsPage`, from `gui/page_sampling_types_settings.py`):
  - the user's parameter list;
  - dependent parameters;
  - the flag, mandatory-column and property grids;
  - the parameter- and station-mapping panels;
  - the mandatory-column popup;
  - saving a settings file.

The pages and the main window are classes whose fields are the widget and session state
the source reads and writes. Each method's `ensures` gives the whole new state in terms
of the old one. Loops are methods with invariants, proved equal to recursive
specification functions (`LoadFiles`/`LoadLoop`, `RunQcLoop`/`QcLoop`, `RefFileList`/`RefFiles`,
`GatherParameters`/`AllParameters`, `DataFileTextOf`/`DataFileText`, `ParseDataFileList`/`DataFileList`,
`PlaceInOrder`/`PlacedUpTo`). Lemmas prove what those functions mean.

Anything outside the plugin is a parameter of the operation that uses it:
- the GISMO session (loading, QC routines, parameter lists, file paths);
- the user-settings store;
- file dialogs and message-box answers.

`session.load_file` and `session.run_automatic_qc` are functions from the call made to its
outcome. A message box is recorded as a `Notice` holding its title and the datum it reports.

Support modules:
- **`Text`**: Python's `split`, `join`, `strip`, `in`, `startswith`, `replace` and `lower`.
- **`Paths`**: `posixpath.dirname`, `basename` and `join`.
- **`SortedSets`**: `sorted(set(...))` on strings.
- **`Dicts`**: insertion-ordered dictionaries.
- **`Notices`**: message boxes.
- **`FileLabels`**: the `"<sampling type>: <file id>"` labels and `get_file_id`.

Three behaviours of the code that the model keeps as written:
- **`_run_qc`** returns after every missing-input failure of a QC routine (`gui/page_profile.py:493`),
  including the "no parameter list" and "invalid save directory" cases, so no later routine runs.
  `ProfilePage.QcStep` ends all of them with `Stopped`.
- **`show_frame`** (`app.py:742`) reads `page`, which the method never assigns. At module level `page` is still
  bound by the loop at `app.py:47-49` to the last registered page class, `PageUser`. So `active_page`
  always becomes `PageUser`, the page-history test never matches, and
  `update_page` (i.e. `update_all`) is always reached. `AppShell.App.ShowFrame` models this.
- **`_load_file`**: the depth retry runs inside the exception handler (`app.py:603-611`). A retry that fails
  therefore escapes `_load_file`; `LoadStep` ends it with `Raised`.

## Model

| member | source | states |
|---|---|---|
| AppShell.WithDefault | app.py:535-540 | `setdefault`: the key is present afterwards, with its old value if it had one and the default otherwise; no other key is added or changed |
| AppShell.WithDefaultIdempotent | app.py:535-540 | a second `setdefault` of the same key changes nothing and returns the first call's value |
| AppShell.OpenDirectoryKey | app.py:536-539 | with no suffix the key is `open_directory`; otherwise it is `open_directory_` followed by the suffix with every space replaced by `_` |
| AppShell.OpenDirectoryKeyInjective | app.py:536-539 | suffixes without `_` get distinct keys |
| AppShell.OpenDirectoryKeyShared | app.py:536-539 | "CTD DV" and "CTD_DV" share one stored directory |
| AppShell.OpenDirectoryOf | app.py:535-540 | reference definition of `get_open_directory`: the stored directory under the suffix's key, or the input directory; `OpenDirectoryRoundTrip` relates it to `set_open_directory` |
| AppShell.StoreOpenDirectory | app.py:542-549 | `set_open_directory` stores under exactly the suffix's key and keeps every other key |
| AppShell.OpenDirectoryRoundTrip | app.py:535-549 | after `set_open_directory`, `get_open_directory` with the same suffix returns the directory, or its dirname when a file was given; a suffix with another key reads what it read before |
| AppShell.KeptPaths | app.py:440-446 | the kept paths are a subsequence of the chosen paths, never longer |
| AppShell.KeptPathsMembers | app.py:440-446 | a path is kept iff it was chosen and its file name passes the sampling type's prefix test ('ctd_profile_' for CTD DV, 'nodc_ctd_profile_' for CTD NODC) |
| AppShell.KeptPathsAll | app.py:440-446 | when every file name passes, all chosen paths are kept in order |
| AppShell.ShownEntries | app.py:447-450 | one entry per kept path |
| AppShell.ShownEntriesAt | app.py:447-450 | the first kept path is shown in full; every later one by its file name only |
| AppShell.ShownEntriesAppend | app.py:447-450 | adding a path adds its full path when it is the first entry and its file name otherwise |
| AppShell.JoinedToDirectory | app.py:585-588 | each later piece becomes the first file's directory joined with the stripped piece |
| AppShell.DataFileList | app.py:579-590 | without ';' the text is the only file; otherwise there is one path per ';'-piece, the first stripped, each later one stripped and joined to the first one's directory |
| AppShell.DataFileListOfJoin | app.py:579-590 | splitting a "; "-joined list of clean entries gives the first entry back and joins the others to its directory |
| AppShell.DataFileListOfText | app.py:579-590 | round trip: the text written for files chosen in one directory splits back into exactly those full paths |
| AppShell.ShownOfFullPaths | app.py:440-452 | for files chosen in one directory, the shown entries are the first full path followed by the other file names |
| AppShell.FullPaths | app.py:587 | each name joined to the directory |
| AppShell.PathJoinWithout | app.py:587 | joining two paths brings in no character other than '/' |
| AppShell.JoinHoldsSeparator | app.py:579-580 | text joined from two or more entries holds ';', so loading takes the split branch |
| AppShell.LoadStep | app.py:592-622 | each file is first loaded without a depth; a second call, with the platform depth, is the only other call |
| AppShell.LoadStepGoesOn | app.py:592-622 | loading goes on after a file iff it loaded, or its path was missing, or its missing argument was not the depth, or the depth retry succeeded |
| AppShell.LoadStepRetries | app.py:603-611 | the retry is made iff the first error names the depth and a depth is given; an uncaught error while loading comes only from the retry |
| AppShell.FirstAttempts | app.py:592-596 | at most one first attempt per call |
| AppShell.FirstAttemptsAppend | app.py:592-596 | first attempts of consecutive calls concatenate |
| AppShell.FirstAttemptsOfStep | app.py:592-596 | each step makes exactly one first attempt, at its own path |
| AppShell.LoadLoopGoesOn | app.py:592-622 | the whole load goes on iff every file's step goes on |
| AppShell.LoadLoopTriesAll | app.py:592-622 | a load that goes on tried every listed file once, in order |
| AppShell.LoadLoopCalls | app.py:553-566 | every load call carries the chosen sampling type and settings file |
| AppShell.LoadLoopStopsAt | app.py:592-622 | once a step stops the loop, no later file is tried |
| AppShell.LoadLoop | app.py:592-622 | reference definition of the load loop: the steps of the listed files in order, stopping after the first step that does not go on; its meaning is stated by `LoadLoopGoesOn`, `LoadLoopTriesAll`, `LoadLoopCalls` and `LoadLoopStopsAt` |
| AppShell.LoadFiles | app.py:592-622 | the loading loop gives the report the load specification defines |
| AppShell.LoadOneFile | app.py:553-622 | one file's load, with its exception handling, gives the step the specification defines |
| AppShell.ParseDataFileList | app.py:578-590 | the splitting loop builds the list `DataFileList` defines |
| AppShell.KeepsFile | app.py:443-446 | reference definition of the prefix test: a CTD DV file must start with 'ctd_profile_', a CTD NODC file with 'nodc_ctd_profile_', any other sampling type keeps every file; used by `KeptPathsMembers` |
| AppShell.DataFileText | app.py:439-452 | reference definition of the data-file text: the kept paths, the first in full and the others by name, joined with "; "; `DataFileListOfText` proves it splits back into the chosen paths |
| AppShell.DataFileTextOf | app.py:439-452 | the filtering loop writes the text `DataFileText` defines |
| AppShell.Filter | app.py:716-721 | the pages updated are a subsequence of the frames |
| AppShell.FilterMembers | app.py:716-721 | a page is updated iff it is a frame and has been started |
| AppShell.FilterNoDuplicates | app.py:716-721 | no page is updated twice in one `update_all` |
| AppShell.FilterPages | app.py:716-721 | the loop over the frames updates the pages `Filter` selects |
| AppShell.LoadedLabels | app.py:634-639 | one label per loaded file id |
| AppShell.LabelsFor | app.py:637-638 | one label per file id of a sampling type |
| AppShell.FileIdsOf | app.py:424 | one file id per label |
| AppShell.FileIdsOfAppend | app.py:424 | taking file ids distributes over concatenation |
| AppShell.FileIdsOfLabelsFor | app.py:637-638 | round trip: the ids read back from a sampling type's labels are its file ids |
| AppShell.FileIdsOfLoadedLabels | app.py:634-639 | round trip: the ids read back from the loaded-files list are the session's file ids, in order |
| AppShell.LoadedLabelsOf | app.py:634-639 | the nested loop builds the labels `LoadedLabels` defines |
| AppShell.StoreIfGiven | app.py:475-481 | an empty choice is not stored; a given one is stored under its key; every other key is kept |
| AppShell.App.constructor | app.py:65-158 | the state `__init__` and `startup` leave before the closing `show_frame('PageStart')` (line 158): the user's stored paths, file types and depths are those `main_app.user` holds (lines 121-122); the frames are the six registered pages in order; no page is started; nothing is loaded; the sampling-type and settings-file choices, the data-file text and the depth are empty; the load button (line 399) and the depth entry (line 389) start disabled |
| AppShell.App.GetOpenDirectory | app.py:535-540 | returns the stored directory for the suffix, or the input directory, which is then stored |
| AppShell.App.SetOpenDirectory | app.py:542-549 | the user's paths become `StoreOpenDirectory` of the old paths |
| AppShell.App.GetDataFilePaths | app.py:430-454 | with no file chosen only the open-directory default is stored; otherwise the directory of the first file is stored, the sampling type is selected, the kept files' text is set, and the settings follow `_set_settings` |
| AppShell.App.SetSettings | app.py:483-519 | with a file: the stored choices are applied, an information notice is shown, the depth is offered for fixed platforms and loading is enabled; without one: loading is disabled and the depth is cleared |
| AppShell.App.ApplyStoredChoices | app.py:495-502 | the stored sampling-type and settings-file choices default to '' and, when set, replace the selections |
| AppShell.App.OfferDepth | app.py:506-519 | a 'fixed platform' type enables the depth entry with the depth stored under the first ten characters of the file name, defaulting it; other types clear and disable it |
| AppShell.App.SaveTypeAndFile | app.py:472-481 | with no sampling type loaded nothing is stored; otherwise each non-empty selection is stored |
| AppShell.App.LoadFile | app.py:551-632 | with no data-file text or settings path, only the help text changes; otherwise the report is the load loop over the split text, and if it went on, the text is cleared, the list is refreshed, the pages are updated and loading is enabled again |
| AppShell.App.LoadListed | app.py:578-632 | runs the load loop over `DataFileList` of the text, records its calls and notices, and finishes only when it went on |
| AppShell.App.Record | app.py:553-622 | the report's calls and notices are appended, and loading is disabled |
| AppShell.App.FinishLoad | app.py:625-632 | the text is cleared, the list shows the loaded labels, the started pages are updated, loading is enabled and the help says the file loaded |
| AppShell.App.UpdateLoadedFilesWidget | app.py:634-639 | the list shows `LoadedLabels` of the session's files |
| AppShell.App.DeleteSource | app.py:424-428 | the file id after the last ':' of the entry, stripped, is removed, and the started pages are updated |
| AppShell.App.UpdateAll | app.py:716-721 | exactly the started frames, in registration order, are updated |
| AppShell.App.ShowFrame | app.py:724-748 | an unknown page changes nothing; a known one is started once, the active page becomes PageUser (`LastRegisteredPage`, the page the registration loop at lines 47-49 leaves bound), the old active page becomes the previous one and the started pages are updated; every started page was started exactly once |
| FileLabels.FileIdOf | gui/page_profile.py:1281-1287 | the file id is never longer than the label |
| FileLabels.FileIdOfClean | gui/page_profile.py:1281-1287 | a file id holds no ':' and has no surrounding spaces |
| FileLabels.SplitPieceLength | gui/page_profile.py:1287 | no ':'-piece is longer than the label |
| FileLabels.FileIdOfLabel | gui/page_profile.py:1281-1287 | round trip: a clean id written as a "<type>: <id>" label reads back unchanged |
| FileLabels.FileIdOfColonId | app.py:424 | only the part after the last ':' survives, so an id with a ':' inside does not read back whole |
| Text.Strip | app.py:583 | `str.strip()`: never longer than the text |
| Text.StripFacts | app.py:583 | the stripped text is a slice of the text with no space at either edge |
| Text.StripClean | app.py:583 | a text without edge spaces is unchanged by stripping |
| Text.StripPadded | app.py:583 | stripping the "; " padding before an entry gives the entry back |
| Text.Split | app.py:582 | `str.split(sep)`: at least one piece, and no piece holds the separator |
| Text.SplitWithoutSeparator | app.py:580-590 | a text without the separator splits into itself alone |
| Text.SplitAround | app.py:582 | splitting at a separator splits each side separately |
| Text.JoinSplit | app.py:582 | joining the pieces with the separator gives the text back |
| Text.SplitJoin | app.py:582 | splitting a join of separator-free pieces gives the pieces back |
| Text.SplitJoinPadded | app.py:582 | splitting a "; "-join gives the first piece and then each later one behind the padding |
| Text.StripEach | gui/page_sampling_types_settings.py:529 | each piece stripped, in order |
| Text.StripEachSplitJoin | gui/page_sampling_types_settings.py:529 | round trip: clean entries joined with "; " split and strip back into themselves |
| Text.LastPieceAfterSeparator | app.py:424-428 | the last ':'-piece is the text after the last separator |
| Text.ReplaceChar | app.py:546 | `replace(" ", "_")`: every space becomes '_', the other characters stay, and no space is left |
| Text.LowerAscii | app.py:506 | `lower()`: same length and no upper-case letter left |
| Text.TakePrefix | app.py:508 | `s[:10]`: the first ten characters, or all of a shorter text |
| Paths.AfterLastSlash | app.py:585 | the position after the last '/', with no '/' after it |
| Paths.Basename | app.py:442 | `os.path.basename`: the tail after the last '/', holding no '/' |
| Paths.Dirname | app.py:585 | `os.path.dirname`: a prefix of the path that is empty, only slashes, or does not end in '/' |
| Paths.DirnameBasenameOfJoin | app.py:588 | `os.path.join` of a directory and a name splits back into the two |
| Paths.DirnameOfRejoin | app.py:585-588 | rejoining a path's dirname and basename keeps both |
| Dicts.Keys | gui/page_sampling_types_settings.py:620 | the keys in insertion order |
| Dicts.Get | gui/page_sampling_types_settings.py:105 | `dict.get`: nothing iff the key is absent, otherwise a stored entry |
| Dicts.Set | gui/page_sampling_types_settings.py:617 | storing keeps the key order and adds a new key at the end |
| Dicts.Remove | gui/page_sampling_types_settings.py:606 | deleting leaves exactly the other entries |
| Dicts.GetSetSame | gui/page_sampling_types_settings.py:617 | a stored value reads back |
| Dicts.GetSetOther | gui/page_sampling_types_settings.py:617 | storing one key leaves the others' values |
| Dicts.GetRemoveOther | gui/page_sampling_types_settings.py:606 | deleting one key leaves the others' values |
| Dicts.SetDistinct | gui/page_sampling_types_settings.py:617 | storing keeps the keys distinct |
| SortedSets.LessTotal | gui/page_sampling_types_settings.py:586 | the string order `sorted` uses is total |
| SortedSets.LessTransitive | gui/page_sampling_types_settings.py:586 | and transitive |
| SortedSets.StrictlySortedNoDuplicates | gui/page_sampling_types_settings.py:586 | a strictly sorted list has no duplicates |
| SortedSets.Insert | gui/page_sampling_types_settings.py:586 | inserting keeps the list strictly sorted and adds exactly the one name |
| SortedSets.SortedDistinct | gui/page_sampling_types_settings.py:586 | `sorted(set(xs))`: strictly sorted, holding exactly the names of `xs` |
| SortedSets.SortedUnique | gui/page_sampling_types_settings.py:586 | two strictly sorted lists with the same names are equal |
| SortedSets.SortedDistinctOfSame | gui/page_sampling_types_settings.py:586 | `sorted(set(xs))` is the one strictly sorted list with the names of `xs` |
| SortedSets.RemoveFirst | gui/page_profile.py:1127 | `pop(index(x))`: one name fewer, and no other name lost |
| SortedSets.RemoveFirstSorted | gui/page_profile.py:1127 | popping from a strictly sorted list keeps it sorted and removes the name |
| StartPage.GridCell | gui/page_start.py:63-82 | the k-th button goes in row k div 8, column k mod 8 |
| StartPage.GridCellNext | gui/page_start.py:79-82 | the next cell is one column to the right, or the first column of the next row after column 7 |
| StartPage.GridCellAt | gui/page_start.py:63-82 | row r, column c is the cell of button r·8 + c |
| StartPage.GridCellInjective | gui/page_start.py:63-82 | no two buttons share a cell |
| StartPage.GridCellInside | gui/page_start.py:31-82 | a button lands inside the 4 × 8 grid iff it is among the first 32 |
| StartPage.ButtonOrder | gui/page_start.py:55-65 | in sorted order the labels are "CTD Profiles", "Ferrybox\nand\nfixed platforms", "Sampling Type Settings" |
| StartPage.PageOf | gui/page_start.py:66 | the page looked up is the one the label maps to |
| StartPage.PagesDistinct | gui/page_start.py:55-66 | distinct labels open distinct pages when the table's pages are distinct |
| StartPage.ButtonTable | gui/page_start.py:55-60 | every page has a colour, the labels sort as listed, and the three labels open PageProfile, PageTimeSeries and PageSamplingTypeSettings |
| StartPage.ButtonFor | gui/page_start.py:66-76 | a button opens the page its label maps to |
| StartPage.PlaceNext | gui/page_start.py:65-82 | placing the next label keeps every earlier page's button and adds the new one at the next cell |
| StartPage.PlaceNextKeeps | gui/page_start.py:65-82 | a new page's button does not disturb the buttons already placed |
| StartPage.PlaceNextPage | gui/page_start.py:70 | buttons are only keyed by pages of the table |
| StartPage.PluginButtons | gui/page_start.py:53-82 | after the loop there are exactly the three buttons: CTD Profiles (lightblue) in column 0, the ferrybox one (sandybrown) in column 1, Sampling Type Settings (green) in column 2, all in row 0 |
| StartPage.PluginPages | gui/page_start.py:55-57 | the sorted labels open PageProfile, PageTimeSeries and PageSamplingTypeSettings |
| StartPage.PluginButtonsFor | gui/page_start.py:55-76 | the three buttons, each with its label, page, colour and cell |
| StartPage.ButtonTableFits | gui/page_start.py:55-60 | the plugin's tables agree, and the sorted labels are the plugin order |
| StartPage.PlaceAll | gui/page_start.py:63-82 | the loop in sorted label order places every label's button at its cell |
| StartPage.PlaceInOrder | gui/page_start.py:63-82 | the placing loop for any label order with no duplicates |
| StartPage.PageStart.constructor | gui/page_start.py:17-23 | no frames, texts or buttons yet |
| StartPage.PageStart.Startup | gui/page_start.py:25-83 | after startup the full grid exists and the page has exactly the three plugin buttons |
| StartPage.PageStart.SetButtons | gui/page_start.py:52-82 | the tables are set, and the buttons are the three plugin buttons |
| StartPage.PageStart.BuildGrid | gui/page_start.py:31-49 | every row 0..3 has frames in columns 0..7 |
| StartPage.PageStart.PlaceButtons | gui/page_start.py:63-82 | every label's button is placed in sorted order at its cell |
| ProfilePage.MissingInputNotice | gui/page_profile.py:479-492 | "No parameter selected" iff the message names both 'parameter' and 'list'; "Invalid save directory" iff it does not, and names both 'save' and 'directory'; otherwise "Unknown error" |
| ProfilePage.QcStep | gui/page_profile.py:471-493 | one routine is one call with its own options; it goes on iff it succeeded or raised ImportError, stops on a missing input, and raises on anything else; it never reports a summary |
| ProfilePage.QcFiles | gui/page_profile.py:460-467 | the files the run covers: the filtered files with "all files", otherwise the current file alone |
| ProfilePage.QcLoop | gui/page_profile.py:471-493 | reference definition of the routine loop: the steps of the selected routines in order, stopping after the first that does not go on; its meaning is stated by `QcLoopOrder`, `QcLoopGoesOn`, `QcLoopStops`, `QcLoopNoSummary` and `QcLoopStopsAt` |
| ProfilePage.RunQc | gui/page_profile.py:453-498 | reference definition of `_run_qc`: with no file only "No file selected"; otherwise the routine loop over `QcFiles` and, when it goes on, the summary; its meaning is stated by `RunQcWithoutFile` and `RunQcSummary` |
| ProfilePage.QcLoopOrder | gui/page_profile.py:471-475 | the routines are called in the selected order, each with its options; a run that goes on calls all of them |
| ProfilePage.QcLoopGoesOn | gui/page_profile.py:471-493 | the QC loop goes on iff every routine's step goes on |
| ProfilePage.QcLoopStops | gui/page_profile.py:471-493 | a loop that stops was stopped by its last call, every earlier call having gone on |
| ProfilePage.QcLoopNoSummary | gui/page_profile.py:471-493 | the loop alone never reports success |
| ProfilePage.RunQcWithoutFile | gui/page_profile.py:460-467 | without "all files" and with no current file, no routine is run and only "No file selected" is shown |
| ProfilePage.RunQcSummary | gui/page_profile.py:460-498 | with files, the run goes on iff every step went on; then all routines were called and the last notice reports the file count and the routines; a stopped run reports no summary |
| ProfilePage.QcLoopStopsAt | gui/page_profile.py:471-493 | once a step stops the loop, no later routine is called |
| ProfilePage.RunQcLoop | gui/page_profile.py:471-493 | the QC loop gives the report `QcLoop` defines |
| ProfilePage.Matching | gui/page_profile.py:143-145 | an item is added at most once per allowed prefix |
| ProfilePage.RefFiles | gui/page_profile.py:131-146 | reference definition of the reference-file list: for each loaded item in order, the prefixes it starts with; `RefFilesOnePrefix` states it for the plugin's one prefix |
| ProfilePage.Kept | gui/page_profile.py:140-145 | reference definition of the loaded items that start with one prefix, in loaded order; stated by `KeptMembers` and `KeptAppend` |
| ProfilePage.KeptAppend | gui/page_profile.py:140-145 | the reference list of concatenated lists is the concatenation of their lists |
| ProfilePage.KeptMembers | gui/page_profile.py:140-145 | an item is listed iff it is loaded (not None) and starts with the prefix |
| ProfilePage.RefFilesOnePrefix | gui/page_profile.py:131-146 | with the one allowed prefix 'PhysicalChemical', the reference files are exactly the loaded items starting with it, in loaded order |
| ProfilePage.RefFileList | gui/page_profile.py:131-146 | the nested loop builds the list `RefFiles` defines |
| ProfilePage.AllParameters | gui/page_profile.py:1122-1124 | reference definition: the parameters of every filtered file, file by file; stated by `AllParametersMembers` |
| ProfilePage.Excluding | gui/page_profile.py:1125-1127 | reference definition of the pops: each excluded name removed in turn, failing at the first that is missing; stated by `ExcludingContents`, `ExcludingSucceeds` and `ExcludingStops` |
| ProfilePage.ParameterListOf | gui/page_profile.py:1119-1127 | reference definition of the parameter list: the sorted distinct parameters of the filtered files without time, lat, lon and depth; stated by `ParameterListMeaning` |
| ProfilePage.AllParametersMembers | gui/page_profile.py:1122-1124 | a parameter is gathered iff some filtered file has it |
| ProfilePage.ExcludingContents | gui/page_profile.py:1125-1127 | popping the excluded names leaves a sorted list of exactly the other names |
| ProfilePage.ExcludingSucceeds | gui/page_profile.py:1126-1127 | the pops succeed iff every excluded name is present; otherwise `index` raises |
| ProfilePage.ExcludingStops | gui/page_profile.py:1126-1127 | once a pop fails, the whole exclusion fails |
| ProfilePage.ParameterListMeaning | gui/page_profile.py:1119-1127 | the parameter list exists iff the filtered files together have time, lat, lon and depth; it is all their other parameters, sorted without duplicates |
| ProfilePage.GatherParameters | gui/page_profile.py:1122-1124 | the gathering loop builds `AllParameters` |
| ProfilePage.ExcludeParameters | gui/page_profile.py:1126-1127 | the pop loop gives `Excluding` |
| ProfilePage.MissingDataNotices | gui/page_profile.py:1195-1209 | nothing is reported iff data is loaded and a file is selected; "No data files loaded" comes first, then "No data file selected" |
| ProfilePage.PageProfile.constructor | gui/page_profile.py:37-68 | the current file, parameter and lists are empty, and no settings are known |
| ProfilePage.PageProfile.UpdatePage | gui/page_profile.py:78-88 | the reference list becomes `RefFiles` of the loaded files |
| ProfilePage.PageProfile.UpdatePlotBackground | gui/page_profile.py:90-103 | nothing happens without a parameter; a given file id is drawn alone; otherwise the filtered files are drawn after a clear and become the current list |
| ProfilePage.PageProfile.UpdateNotebookFrameFlag | gui/page_profile.py:619-635 | the flag widget is rebuilt only once, from the first filtered file, when no settings are known and some file is filtered |
| ProfilePage.PageProfile.UpdateParameterList | gui/page_profile.py:1119-1134 | raises iff `ParameterListOf` fails; otherwise the items are that list and the current parameter is the priority pick |
| ProfilePage.PageProfile.CallbackFilterUpdate | gui/page_profile.py:412-426 | the parameter list is refreshed first, and a failing refresh changes nothing else; an unchanged filter redraws only on request; a changed one rebuilds the flag frame, redraws and updates the QC widget |
| ProfilePage.PageProfile.CheckLoadedData | gui/page_profile.py:1195-1209 | true iff data is loaded and a file is selected; the notices are `MissingDataNotices` |
| ProfilePage.PageProfile.OnSelectParameter | gui/page_profile.py:1160-1180 | the old parameter is kept; an empty choice returns; a changed one redraws the background and stores the priority; a non-empty one runs the loaded-data check |
| ProfilePage.PageProfile.ResetFileId | gui/page_profile.py:1320-1324 | type, id and path are empty and no GISMO object is held |
| ProfilePage.PageProfile.SetCurrentFile | gui/page_profile.py:1289-1302 | no selection resets the current file; a selection sets its id, path and object and clears its type |
| ProfilePage.PageProfile.CallbackFilterSelect | gui/page_profile.py:428-431 | the current file (id, path, type and GISMO object) is set, the save widget gets its path, and the parameter is selected again with the effects of `OnSelectParameter` |
| ProfilePage.PageProfile.RunQcPage | gui/page_profile.py:453-498 | the calls, notices and end are those of `RunQc`; only a run that goes on refreshes the page |
| SettingsPage.StoredList | gui/page_sampling_types_settings.py:580-581 | `setdefault('parameter_list', [])`: the stored list, or an empty one when none is stored; every save starts from it (`SaveParameterListToUser`) |
| SettingsPage.SavedParameterList | gui/page_sampling_types_settings.py:583-588 | strictly sorted, and holds exactly the given names and, when asked, the current ones |
| SettingsPage.SaveKnownNames | gui/page_sampling_types_settings.py:583-588 | saving names already in a sorted list changes nothing |
| SettingsPage.SaveParameterListIdempotent | gui/page_sampling_types_settings.py:583-588 | saving the same names again changes nothing |
| SettingsPage.DependentCandidates | gui/page_sampling_types_settings.py:564-576 | the listbox holds, sorted, exactly the selected and available parameters other than the chosen one |
| SettingsPage.SelectDependents | gui/page_sampling_types_settings.py:480-486 | an empty selection removes the parameter's dependents, a non-empty one stores it; other parameters are untouched |
| SettingsPage.Without | gui/page_sampling_types_settings.py:602-606 | deleting an item removes exactly that item and never lengthens the list |
| SettingsPage.WithoutKeepsOrder | gui/page_sampling_types_settings.py:604 | the other items keep their order: deleting from a concatenation deletes from each piece |
| SettingsPage.WithoutAbsent | gui/page_sampling_types_settings.py:604 | deleting an item that is not offered leaves the items unchanged |
| SettingsPage.FillGrid | gui/page_sampling_types_settings.py:88-93 | after the grid is reset, row r shows the r-th entry and later rows are blank |
| SettingsPage.Shown | gui/page_sampling_types_settings.py:99-100 | a single column name is shown as it is, a list as its "; "-joined names; `ReadBackShown` reads a shown list back |
| SettingsPage.ManColRows | gui/page_sampling_types_settings.py:95-102 | row r shows the r-th column's item and its value, a list being joined with "; " |
| SettingsPage.FillManColGrid | gui/page_sampling_types_settings.py:95-102 | the grid shows `ManColRows` |
| SettingsPage.ReadBack | gui/page_sampling_types_settings.py:528-529 | one name per ';'-piece of the cell |
| SettingsPage.ReadBackShown | gui/page_sampling_types_settings.py:528-529 | round trip: a list of clean names shown in the grid reads back as that list |
| SettingsPage.ReadBackShownEmpty | gui/page_sampling_types_settings.py:528-529 | an empty list is shown as '' and reads back as one empty name |
| SettingsPage.Characters | gui/page_sampling_types_settings.py:499 | iterating a string gives its characters one by one |
| SettingsPage.JoinCharactersLength | gui/page_sampling_types_settings.py:499 | "; "-joining the characters of an n-character name gives 3n − 2 characters |
| SettingsPage.OkTextAsWritten | gui/page_sampling_types_settings.py:497-501 | as written, Ok joins the chosen value with "; ", a single name character by character; `OkTextAsWrittenSplitsName` and `OkTextAsWrittenExample` show where it differs from `Shown` |
| SettingsPage.OkTextAsWrittenSplitsName | gui/page_sampling_types_settings.py:497-501 | for a single name of two or more characters, the popup's Ok writes something other than the name |
| SettingsPage.OkTextAsWrittenExample | gui/page_sampling_types_settings.py:497-501 | choosing "TEMP" writes "T; E; M; P" into the grid |
| SettingsPage.OkMatchesRefresh | gui/page_sampling_types_settings.py:497-501 | after Ok the settings hold the choice, and a grid refresh shows the item with the corrected cell text |
| SettingsPage.SelectMappingFile | gui/page_sampling_types_settings.py:465-478 | the file and values are kept, and every column box lists '' followed by the file's columns |
| SettingsPage.ShowMapping | gui/page_sampling_types_settings.py:104-133 | raises an invalid-file-id error iff the stored file name is missing or not offered, reporting that name |
| SettingsPage.ShowMappingRefreshes | gui/page_sampling_types_settings.py:104-133 | a refreshed panel shows the stored file, column boxes listing its columns, and the stored values |
| SettingsPage.LaterAssignmentWins | gui/page_sampling_types_settings.py:268-397 | after the two frames are built, an attribute assigned again names the later widget; one not assigned again keeps its first widget |
| SettingsPage.BindingsAsWritten | gui/page_sampling_types_settings.py:337-397 | as written, `par_map_entry_qf_suffix` and `par_map_entry_unit_start` end up naming value entries 2 and 3 of the station frame; every other attribute names its own frame's entry |
| SettingsPage.BindingsIntended | gui/page_sampling_types_settings.py:268-335 | without the rebinding, each attribute names the entry its own frame created |
| SettingsPage.EntryWrites | gui/page_sampling_types_settings.py:116-119 | one write per entry, each with the value of its mapping key |
| SettingsPage.UnreachedEntryStaysBlank | gui/page_sampling_types_settings.py:104-133 | an entry that no written attribute names is never written and stays blank |
| SettingsPage.LastWriteShows | gui/page_sampling_types_settings.py:104-133 | an entry shows the value of the last write through an attribute that names it |
| SettingsPage.ShownThroughBindings | gui/page_sampling_types_settings.py:104-133 | with the as-written bindings, the six mapping writes leave the parameter frame's rows 2 and 3 blank and put the third and fourth values into station rows 2 and 3 |
| SettingsPage.StationFrameShowsParameterSuffixes | gui/page_sampling_types_settings.py:384-397 | as written, the parameter frame's "QF suffix" and "Unit starts with" entries stay blank, and the station frame's entries of those names show the parameter mapping's `qf_suffix` and `unit_starts_with` |
| SettingsPage.ParameterFrameShowsItsMapping | gui/page_sampling_types_settings.py:104-119 | corrected: each of the parameter frame's four value entries shows the value of its key, the key `ShowMapping` shows in the same place |
| SettingsPage.PageSamplingTypeSettings.constructor | gui/page_sampling_types_settings.py:22-36 | the stored list, the file lists and the column source are those given; nothing is saved or open |
| SettingsPage.PageSamplingTypeSettings.SaveParameterListToUser | gui/page_sampling_types_settings.py:580-588 | the stored list becomes `SavedParameterList` of the old list |
| SettingsPage.PageSamplingTypeSettings.UpdateDependentListbox | gui/page_sampling_types_settings.py:564-578 | raises iff the parameter has no dependents stored; otherwise the listbox shows the candidates, selects the stored ones and saves the candidates into the user's list |
| SettingsPage.PageSamplingTypeSettings.OnSelectDependents | gui/page_sampling_types_settings.py:480-486 | the settings become `SelectDependents` of the old ones |
| SettingsPage.PageSamplingTypeSettings.RemoveDependentParameter | gui/page_sampling_types_settings.py:602-606 | the parameter leaves the combobox and the settings |
| SettingsPage.PageSamplingTypeSettings.AddDependentParameter | gui/page_sampling_types_settings.py:608-628 | no parameter gives "No parameter selected" and changes nothing; otherwise an empty dependency list is stored, the combobox lists the keys, the choice is the new or the old parameter, and the listbox refresh raises iff that choice has no entry, leaving the listbox and the user's list as they were, and otherwise shows its candidates and saves them (`ListboxRefreshed`) |
| SettingsPage.PageSamplingTypeSettings.LoadParameterFile | gui/page_sampling_types_settings.py:590-600 | a cancelled dialog changes nothing; otherwise the file's names are saved into the user's list and the listbox refresh follows from that list: it raises iff the chosen parameter has no entry, leaving the listbox as it was, and otherwise shows the candidates and selection and saves the candidates too (`ListboxRefreshed`) |
| SettingsPage.PageSamplingTypeSettings.FocusManCol | gui/page_sampling_types_settings.py:496-553 | column 0 does nothing; an item missing from the settings raises; a list item saves the cell's names and opens a multi-choice popup; otherwise a single-choice popup opens |
| SettingsPage.PageSamplingTypeSettings.ManColOk | gui/page_sampling_types_settings.py:497-504 | corrected Ok: the cell shows the choice as a refresh would, the settings store it, and the popup closes |
| SettingsPage.PageSamplingTypeSettings.ManColCancel | gui/page_sampling_types_settings.py:506-508 | the popup closes |
| SettingsPage.PageSamplingTypeSettings.ShowParameterMapping | gui/page_sampling_types_settings.py:104-119 | the panel becomes the result of `ShowMapping`, or stays as it was when that raised; all seven values are shown in the parameter panel, which is the corrected placement of the "QF suffix" and "Unit starts with" values (see Findings) |
| SettingsPage.PageSamplingTypeSettings.ShowStationMapping | gui/page_sampling_types_settings.py:121-133 | the same for the station panel |
| SettingsPage.PageSamplingTypeSettings.ShowMappingsAndProperties | gui/page_sampling_types_settings.py:104-140 | a refused parameter file leaves both panels and the properties as they were; a refused station file leaves the station panel and the properties; otherwise both panels are refreshed and the properties shown (`MappingsShown`) |
| SettingsPage.PageSamplingTypeSettings.ShowDependentsAndGrids | gui/page_sampling_types_settings.py:80-102 | the combobox lists the dependency keys; when the choice has an entry the listbox shows its candidates and selection and the user's list gains the candidates, and when the lookup raises the listbox and the user's list are as they were (`ListboxRefreshed`); both grids show the settings |
| SettingsPage.PageSamplingTypeSettings.UpdatePage | gui/page_sampling_types_settings.py:51-75 | every section shows the current settings, in order, up to the first mapping that raises: the dependency keys, the listbox and the user's list as `ListboxRefreshed` says, both grids, and the mappings and properties as `MappingsShown` says |
| SettingsPage.PageSamplingTypeSettings.SelectFile | gui/page_sampling_types_settings.py:491-494 | the chosen file's settings are loaded and the page is updated from them, with the whole new state of `UpdatePage` |
| SettingsPage.PageSamplingTypeSettings.SaveFile | gui/page_sampling_types_settings.py:654-660 | saves when allowed; otherwise shows the warning and saves nothing |
| SettingsPage.PageSamplingTypeSettings.SaveFileAs | gui/page_sampling_types_settings.py:662-689 | no name gives "No file name selected"; a declined overwrite changes nothing; otherwise the settings are renamed and saved, or a warning is shown when saving is refused; a successful save adds the name to the file list and selects it |

## Left out

- Tk widgets, layout, fonts, colours other than the start-page button colours, plotting, maps, threading and progress windows are not modelled. They are presentation only.
- The GISMO session, the user-settings store, the settings-file objects, file dialogs and yes/no boxes are parameters (oracle functions or inputs). Their behaviour is outside the plugin.
- A message box is a `Notice` carrying its title and the one datum it reports. The fixed wording of its text and the traceback in the "Unknown error" box are not kept.
- `settings_object.get_data` is modelled as a lookup that raises on a missing key. `add_data` and `set_data` are modelled as storing (`Set`), `delete_data` and `remove_data` as `Remove`. The settings class itself is not part of this model.
- Widget library behaviours are assumed rather than modelled:
  - `update_items` keeps the current combobox value;
  - `move_items_to_selected` selects exactly the given items;
  - the listbox keeps the order it is given.
- SettingsPage.PageSamplingTypeSettings.UpdatePage: requires at most 10 entries in each grid (`FitsGrids`). The grid widgets' size is not part of this model.
- SettingsPage.FillGrid: requires at most 10 entries, for the same reason.
- SettingsPage.PageSamplingTypeSettings.UpdatePage: the `not self.settings_object` guard is not modelled. The page always holds a settings value.
- `_on_change_parameter_mapping` and `_on_change_station_mapping` are not modelled. Their widgets are not bound in the modelled frames.
- SettingsPage.PageSamplingTypeSettings.LoadParameterFile: `set_open_directory` is left out, and the directory it stores is not modelled.
- The `GUIException` handlers in `_add_dependent_parameter` and `_save_file_as` are not modelled. Nothing in the modelled operations raises it.
- SettingsPage.PageSamplingTypeSettings.SaveFileAs: `SETTINGS_FILES_DIRECTORY` is not modelled; only the file name is kept.
- `_get_data_file_path`, the single-file variant, is left out. Nothing in the core calls it.
- AppShell.App.OfferDepth: the stored depth's default `1` is written as the string "1". Depths are strings throughout the model.
- An empty string stands for Python's `None` where the source passes either.
- AppShell.LoadStep: the retry is refused when the depth text is empty. The source tests `not platform_depth` on an integer entry, where a depth of 0 is refused too; integer depths are not part of this model.
- Text.LowerAscii: stands in for `str.lower()` in the 'fixed platform' test and lowers ASCII letters only.
- AppShell.App.GetDataFilePaths: requires every chosen path to be non-empty, as a file dialog returns them.
- AppShell.App.LoadFile: the help-text and button updates made inside each load call are recorded once per run, not once per file.
- ProfilePage.PageProfile.UpdateParameterList: the current parameter is taken to be the priority pick that the widget shows.
- ProfilePage.PageProfile.OnSelectParameter: the plot tail (`_on_toggle_ref_data`, zooming, axis sync, `_update_map_2`) is left out. It is plotting.
- ProfilePage.PageProfile.UpdatePage: `select_data_widget.update_widget` and `_update_map_1` are left out. They are widget and map refreshes.
- The print of `selected_file_id_dict` in `_update_frame_reference_file` is left out.
- `_set_current_reference_file` and the `_reset_ref_file_id` it calls are left out. That method is not defined in the class.
- The `old_*` methods are left out. They are dead code.
- The mouse-hover coordinate arithmetic on the profile plot is left out. It is floating point on plot axes.

## Findings

| source | as written | input that shows it | evidently intended | confidence | as-written member | corrected member |
|---|---|---|---|---|---|---|
| gui/page_sampling_types_settings.py:497-501 | `_ok` runs `'; '.join(value)` on the chosen value. For a single mandatory column the value is one string, so its characters are joined (modelled by `SettingsPage.OkTextAsWritten`) | choosing `TEMP` in the single-choice popup writes `T; E; M; P` into the grid | the cell shows the name as a grid refresh would (`TEMP`), and a list as its "; "-joined names | not executed | SettingsPage.OkTextAsWrittenExample | SettingsPage.PageSamplingTypeSettings.ManColOk |
| gui/page_sampling_types_settings.py:384-397 | `_set_labelframe_station_mapping` creates a "QF suffix" and a "Unit starts with" entry in the station frame and stores them in `par_map_entry_qf_suffix` and `par_map_entry_unit_start`, replacing the parameter frame's entries of lines 324 and 332 (modelled by `SettingsPage.StationFrameEntriesAsWritten`) | any settings file: `_update_labelframe_parameter_mapping` writes `qf_suffix` and `unit_starts_with` (lines 118-119) into the station frame, and the parameter frame's two entries stay blank | the station frame holds only its encoding and header entries, and the parameter frame shows all its values | not executed | SettingsPage.StationFrameShowsParameterSuffixes | SettingsPage.ParameterFrameShowsItsMapping |
