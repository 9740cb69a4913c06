# Audio credits analyser: session logic

A model of the state and selection logic of a single-page React mock-up of an
audio-credits analyser. The user picks an audio file. A simulated analysis
produces a fixed credits record, and each finished analysis joins an
in-memory log, newest first. Two screens read that log:

- the log screen, with one card per record;
- the profile screen, which ranks the three most credited artists.

The home screen only adds to the log, through `onFileAnalyzed`. Its credits
panel shows the screen's own last analysis, not the log. Leaving the home
screen discards its credits: it mounts again with none, whatever the log holds.

The model has one Dafny module per component:

- `AppState` (app.dfy): the root component. Class `App` holds the screen selector and the record list, with the add, delete, select and navigate handlers.
- `Home` (home.dfy): the home screen. Class `HomeScreen` holds its four state fields plus the queue of running analysis timers. Selection, timer completion, clear/reset and play/pause are methods. It also holds the mock analyser's constant record and the panel visibility rules.
- `Uploader` (uploader.dfy): class `FileUploader` with its drag-highlight flag, the drop handler with its `audio/` guard, and the picker handler.
- `MetadataDisplay` (metadata_display.dfy): the eleven-field table, its truthiness filter, and the two list sections.
- `LogScreen` (log_screen.dfy): the empty state, the cards, the badges, and the click dispatch. Dispatch includes the stopped propagation of the delete button.
- `Profile` (profile.dfy): the top-artists function and the statistics counters. The tally is built by nested loops over a dictionary (`CountArtists`, `CountRecord`, `Bump`). They are proved against the reference `Tally`/`Distinct` of the contributed names. The ranking is a pure stable sort on the dictionary's entries, followed by a cut to three.

Supporting modules:

- `Records`: the record types, and JavaScript truthiness of an optional string.
- `Sequences`: filter, subsequence, duplicate-freedom, first-occurrence `Distinct`.
- `ObjectKeys`: the order `Object.entries` lists a plain object's keys. Array-index keys come first, in ascending numeric order, then the other keys in creation order.
- `Wrappers`: `Option`.

Modelling choices:

- A dictionary is a `map<string, nat>` plus the sequence of its keys in creation order.
- Every analysis timer has the same delay, so the running timers form a FIFO queue. `HomeScreen.CompleteAnalysis` is the event of the oldest one firing. The clock's millisecond value and ISO date are parameters of that event.
- A timer can fire only while it runs, so `CompleteAnalysis` requires a running timer.
- Handlers that call a callback return the sequence of calls they make. `onFileSelect` calls come back from the uploader, and `onDeleteFile`/`onSelectFile` calls from `LogScreen.Dispatch`. `HomeScreen.CompleteAnalysis` returns the record it passes to `onFileAnalyzed`.

Three behaviours of the code that the model keeps:

- Clearing does not cancel a running timer. When it fires, the credits come back and a record still joins the log (`Home.ClearBeforeCompletion`).
- A record's id is its completion time in milliseconds, so two ids can coincide. Different milliseconds give different ids (`Home.DecimalStringInjective`). Records that share an id coexist in the log (`AppState.AddKeepsDuplicates`).
- There is no unsupported-format error path. A non-audio drop is silently ignored, and the picker accepts any file.

## Model

| member | source | states |
|---|---|---|
| Profile.CleanArtist | components/ProfileScreen.tsx:33 | the name is a prefix of the credit with no `" - "` starting inside it; it is the whole credit, or a `" - "` follows it |
| Profile.CleanArtistWhole | components/ProfileScreen.tsx:33 | a vocalist credit is kept whole exactly when it contains no `" - "` |
| Profile.CleanArtistAt | components/ProfileScreen.tsx:33 | a credit is cut at its first `" - "`, and the text before it is the name |
| Profile.CleanArtistExamples | components/ProfileScreen.tsx:33 | "Thundercat - Bass" gives "Thundercat"; "SZA" stays "SZA" |
| Profile.Bump | components/ProfileScreen.tsx:34 | one `(count[n] \|\| 0) + 1` keeps the dictionary equal to the tally of the names seen so far, and keeps its key order equal to their first-occurrence order |
| Profile.CountRecord | components/ProfileScreen.tsx:31-39 | one record's callback adds its cleaned vocalist credits, then its truthy producer, to the tally |
| Profile.CountArtists | components/ProfileScreen.tsx:28-40 | the nested loops leave the dictionary equal to the tally of all contributions, with keys in first-occurrence order |
| Profile.GetTopArtists | components/ProfileScreen.tsx:27-46 | returns min(3, number of distinct names) rows, in non-increasing count order, each row a contributed name with its exact count |
| Profile.TopArtistsSize | components/ProfileScreen.tsx:42-45 | the result has min(3, number of distinct tallied names) rows |
| Profile.TopArtistsRanked | components/ProfileScreen.tsx:43 | the counts in the result never increase |
| Profile.TopArtistsCounts | components/ProfileScreen.tsx:30-45 | every row's count is the number of times its name was contributed |
| Profile.TopArtistsDistinct | components/ProfileScreen.tsx:42-45 | no name appears in two rows |
| Profile.TopArtistsAreTop | components/ProfileScreen.tsx:42-45 | a contributed name left out of the result has a count no larger than any listed count |
| Profile.SortByCount | components/ProfileScreen.tsx:43 | the result is a permutation of the entries, in non-increasing count order |
| Profile.InsertByCountStable | components/ProfileScreen.tsx:43 | inserting a row into the sorted list keeps rows of equal count in input order |
| Profile.SortByCountStable | components/ProfileScreen.tsx:43 | the sort is stable: rows of each count keep their input order |
| Profile.TopArtistsTies | components/ProfileScreen.tsx:42-44 | among equal counts, the result is a leading part of those rows in `Object.entries` order |
| Profile.TopArtistsTiesByFirstAppearance | components/ProfileScreen.tsx:42-44 | when no name looks like an array index, ties are broken by the order names were first counted |
| ObjectKeys.OwnKeys | components/ProfileScreen.tsx:42 | `Object.entries` order: the array-index keys in ascending numeric order, then the other keys in creation order, a permutation of the keys |
| ObjectKeys.OwnKeysNoDup | components/ProfileScreen.tsx:42 | listing a dictionary's keys neither repeats nor loses a key |
| ObjectKeys.OwnKeysIndicesOrdered | components/ProfileScreen.tsx:42 | any two array-index keys in the listing are in ascending numeric order |
| ObjectKeys.OwnKeysCreationOrder | components/ProfileScreen.tsx:42 | with no array-index keys, the entries come in creation order |
| Profile.NoArtistsMessage | components/ProfileScreen.tsx:145 | the empty-state message shows exactly when the log contributes no name (e.g. an empty log) |
| Profile.CountsBothRoles | components/ProfileScreen.tsx:30-40 | a name's count = its vocalist credits that clean to it + the records with exactly that non-empty producer; both roles share one dictionary |
| Profile.CleanNamesHits | components/ProfileScreen.tsx:32-34 | a name repeated in one vocalist list is counted once per occurrence |
| Profile.RecordNamesHits | components/ProfileScreen.tsx:31-39 | a record without metadata or without a vocalist list adds no vocalist count; a falsy producer adds nothing |
| Profile.ContributionsLength | components/ProfileScreen.tsx:30-40 | the number of contributions is the number of vocalist credits plus the number of truthy producers |
| Profile.TallyTotal | components/ProfileScreen.tsx:34-38 | every increment adds one to the dictionary's total |
| Profile.DictionaryTotal | components/ProfileScreen.tsx:30-40 | before truncation, the counts sum to the vocalist credits plus the truthy producers |
| Profile.Stats | components/ProfileScreen.tsx:214-218 | "Files Analyzed" is the log's length; "Unique Artists" is the length of the top list, so at most 3 |
| AppState.App.constructor | App.tsx:17-18 | the session starts on the home screen with an empty log |
| AppState.App.HandleFileAnalyzed | App.tsx:25-27 | the new record is prepended, the old list is the unchanged suffix, the screen is unchanged |
| AppState.AddKeepsDuplicates | App.tsx:26 | adding a record whose id is already present adds a second record with that id |
| AppState.App.HandleDeleteFile | App.tsx:29-31 | the list becomes the old list without the records of that id |
| AppState.RemoveIdMembers | App.tsx:30 | a record survives deletion exactly when it has another id |
| AppState.RemoveIdMultiplicity | App.tsx:30 | every copy of a record with the id goes, every copy of the others stays |
| AppState.RemoveIdKeepsOrder | App.tsx:30 | the surviving records keep their relative order |
| AppState.RemoveIdAbsent | App.tsx:30 | deleting an id that no record has changes nothing |
| AppState.RemoveIdIdempotent | App.tsx:30 | deleting twice is deleting once |
| AppState.App.HandleSelectFile | App.tsx:33-36 | selecting any record goes to the home screen and leaves the list alone |
| AppState.App.SetActiveScreen | App.tsx:90 | any screen may follow any screen; the list is unchanged |
| AppState.RenderedScreens | App.tsx:46-85 | exactly one screen renders, the active one |
| Home.ExtractionIgnoresInput | components/HomeScreen.tsx:26-49 | every file yields the same credits record |
| Home.SampleShowsEveryField | components/HomeScreen.tsx:28-47 | all eleven scalar fields of the mock record are shown |
| Home.SampleInstrumentalistsUnsplit | components/HomeScreen.tsx:38-43 | the mock record's instrumentalists appear as written, e.g. "Thundercat - Bass" |
| Home.HomeScreen.constructor | components/HomeScreen.tsx:21-24 | nothing selected, no credits, not analysing, not playing, no timer |
| Home.HomeScreen.HandleFileSelect | components/HomeScreen.tsx:51-57 | sets the selection, analysing and playing, leaves the credits, and starts one timer |
| Home.HomeScreen.CompleteAnalysis | components/HomeScreen.tsx:57-69 | the oldest timer sets the mock credits, stops analysing, and emits one record of that timer's file, the current time's id and date, and the same credits |
| Home.DecimalString | components/HomeScreen.tsx:64 | an id is a non-empty string of decimal digits with no leading zero |
| Home.DecimalRoundTrip | components/HomeScreen.tsx:64 | an id read back as a number is the completion time it was made from |
| Home.DecimalStringInjective | components/HomeScreen.tsx:64 | completions at different milliseconds get different ids |
| Home.HomeScreen.HandleClear | components/HomeScreen.tsx:72-76 | clears the selection and credits and stops playback; neither the analysing flag nor a running timer is touched |
| Home.HomeScreen.HandleReset | components/HomeScreen.tsx:78-80 | exactly the effect of clear |
| Home.HomeScreen.TogglePlay | components/HomeScreen.tsx:119 | flips playback and nothing else |
| Home.VisiblePanels | components/HomeScreen.tsx:107-173 | the waveform shows iff a file is selected, loading iff analysing, the credits iff present and not analysing; loading and credits never show together |
| Home.ClearBeforeCompletion | components/HomeScreen.tsx:57-76 | a timer that fires after clear still shows the credits, with no file selected, and still emits its record |
| Home.SelectTwiceBeforeCompletion | components/HomeScreen.tsx:51-69 | with two timers running, the first ends the loading state and emits the first file while the second timer is still running |
| Uploader.FileUploader.constructor | components/FileUploader.tsx:13 | the drag highlight starts off |
| Uploader.FileUploader.HandleDragOver | components/FileUploader.tsx:16-19 | drag-over turns the highlight on |
| Uploader.FileUploader.HandleDragLeave | components/FileUploader.tsx:21-23 | drag-leave turns it off |
| Uploader.FileUploader.HandleDrop | components/FileUploader.tsx:25-33 | a drop always turns the highlight off and forwards what the guard selects |
| Uploader.DropSelection | components/FileUploader.tsx:29-31 | a drop forwards at most one file: the first, exactly when there is one and its type starts with `audio/` |
| Uploader.DropOnlyAudio | components/FileUploader.tsx:29-31 | nothing non-audio is ever forwarded by a drop |
| Uploader.IsAudioExamples | components/FileUploader.tsx:30 | the guard is a case-sensitive prefix test |
| Uploader.FileUploader.HandleFileChange | components/FileUploader.tsx:35-40 | forwards what the picker selects |
| Uploader.PickerSelection | components/FileUploader.tsx:36-38 | the picker forwards at most one file: the first, when there is one, of any type |
| Uploader.PickerIgnoresType | components/FileUploader.tsx:36-38 | a non-audio file is forwarded by the picker but not by a drop |
| Uploader.DropIsStricterThanPicker | components/FileUploader.tsx:29-38 | whatever a drop forwards, the picker forwards too |
| MetadataDisplay.Fields | components/MetadataDisplay.tsx:24-36 | eleven fields in the fixed label order |
| MetadataDisplay.LabelsDistinct | components/MetadataDisplay.tsx:24-36 | no two fields share a label |
| MetadataDisplay.ShownFieldsInOrder | components/MetadataDisplay.tsx:48-56 | the shown fields are a subsequence of the table, each with a truthy value |
| MetadataDisplay.LabelShownIff | components/MetadataDisplay.tsx:48-56 | a label is shown exactly when its value is truthy |
| MetadataDisplay.ListSection | components/MetadataDisplay.tsx:58-90 | a list section appears exactly when its list exists and is not empty, and then holds the whole list |
| MetadataDisplay.SectionsShown | components/MetadataDisplay.tsx:58-90 | the vocalist and instrumentalist sections each show iff their list is present and non-empty, listing every entry unsplit, in order |
| LogScreen.Render | components/LogScreen.tsx:48-67 | the empty state shows exactly when the log is empty, otherwise the cards |
| LogScreen.Cards | components/LogScreen.tsx:67-87 | one card per record, in list order |
| LogScreen.OneCardPerRecord | components/LogScreen.tsx:67-83 | each card carries its own record's id and file name |
| LogScreen.Badges | components/LogScreen.tsx:89-115 | producer, genre and first-vocalist badges, each iff truthy, in that order; none without metadata |
| LogScreen.Dispatch | components/LogScreen.tsx:74-125 | a delete click calls only delete with the card's id (propagation is stopped); a card click calls select with the card's record |
| LogScreen.DeleteRemovesClickedRecord | components/LogScreen.tsx:122-124 | the delete call removes the clicked record, and every record of its id, from the log |

## Left out

- The decorative star field (components/GalaxyBackground.tsx) and the random waveform bars (components/BottomNav.tsx). Both are random float animation with no state of interest.
- Animation, CSS, the dark-mode DOM call in `useEffect`, and the rendering of JSX beyond which blocks appear.
- The 2000 ms timer delay. A timer's firing is the explicit `CompleteAnalysis` event. The model does not cover the component unmounting while a timer runs, for example navigating away from the home screen; on return the screen state would start fresh.
- `Date.now()` and `new Date().toISOString()` are parameters of `CompleteAnalysis`. Only the decimal formatting of the id is modelled.
- `formatDate` on the log cards: its output depends on the locale.
- The file-size display on the uploader (`toFixed(2)` of a float).
- The click on the drop zone that opens the hidden picker, and the browser's `accept` filter. The picker's selection is an input to `HandleFileChange`.
- Profile visibility and biography, which are unvalidated setters, and "Save Changes", which has no handler.
- Profile.CountArtists: the tally is a plain map. In JavaScript, an artist named like an `Object.prototype` member (`constructor`, `toString`, `__proto__`) would read an inherited value instead of `undefined`; the model does not capture that.
- Profile.GetTopArtists: JavaScript's sort comparator `b - a` is on numbers; the model compares the exact integer counts.
- Nothing rejects an unsupported file format, and no analysis is ever cancelled. The code has neither, so the model has neither.
- The upload area shows only while no file is selected (components/FileUploader.tsx:48). `HomeScreen.HandleFileSelect` may be called in any state; the scenarios clear before a second selection, as the screen requires.
- `metadata` is untyped in the source. The model gives it a fixed record type whose fields may be absent. Values of other JavaScript types, such as a non-string producer, are not modelled.
