# dialogue-stream: subtitle synchronisation and page state, in Dafny

This project models the logic core of a browser UI for reviewing dialogue in a
video. The player's clock picks the current subtitle line. The subtitle panel
shows a window of lines around that line and gives each one an emphasis tier.
The page keeps bookmarks ("saved dialogues"), recorded clips and a few flags,
and its event handlers and keyboard shortcuts update them.

- `wrappers.dfy`: module `Wrappers`, an `Option` type.
- `subtitle_panel.dfy`: module `SubtitlePanel`, modelling `src/components/SubtitlePanel.tsx`. It holds the line record, the class tier and the opacity tier, the clamped window of radius 3, the `Array.prototype.slice` call that cuts it, and the guard on the current line. Everything here is a pure function.
- `video_player.dfy`: module `VideoPlayer`, modelling `src/components/VideoPlayer.tsx`.
  - `FormatTime` builds the `M:SS` timecode.
  - `ParseTimecode` is a parser that reads a timecode back, so the round trip can be stated and proved.
  - The class `VolumeControl` holds the mute and volume fields and their two handlers.
- `index_page.dfy`: module `IndexPage`, modelling `src/pages/Index.tsx`.
  - `FindIndex` is the `findIndex` lookup used by `handleSeek`.
  - `WithoutId` is the delete filter.
  - Each handler is first a pure transition on a `PageState` record (`OnSeek`, `OnSaveDialogue`, `OnKeyDown`, …), and the lemmas are stated about these transitions.
  - The class `Page` holds the same state in fields, over a track with strictly increasing starts. Each of its methods is proved to carry out its transition (`Snapshot() == OnX(old(Snapshot()), …)`) while keeping the current line inside the list.

Times and indices are unbounded integers, whereas JavaScript numbers are doubles (see "## Left out" for the range where the two agree). The slider moves in steps of 1 and the sample data uses whole seconds, so only whole seconds occur. Ids, which the page makes from the clock, are passed in as parameters.

Three facts about the code shape the model:
- The line class has three tiers: current, adjacent and distant. Only the opacity has a fourth tier, at distance 2.
- An empty subtitle list is not an error. `findIndex` returns -1 and the page keeps its previous index.
- Timeline marker positions are literals (src/pages/Index.tsx:89-93), not computed, so there is no marker operation to model.

## Model

| member | source | states |
|---|---|---|
| `SubtitlePanel.GetLineClass` | src/components/SubtitlePanel.tsx:29-35 | current exactly at distance 0, adjacent exactly at distance 1, distant exactly at distance 2 or more |
| `SubtitlePanel.GetLineOpacity` | src/components/SubtitlePanel.tsx:37-43 | opacity is 100, 75, 50 or 35, each exactly at distance 0, 1, 2 or at least 3 |
| `SubtitlePanel.OpacitySymmetric` | src/components/SubtitlePanel.tsx:29-43 | class and opacity are the same at `cur - k` and `cur + k` |
| `SubtitlePanel.OpacityNonIncreasing` | src/components/SubtitlePanel.tsx:37-43 | a line no further from the current line than another is at least as opaque |
| `SubtitlePanel.ClassMatchesOpacity` | src/components/SubtitlePanel.tsx:29-43 | class current iff opacity 100, adjacent iff 75, distant iff 50 or 35 |
| `SubtitlePanel.StartIndex` | src/components/SubtitlePanel.tsx:45-46 | the start is `max(0, cur - 3)`: not negative, not below `cur - 3`, and equal to one of the two |
| `SubtitlePanel.EndIndex` | src/components/SubtitlePanel.tsx:45-47 | the end is `min(len - 1, cur + 3)`: bounded by both and equal to one of them |
| `SubtitlePanel.WindowBounds` | src/components/SubtitlePanel.tsx:45-47 | for `0 <= cur < len`, `0 <= start <= cur <= end <= len - 1`, and the window spans at most 7 lines |
| `SubtitlePanel.SlicePosition` | src/components/SubtitlePanel.tsx:48 | how `slice` maps an argument into 0..len: in-range values are kept, large ones clamp to len, negative ones count from the end |
| `SubtitlePanel.Slice` | src/components/SubtitlePanel.tsx:48 | `slice` yields the elements between the two normalised positions, in order, or nothing when they cross |
| `SubtitlePanel.VisibleSubtitles` | src/components/SubtitlePanel.tsx:48 | for a valid current index, it has `end - start + 1` lines (at most 7), and rendered line `idx` is `subtitles[start + idx]`; an empty list shows nothing |
| `SubtitlePanel.ExactlyOneCurrentVisible` | src/components/SubtitlePanel.tsx:62-64 | exactly one rendered position has `actualIndex == currentIndex`, namely `cur - start` |
| `SubtitlePanel.VisibleLinesAreNear` | src/components/SubtitlePanel.tsx:62-63 | every rendered line is within 3 of the current line |
| `SubtitlePanel.CurrentLine` | src/components/SubtitlePanel.tsx:50 | the current line exists exactly when the index is inside the list, and then it is that element (what Save does with it is `OnSaveButton`) |
| `IndexPage.OnSaveButton` | src/components/SubtitlePanel.tsx:90 | with no current line the Save button changes nothing; with one it is `OnSaveDialogue` of that line |
| `VideoPlayer.NatToString` | src/components/VideoPlayer.tsx:45 | `toString` of a whole number (below 1e21, see "## Left out") is a non-empty run of digits with no leading zero, and has one digit exactly below 10 and two digits from 10 to 99 |
| `VideoPlayer.ParseNatToString` | src/components/VideoPlayer.tsx:45 | reading back the digits of `n` gives `n` |
| `VideoPlayer.PadStart` | src/components/VideoPlayer.tsx:45 | `padStart` yields length `max(len, width)`: the fill character, then the original string |
| `VideoPlayer.FormatTime` | src/components/VideoPlayer.tsx:42-46 | the timecode has at least one minutes character, then a colon exactly three characters from the end, so the seconds field is two characters; a leading "0" occurs only below one minute, and then the text is exactly four characters ("0:SS") (what the fields read as is `FormatTimeRoundTrip`) |
| `VideoPlayer.SecondsFieldRoundTrip` | src/components/VideoPlayer.tsx:44-45 | the padded seconds field is exactly two digits and reads back as the seconds value (0..59) |
| `VideoPlayer.TimecodeRoundTrip` | src/components/VideoPlayer.tsx:45 | parsing the text built from minutes `m` and seconds `x < 60` gives back `(m, x)` |
| `VideoPlayer.FormatTimeRoundTrip` | src/components/VideoPlayer.tsx:42-46 | parsing `FormatTime(s)` gives minutes `s / 60` and seconds `s % 60`, with seconds below 60 and `m * 60 + x == s` |
| `VideoPlayer.FormatTimeInitial` | src/components/VideoPlayer.tsx:42-46 | the initial position 2544 shows as "42:24" |
| `VideoPlayer.FormatTimeDuration` | src/components/VideoPlayer.tsx:42-46 | the duration 2820 shows as "47:00" |
| `VideoPlayer.FormatTimeNoHours` | src/components/VideoPlayer.tsx:43 | there is no hour field: 3600 shows as "60:00" |
| `VideoPlayer.VolumeControl.constructor` | src/components/VideoPlayer.tsx:39-40 | the player starts unmuted at volume 80 |
| `VideoPlayer.VolumeControl.SliderValue` | src/components/VideoPlayer.tsx:184 | the slider shows 0 while muted and the stored volume otherwise |
| `VideoPlayer.VolumeControl.ToggleMute` | src/components/VideoPlayer.tsx:173 | the mute button flips `isMuted` and keeps the stored volume; the slider shows 0 while muted and the stored volume otherwise |
| `VideoPlayer.VolumeControl.OnVolumeChange` | src/components/VideoPlayer.tsx:187-190 | the slider handler stores `v` and sets muted exactly when `v == 0`; the slider (line 184) then shows `v` |
| `IndexPage.StartsIncreaseBetween` | src/pages/Index.tsx:174-178 | a helper of the seek lemmas: for starts that increase line to line, every earlier line starts strictly earlier |
| `IndexPage.ContainsTime` | src/pages/Index.tsx:175-177 | the `findIndex` callback: line `i` starts at or before the time, and it is the last line or the next one starts after it |
| `IndexPage.FindIndexFrom` | src/pages/Index.tsx:174-178 | the scan from `from` returns the first index passing the seek test, or -1 when none from `from` on passes |
| `IndexPage.FindIndex` | src/pages/Index.tsx:174-178 | the result is -1 exactly when no line passes the test; otherwise it passes, and no earlier line does |
| `IndexPage.ContainsTimeUnique` | src/pages/Index.tsx:174-178 | with strictly increasing starts, at most one line passes the test for a given time |
| `IndexPage.FindIndexIsContainingLine` | src/pages/Index.tsx:174-178 | with strictly increasing starts, the lookup returns any line whose interval holds the time |
| `IndexPage.SomeLineContains` | src/pages/Index.tsx:174-178 | if some line starts at or before the time, some line at or after it passes the test, whatever the order of the starts |
| `IndexPage.FoundIffNotBeforeFirst` | src/pages/Index.tsx:174-181 | with strictly increasing starts, the lookup succeeds exactly when the time is not before the first start |
| `IndexPage.FoundIsLastStartedLine` | src/pages/Index.tsx:174-178 | the found line starts at or before the time and every later line starts after it, so it is the largest such index |
| `IndexPage.SeekMonotone` | src/pages/Index.tsx:174-178 | with strictly increasing starts and both lookups found, `t1 <= t2` implies `index(t1) <= index(t2)` |
| `IndexPage.SeekToLineStart` | src/pages/Index.tsx:184-186 | seeking to line `k`'s start finds exactly `k` |
| `IndexPage.ClickVisibleLine` | src/components/SubtitlePanel.tsx:62-69 | clicking the rendered line at position `idx` (which passes its start time) selects list index `start + idx` |
| `IndexPage.SampleStrictlyIncreasing` | src/pages/Index.tsx:10-28 | the sample track's starts are strictly increasing |
| `IndexPage.SampleLookups` | src/pages/Index.tsx:172-182 | on the sample track, 2544 and 2545 select line 3, and 2534 finds nothing |
| `IndexPage.WithoutId` | src/pages/Index.tsx:242 | the filter never grows the list |
| `IndexPage.WithoutIdMembers` | src/pages/Index.tsx:242 | the filter keeps exactly the recordings whose id differs from the deleted one |
| `IndexPage.WithoutIdAppend` | src/pages/Index.tsx:242 | filtering `a + b` is filtering `a` then `b`, so the kept recordings stay in their original order |
| `IndexPage.WithoutIdAbsent` | src/pages/Index.tsx:242 | a list with no recording of that id is left unchanged |
| `IndexPage.WithoutIdIdempotent` | src/pages/Index.tsx:242 | deleting an id twice is the same as deleting it once |
| `IndexPage.InitialState` | src/pages/Index.tsx:77-85 | the page starts paused at time 2544 on line 3, with recording, the notes drawer, the shortcuts dialog and the recordings panel all closed, and the sample saved dialogues and recordings |
| `IndexPage.InitialStateConsistent` | src/pages/Index.tsx:78-79 | the initial index 3 is the line the lookup gives for the initial time 2544 |
| `IndexPage.OnSeek` | src/pages/Index.tsx:172-182 | the time is always set. When the lookup fails the index is kept, otherwise the new line's interval holds the time. A valid index stays valid and no other field changes |
| `IndexPage.SeekBeforeFirstKeepsLine` | src/pages/Index.tsx:172-182 | seeking before the first start changes only `currentTime` |
| `IndexPage.SeekSelectsLastStartedLine` | src/pages/Index.tsx:172-182 | seeking at or after the first start selects the last line started by then |
| `IndexPage.LineClickSelectsLine` | src/pages/Index.tsx:184-186 | clicking line `k` sets the time to its start and the current index to exactly `k` |
| `IndexPage.OnSaveDialogue` | src/pages/Index.tsx:140-150 | saving puts exactly one entry first, with the line's text and timestamp and `hasRecording` false. The old list follows unchanged and nothing else changes |
| `IndexPage.OnStartRecording` | src/pages/Index.tsx:152-156 | starting sets `isRecording` and `recordingsPanelOpen`, and nothing else |
| `IndexPage.OnStopRecording` | src/pages/Index.tsx:158-170 | stopping puts one recording of the current line's text and timestamp first and sets `isRecording` false. The old list follows and nothing else changes |
| `IndexPage.OnDeleteRecording` | src/pages/Index.tsx:241-244 | delete leaves the list filtered by `WithoutId`, so it keeps exactly the recordings with a different id, in their original order (`WithoutIdAppend`), and changes nothing else |
| `IndexPage.DeleteUndoesStop` | src/pages/Index.tsx:241-243 | deleting a just-stopped recording by its id, when no older recording has that id, restores the list |
| `IndexPage.ToLowerChar` | src/pages/Index.tsx:102 | an ASCII capital becomes its small letter, and every other character is kept |
| `IndexPage.ToLower` | src/pages/Index.tsx:102 | lower-casing keeps the length and maps every character |
| `IndexPage.ToLowerIdempotent` | src/pages/Index.tsx:102 | lower-casing twice is lower-casing once |
| `IndexPage.OnKeyDown` | src/pages/Index.tsx:97-134 | events aimed at an input or textarea change nothing, and neither do keys outside the state-changing set (the toast-only "r" and "n" among them). The current line stays valid |
| `IndexPage.KeyDownIgnoresCase` | src/pages/Index.tsx:102 | a key and its lower-cased form have the same effect |
| `IndexPage.KeyMTogglesRecording` | src/pages/Index.tsx:116-122 | "m" negates `isRecording`: it stops (storing a clip) while recording and starts otherwise |
| `IndexPage.KeyFlagTransitions` | src/pages/Index.tsx:103-132 | "d" negates the notes drawer and "?" shows the shortcuts. Escape hides the shortcuts and the recordings panel. Space flips playback and "S" saves the current line. Nothing else changes |
| `IndexPage.RecordTwice` | src/pages/Index.tsx:116-122 | "m" twice from idle adds exactly one clip of the current line and ends not recording, with the panel open |
| `IndexPage.Page.constructor` | src/pages/Index.tsx:75-85 | over a sorted track of more than 3 lines, the page starts at time 2544 on line 3, with all flags off and the sample lists |
| `IndexPage.Page.HandleSeek` | src/pages/Index.tsx:172-182 | the fields after a seek are `OnSeek` of the fields before |
| `IndexPage.Page.HandleLineClick` | src/pages/Index.tsx:184-187 | a click is a seek to the given start, and it selects the line that starts there |
| `IndexPage.Page.HandleSaveDialogue` | src/pages/Index.tsx:140-150 | the fields after are `OnSaveDialogue` of the fields before |
| `IndexPage.Page.SaveButton` | src/components/SubtitlePanel.tsx:90 | the fields after are `OnSaveButton` of the fields before, which under `Valid()` is always a save of the current line |
| `IndexPage.Page.HandleStartRecording` | src/pages/Index.tsx:152-156 | the fields after are `OnStartRecording` of the fields before |
| `IndexPage.Page.HandleStopRecording` | src/pages/Index.tsx:158-170 | the fields after are `OnStopRecording` of the fields before |
| `IndexPage.Page.DeleteRecording` | src/pages/Index.tsx:241-244 | the fields after are `OnDeleteRecording` of the fields before |
| `IndexPage.Page.TogglePlay` | src/pages/Index.tsx:208 | play/pause flips `isPlaying` only |
| `IndexPage.Page.OpenRecordingsPanel` | src/pages/Index.tsx:227 | the Record button opens the recordings panel only |
| `IndexPage.Page.CloseRecordingsPanel` | src/pages/Index.tsx:238 | closing the recordings panel clears `recordingsPanelOpen` only |
| `IndexPage.Page.CloseShortcuts` | src/pages/Index.tsx:253 | closing the shortcuts dialog clears `showShortcuts` only |
| `IndexPage.Page.HandleKeyDown` | src/pages/Index.tsx:97-134 | the fields after a key event are `OnKeyDown` of the fields before |

## Left out

- Rendering: JSX, CSS classes, animations and the `showControls` hover state (VideoPlayer.tsx:38, 53-54) are presentation only.
- Toast notifications, including the timestamp that `handleLineClick` looks up only for its message, come from a foreign library and have no effect on state.
- Listener registration (`addEventListener`/`removeEventListener`) and `preventDefault` are DOM I/O. Key events are plain values.
- Id generation from `Date.now()`: ids are parameters, and the model claims nothing about their uniqueness.
- The progress percentage `currentTime / duration * 100` is floating-point division with no guard for a zero duration.
- The `Slider` component's own clamping and stepping belong to an unseen library. Seek times and volume values are taken as given integers.
- NatToString / FormatTime: JavaScript numbers are doubles. `toString` prints plain digits only below 1e21 and whole-number arithmetic is exact only up to 2^53, while the model's `nat` is unbounded. The page never leaves that range: seconds stay within the slider's maximum, the duration 2820 (src/pages/Index.tsx:87, src/components/VideoPlayer.tsx:126).
- The Note button (src/components/SubtitlePanel.tsx:97) only shows a toast (src/pages/Index.tsx:226), so apart from its guard it has no effect to model.
- FormatTime: fractional seconds are not modelled, because the slider and the sample data give only whole seconds.
- ToLowerChar / ToLower: only ASCII letters are lower-cased. The full Unicode case mapping of `toLowerCase` is not modelled.
- React's batching of state updates and closure capture are not modelled. Every handler reads the current state, which matches the effect's dependency list for the fields it reads.
- `Page.constructor` takes the subtitle track as a parameter rather than reading the hardcoded one. `SampleStrictlyIncreasing` shows that the page's own track meets the constructor's requirement (sorted starts, more than 3 lines).
- The sidebar's collapsed flag and active navigation item are not modelled, because nothing else depends on them.
- The generated database types are declarations only.
- The notes drawer, recordings panel, sidebar and shortcuts dialog only render and forward callbacks.
- The shortcut list names keys (T, F, arrows) that the key handler does not implement, so they are not modelled as behaviour.
- The "HH:MM:SS" timestamp strings in the sample data are literals, carried as opaque strings.
