/** The dialogue-review page: the state it owns (playback position, current
    subtitle, flags, saved dialogues, recordings) and the event handlers that
    update it. Each handler is first a pure transition on `PageState`; the
    class `Page` holds the same state in fields and its methods are proved to
    perform those transitions. */
module IndexPage {
  import opened Wrappers
  import opened SubtitlePanel

  /** A bookmarked subtitle line. */
  datatype SavedDialogue = SavedDialogue(
    id: string, text: string, timestamp: string, episode: string,
    note: Option<string>, hasRecording: bool)

  /** A recorded clip of a dialogue line. */
  datatype Recording = Recording(
    id: string, timestamp: string, duration: string, dialogue: string, episode: string)

  /** The episode every new saved dialogue and recording is filed under. */
  const CurrentEpisode: string := "S5 E14 · Ozymandias"

  /** The fixed clip length given to every new recording. */
  const NewRecordingDuration: string := "0:03"

  /** The page's hardcoded subtitle track. */
  const SampleSubtitles: seq<SubtitleLine> := [
    SubtitleLine("1", "You clearly don't know who you're talking to.", "00:42:15", 2535),
    SubtitleLine("2", "So let me clue you in.", "00:42:18", 2538),
    SubtitleLine("3", "I am not in danger, Skyler.", "00:42:21", 2541),
    SubtitleLine("4", "I am the danger.", "00:42:24", 2544),
    SubtitleLine("5", "A guy opens his door and gets shot, and you think that of me?", "00:42:28", 2548),
    SubtitleLine("6", "No.", "00:42:33", 2553),
    SubtitleLine("7", "I am the one who knocks.", "00:42:35", 2555),
    SubtitleLine("8", "Walt...", "00:42:40", 2560),
    SubtitleLine("9", "I... I don't know what to say.", "00:42:43", 2563),
    SubtitleLine("10", "What happened to you?", "00:42:47", 2567),
    SubtitleLine("11", "You used to be so different.", "00:42:50", 2570),
    SubtitleLine("12", "I did what I had to do.", "00:42:54", 2574),
    SubtitleLine("13", "For the family.", "00:42:57", 2577),
    SubtitleLine("14", "This isn't about family anymore.", "00:43:01", 2581),
    SubtitleLine("15", "This is about you.", "00:43:04", 2584),
    SubtitleLine("16", "Everything I did, I did for us.", "00:43:08", 2588),
    SubtitleLine("17", "You need to understand that.", "00:43:12", 2592)
  ]

  const InitialSavedDialogues: seq<SavedDialogue> := [
    SavedDialogue("saved-1", "Say my name.", "00:38:42", "S5 E7 · Say My Name",
                  Some("Iconic moment of Heisenberg's power"), true),
    SavedDialogue("saved-2", "I watched Jane die.", "00:51:23", "S5 E14 · Ozymandias", None, false)
  ]

  const InitialRecordings: seq<Recording> := [
    Recording("rec-1", "00:38:42", "0:04", "Say my name.", "S5 E7 · Say My Name"),
    Recording("rec-2", "00:42:24", "0:02", "I am the danger.", "S5 E14 · Ozymandias")
  ]

  // ---------------------------------------------------------------------
  // Seek lookup

  /** Start times go strictly up from each line to the next. */
  predicate StrictlyIncreasing(subs: seq<SubtitleLine>) {
    forall i :: 0 <= i < |subs| - 1 ==> subs[i].startTime < subs[i + 1].startTime
  }

  /** Under strictly increasing starts, any earlier line starts earlier. */
  lemma {:induction false} StartsIncreaseBetween(subs: seq<SubtitleLine>, i: int, j: int)
    requires StrictlyIncreasing(subs)
    requires 0 <= i < j < |subs|
    ensures subs[i].startTime < subs[j].startTime
    decreases j - i
  {
    if i + 1 < j {
      StartsIncreaseBetween(subs, i + 1, j);
    }
  }

  /** The test `handleSeek` passes to `findIndex`: line `i` starts at or
      before `time` and is the last line or the next one starts after it. */
  predicate ContainsTime(subs: seq<SubtitleLine>, i: int, time: int) {
    0 <= i < |subs| && subs[i].startTime <= time &&
    (i == |subs| - 1 || subs[i + 1].startTime > time)
  }

  /** `findIndex` from position `from` on: the first line passing the test,
      or -1. */
  function FindIndexFrom(subs: seq<SubtitleLine>, time: int, from: nat): (r: int)
    requires from <= |subs|
    ensures r == -1 || from <= r < |subs|
    ensures r != -1 ==> ContainsTime(subs, r, time)
    ensures forall j :: from <= j < |subs| && (r == -1 || j < r) ==> !ContainsTime(subs, j, time)
    decreases |subs| - from
  {
    if from == |subs| then -1
    else if ContainsTime(subs, from, time) then from
    else FindIndexFrom(subs, time, from + 1)
  }

  /** The index `handleSeek` looks up for `time`, or -1 when no line passes. */
  function FindIndex(subs: seq<SubtitleLine>, time: int): (r: int)
    ensures r == -1 || 0 <= r < |subs|
    ensures r != -1 ==> ContainsTime(subs, r, time)
    ensures r == -1 <==> forall j :: 0 <= j < |subs| ==> !ContainsTime(subs, j, time)
    ensures forall j :: 0 <= j < r ==> !ContainsTime(subs, j, time)
  {
    FindIndexFrom(subs, time, 0)
  }

  /** With strictly increasing starts at most one line contains a time. */
  lemma ContainsTimeUnique(subs: seq<SubtitleLine>, time: int, i: int, j: int)
    requires StrictlyIncreasing(subs)
    requires ContainsTime(subs, i, time) && ContainsTime(subs, j, time)
    ensures i == j
  {
    if i < j {
      if i + 1 < j { StartsIncreaseBetween(subs, i + 1, j); }
    } else if j < i {
      if j + 1 < i { StartsIncreaseBetween(subs, j + 1, i); }
    }
  }

  /** With strictly increasing starts the lookup returns the line that
      contains the time, whichever it is. */
  lemma FindIndexIsContainingLine(subs: seq<SubtitleLine>, time: int, i: int)
    requires StrictlyIncreasing(subs)
    requires ContainsTime(subs, i, time)
    ensures FindIndex(subs, time) == i
  {
    ContainsTimeUnique(subs, time, i, FindIndex(subs, time));
  }

  /** Some line passes the test whenever line `k` starts at or before the
      time; this needs no ordering of the starts. */
  lemma {:induction false} SomeLineContains(subs: seq<SubtitleLine>, time: int, k: nat)
    requires k < |subs| && subs[k].startTime <= time
    ensures exists i :: k <= i < |subs| && ContainsTime(subs, i, time)
    decreases |subs| - k
  {
    if k == |subs| - 1 || subs[k + 1].startTime > time {
      assert ContainsTime(subs, k, time);
    } else {
      SomeLineContains(subs, time, k + 1);
    }
  }

  /** The lookup finds a line exactly when the time is not before the first
      start (the "only if" half needs increasing starts). */
  lemma FoundIffNotBeforeFirst(subs: seq<SubtitleLine>, time: int)
    requires StrictlyIncreasing(subs) && |subs| > 0
    ensures FindIndex(subs, time) != -1 <==> subs[0].startTime <= time
  {
    if subs[0].startTime <= time {
      SomeLineContains(subs, time, 0);
    } else {
      var r := FindIndex(subs, time);
      if r > 0 { StartsIncreaseBetween(subs, 0, r); }
    }
  }

  /** The line found is the last one starting at or before the time. */
  lemma FoundIsLastStartedLine(subs: seq<SubtitleLine>, time: int)
    requires StrictlyIncreasing(subs)
    requires FindIndex(subs, time) != -1
    ensures var i := FindIndex(subs, time);
      subs[i].startTime <= time && forall j :: i < j < |subs| ==> subs[j].startTime > time
  {
    var i := FindIndex(subs, time);
    forall j | i < j < |subs|
      ensures subs[j].startTime > time
    {
      if i + 1 < j { StartsIncreaseBetween(subs, i + 1, j); }
    }
  }

  /** A later time never selects an earlier line. */
  lemma SeekMonotone(subs: seq<SubtitleLine>, t1: int, t2: int)
    requires StrictlyIncreasing(subs)
    requires t1 <= t2
    requires FindIndex(subs, t1) != -1 && FindIndex(subs, t2) != -1
    ensures FindIndex(subs, t1) <= FindIndex(subs, t2)
  {
    var i1, i2 := FindIndex(subs, t1), FindIndex(subs, t2);
    if i2 < i1 {
      if i2 + 1 < i1 { StartsIncreaseBetween(subs, i2 + 1, i1); }
    }
  }

  /** Seeking to a line's own start selects that line. */
  lemma SeekToLineStart(subs: seq<SubtitleLine>, k: int)
    requires StrictlyIncreasing(subs)
    requires 0 <= k < |subs|
    ensures FindIndex(subs, subs[k].startTime) == k
  {
    if k < |subs| - 1 {
      assert subs[k].startTime < subs[k + 1].startTime;
    }
    FindIndexIsContainingLine(subs, subs[k].startTime, k);
  }

  /** Clicking the line rendered at position `idx` of the visible window
      (the panel passes its start time) selects list index `startIndex + idx`. */
  lemma ClickVisibleLine(subs: seq<SubtitleLine>, currentIndex: int, idx: int)
    requires StrictlyIncreasing(subs)
    requires 0 <= currentIndex < |subs|
    requires 0 <= idx < |VisibleSubtitles(subs, currentIndex)|
    ensures FindIndex(subs, VisibleSubtitles(subs, currentIndex)[idx].startTime) == ActualIndex(currentIndex, idx)
  {
    WindowBounds(|subs|, currentIndex);
    SeekToLineStart(subs, ActualIndex(currentIndex, idx));
  }

  /** The sample track is ordered and long enough for the initial line 3. */
  lemma SampleStrictlyIncreasing()
    ensures StrictlyIncreasing(SampleSubtitles) && |SampleSubtitles| == 17
  {
  }

  /** Lookups on the sample track: the initial position selects line 3, a
      time between two starts selects the earlier line, a time before the
      first start finds nothing. */
  lemma SampleLookups()
    ensures FindIndex(SampleSubtitles, 2544) == 3
    ensures FindIndex(SampleSubtitles, 2545) == 3
    ensures FindIndex(SampleSubtitles, 2534) == -1
  {
    SampleStrictlyIncreasing();
    FindIndexIsContainingLine(SampleSubtitles, 2544, 3);
    FindIndexIsContainingLine(SampleSubtitles, 2545, 3);
    FoundIffNotBeforeFirst(SampleSubtitles, 2534);
  }

  // ---------------------------------------------------------------------
  // Lists

  /** `prev.filter((r) => r.id !== id)`. */
  function WithoutId(recordings: seq<Recording>, id: string): (r: seq<Recording>)
    ensures |r| <= |recordings|
    decreases |recordings|
  {
    if recordings == [] then []
    else (if recordings[0].id != id then [recordings[0]] else []) + WithoutId(recordings[1..], id)
  }

  /** The filter keeps exactly the recordings whose id differs. */
  lemma {:induction false} WithoutIdMembers(recordings: seq<Recording>, id: string)
    ensures forall x :: x in WithoutId(recordings, id) <==> x in recordings && x.id != id
    decreases |recordings|
  {
    if recordings != [] {
      WithoutIdMembers(recordings[1..], id);
      assert recordings == [recordings[0]] + recordings[1..];
    }
  }

  /** Filtering goes element by element, so it keeps the order of what it
      keeps. */
  lemma {:induction false} WithoutIdAppend(a: seq<Recording>, b: seq<Recording>, id: string)
    ensures WithoutId(a + b, id) == WithoutId(a, id) + WithoutId(b, id)
    decreases |a|
  {
    if a == [] {
      assert a + b == b;
    } else {
      var ab := a + b;
      var head := if a[0].id != id then [a[0]] else [];
      assert ab[0] == a[0] && ab[1..] == a[1..] + b;
      assert WithoutId(ab, id) == head + WithoutId(ab[1..], id);
      WithoutIdAppend(a[1..], b, id);
      assert WithoutId(a, id) == head + WithoutId(a[1..], id);
    }
  }

  /** A list with no recording of that id is left as it is. */
  lemma {:induction false} WithoutIdAbsent(recordings: seq<Recording>, id: string)
    requires forall k :: 0 <= k < |recordings| ==> recordings[k].id != id
    ensures WithoutId(recordings, id) == recordings
    decreases |recordings|
  {
    if recordings != [] {
      WithoutIdAbsent(recordings[1..], id);
    }
  }

  /** Deleting the same id twice is deleting it once. */
  lemma WithoutIdIdempotent(recordings: seq<Recording>, id: string)
    ensures WithoutId(WithoutId(recordings, id), id) == WithoutId(recordings, id)
  {
    var once := WithoutId(recordings, id);
    WithoutIdMembers(recordings, id);
    forall k | 0 <= k < |once|
      ensures once[k].id != id
    {
      assert once[k] in once;
    }
    WithoutIdAbsent(once, id);
  }

  // ---------------------------------------------------------------------
  // Page state and its transitions

  /** The state the page owns. */
  datatype PageState = PageState(
    isPlaying: bool,
    currentTime: int,
    currentSubtitleIndex: int,
    isRecording: bool,
    notesDrawerOpen: bool,
    showShortcuts: bool,
    savedDialogues: seq<SavedDialogue>,
    recordingsPanelOpen: bool,
    recordings: seq<Recording>)

  const InitialState: PageState := PageState(
    false, 2544, 3, false, false, false, InitialSavedDialogues, false, InitialRecordings)

  /** The initial state is consistent: line 3 is the line containing the
      initial time. */
  lemma InitialStateConsistent()
    ensures FindIndex(SampleSubtitles, InitialState.currentTime) == InitialState.currentSubtitleIndex
  {
    SampleLookups();
  }

  /** `handleSeek`: set the time; move to the line containing it, if any. */
  function OnSeek(subs: seq<SubtitleLine>, s: PageState, time: int): (r: PageState)
    ensures r.currentTime == time
    ensures FindIndex(subs, time) == -1 ==> r.currentSubtitleIndex == s.currentSubtitleIndex
    ensures FindIndex(subs, time) != -1 ==> ContainsTime(subs, r.currentSubtitleIndex, time)
    ensures 0 <= s.currentSubtitleIndex < |subs| ==> 0 <= r.currentSubtitleIndex < |subs|
    ensures r == s.(currentTime := time, currentSubtitleIndex := r.currentSubtitleIndex)
  {
    var index := FindIndex(subs, time);
    s.(currentTime := time, currentSubtitleIndex := if index != -1 then index else s.currentSubtitleIndex)
  }

  /** Seeking before the first line moves the clock but keeps the line. */
  lemma SeekBeforeFirstKeepsLine(subs: seq<SubtitleLine>, s: PageState, time: int)
    requires StrictlyIncreasing(subs) && |subs| > 0
    requires time < subs[0].startTime
    ensures OnSeek(subs, s, time) == s.(currentTime := time)
  {
    FoundIffNotBeforeFirst(subs, time);
  }

  /** Seeking at or after the first start selects the last line started by
      then. */
  lemma SeekSelectsLastStartedLine(subs: seq<SubtitleLine>, s: PageState, time: int)
    requires StrictlyIncreasing(subs) && |subs| > 0
    requires subs[0].startTime <= time
    ensures var i := OnSeek(subs, s, time).currentSubtitleIndex;
      0 <= i < |subs| && subs[i].startTime <= time &&
      forall j :: i < j < |subs| ==> subs[j].startTime > time
  {
    FoundIffNotBeforeFirst(subs, time);
    FoundIsLastStartedLine(subs, time);
  }

  /** `handleLineClick` seeks to the start time it is given; for a line's
      own start this selects that line. */
  lemma LineClickSelectsLine(subs: seq<SubtitleLine>, s: PageState, k: int)
    requires StrictlyIncreasing(subs)
    requires 0 <= k < |subs|
    ensures OnSeek(subs, s, subs[k].startTime).currentSubtitleIndex == k
    ensures OnSeek(subs, s, subs[k].startTime).currentTime == subs[k].startTime
  {
    SeekToLineStart(subs, k);
  }

  /** `handleSaveDialogue`: one new bookmark in front, without recording. */
  function OnSaveDialogue(s: PageState, line: SubtitleLine, id: string): (r: PageState)
    ensures |r.savedDialogues| == |s.savedDialogues| + 1
    ensures r.savedDialogues[0] == SavedDialogue(id, line.text, line.timestamp, CurrentEpisode, None, false)
    ensures r.savedDialogues[1..] == s.savedDialogues
    ensures r == s.(savedDialogues := r.savedDialogues)
  {
    var newDialogue := SavedDialogue(id, line.text, line.timestamp, CurrentEpisode, None, false);
    s.(savedDialogues := [newDialogue] + s.savedDialogues)
  }

  /** The panel's Save button, `currentLine && onSaveDialogue(currentLine)`:
      it saves the current line when the index names one and does nothing
      otherwise. */
  function OnSaveButton(subs: seq<SubtitleLine>, s: PageState, id: string): (r: PageState)
    ensures CurrentLine(subs, s.currentSubtitleIndex).None? ==> r == s
    ensures CurrentLine(subs, s.currentSubtitleIndex).Some? ==>
      r == OnSaveDialogue(s, subs[s.currentSubtitleIndex], id)
  {
    match CurrentLine(subs, s.currentSubtitleIndex)
    case None => s
    case Some(line) => OnSaveDialogue(s, line, id)
  }

  /** `handleStartRecording`: recording on, recordings panel open. */
  function OnStartRecording(s: PageState): (r: PageState)
    ensures r.isRecording && r.recordingsPanelOpen
    ensures r == s.(isRecording := true, recordingsPanelOpen := true)
  {
    s.(isRecording := true, recordingsPanelOpen := true)
  }

  /** `handleStopRecording`: one new clip of the current line in front,
      recording off. */
  function OnStopRecording(subs: seq<SubtitleLine>, s: PageState, id: string): (r: PageState)
    requires 0 <= s.currentSubtitleIndex < |subs|
    ensures !r.isRecording
    ensures |r.recordings| == |s.recordings| + 1
    ensures r.recordings[0] == Recording(id, subs[s.currentSubtitleIndex].timestamp, NewRecordingDuration,
                                         subs[s.currentSubtitleIndex].text, CurrentEpisode)
    ensures r.recordings[1..] == s.recordings
    ensures r == s.(isRecording := false, recordings := r.recordings)
  {
    var currentLine := subs[s.currentSubtitleIndex];
    var newRecording := Recording(id, currentLine.timestamp, NewRecordingDuration, currentLine.text, CurrentEpisode);
    s.(recordings := [newRecording] + s.recordings, isRecording := false)
  }

  /** The recordings panel's delete: drop every recording with that id. */
  function OnDeleteRecording(s: PageState, id: string): (r: PageState)
    ensures r.recordings == WithoutId(s.recordings, id)
    ensures forall x :: x in r.recordings <==> x in s.recordings && x.id != id
    ensures r == s.(recordings := r.recordings)
  {
    WithoutIdMembers(s.recordings, id);
    s.(recordings := WithoutId(s.recordings, id))
  }

  /** Deleting a just-stopped recording by its (unused) id restores the
      recordings list. */
  lemma DeleteUndoesStop(subs: seq<SubtitleLine>, s: PageState, id: string)
    requires 0 <= s.currentSubtitleIndex < |subs|
    requires forall k :: 0 <= k < |s.recordings| ==> s.recordings[k].id != id
    ensures OnDeleteRecording(OnStopRecording(subs, s, id), id).recordings == s.recordings
  {
    var stopped := OnStopRecording(subs, s, id);
    assert stopped.recordings == [stopped.recordings[0]] + s.recordings;
    WithoutIdAppend([stopped.recordings[0]], s.recordings, id);
    WithoutIdAbsent(s.recordings, id);
  }

  // ---------------------------------------------------------------------
  // Keyboard shortcuts

  /** What the key event was dispatched on. */
  datatype EventTarget = InputElement | TextAreaElement | OtherElement {
    predicate IsTextEntry() {
      this == InputElement || this == TextAreaElement
    }
  }

  datatype KeyEvent = KeyEvent(key: string, target: EventTarget)

  /** Lower-casing of one character (ASCII letters only). */
  function ToLowerChar(c: char): (r: char)
    ensures 'A' <= c <= 'Z' ==> 'a' <= r <= 'z' && r as int == c as int + 32
    ensures !('A' <= c <= 'Z') ==> r == c
  {
    if 'A' <= c <= 'Z' then (c as int + 32) as char else c
  }

  /** `key.toLowerCase()`. */
  function ToLower(s: string): (r: string)
    ensures |r| == |s| && forall i :: 0 <= i < |s| ==> r[i] == ToLowerChar(s[i])
  {
    seq(|s|, i requires 0 <= i < |s| => ToLowerChar(s[i]))
  }

  lemma ToLowerIdempotent(s: string)
    ensures ToLower(ToLower(s)) == ToLower(s)
  {
  }

  /** The keys whose branch changes the page state, after lower-casing ("r"
      and "n" only show a toast). */
  const StateChangingKeys: set<string> := {" ", "s", "m", "d", "?", "escape"}

  /** `handleKeyDown` as a transition: keys typed into a text field, the
      toast-only keys "r" and "n" and all other keys change nothing. */
  function OnKeyDown(subs: seq<SubtitleLine>, s: PageState, e: KeyEvent, savedId: string, recordingId: string): (r: PageState)
    requires 0 <= s.currentSubtitleIndex < |subs|
    ensures 0 <= r.currentSubtitleIndex < |subs|
    ensures e.target.IsTextEntry() || ToLower(e.key) !in StateChangingKeys ==> r == s
  {
    if e.target.IsTextEntry() then s
    else
      var key := ToLower(e.key);
      if key == " " then s.(isPlaying := !s.isPlaying)
      else if key == "s" then OnSaveDialogue(s, subs[s.currentSubtitleIndex], savedId)
      else if key == "m" then
        (if s.isRecording then OnStopRecording(subs, s, recordingId) else OnStartRecording(s))
      else if key == "d" then s.(notesDrawerOpen := !s.notesDrawerOpen)
      else if key == "?" then s.(showShortcuts := true)
      else if key == "escape" then s.(showShortcuts := false, recordingsPanelOpen := false)
      else s
  }

  /** The handler ignores the case of the key. */
  lemma KeyDownIgnoresCase(subs: seq<SubtitleLine>, s: PageState, key: string, target: EventTarget, savedId: string, recordingId: string)
    requires 0 <= s.currentSubtitleIndex < |subs|
    ensures OnKeyDown(subs, s, KeyEvent(key, target), savedId, recordingId)
         == OnKeyDown(subs, s, KeyEvent(ToLower(key), target), savedId, recordingId)
  {
    ToLowerIdempotent(key);
  }

  /** "m" flips recording: stop (saving a clip) while recording, start
      (opening the panel) otherwise. */
  lemma KeyMTogglesRecording(subs: seq<SubtitleLine>, s: PageState, e: KeyEvent, savedId: string, recordingId: string)
    requires 0 <= s.currentSubtitleIndex < |subs|
    requires !e.target.IsTextEntry() && ToLower(e.key) == "m"
    ensures var r := OnKeyDown(subs, s, e, savedId, recordingId);
      r.isRecording == !s.isRecording &&
      (s.isRecording ==> r == OnStopRecording(subs, s, recordingId)) &&
      (!s.isRecording ==> r == OnStartRecording(s))
  {
  }

  /** "d" flips the notes drawer, "?" shows the shortcuts, Escape hides the
      shortcuts and the recordings panel, Space flips playback, "s" saves the
      current line; nothing else changes. */
  lemma KeyFlagTransitions(subs: seq<SubtitleLine>, s: PageState, target: EventTarget, savedId: string, recordingId: string)
    requires 0 <= s.currentSubtitleIndex < |subs|
    requires !target.IsTextEntry()
    ensures OnKeyDown(subs, s, KeyEvent("d", target), savedId, recordingId) == s.(notesDrawerOpen := !s.notesDrawerOpen)
    ensures OnKeyDown(subs, s, KeyEvent("?", target), savedId, recordingId) == s.(showShortcuts := true)
    ensures OnKeyDown(subs, s, KeyEvent("Escape", target), savedId, recordingId)
         == s.(showShortcuts := false, recordingsPanelOpen := false)
    ensures OnKeyDown(subs, s, KeyEvent(" ", target), savedId, recordingId) == s.(isPlaying := !s.isPlaying)
    ensures OnKeyDown(subs, s, KeyEvent("S", target), savedId, recordingId)
         == OnSaveDialogue(s, subs[s.currentSubtitleIndex], savedId)
  {
    assert ToLower("d") == "d";
    assert ToLower("?") == "?";
    assert ToLower("Escape") == "escape";
    assert ToLower(" ") == " ";
    assert ToLower("S") == "s";
  }

  /** Pressing "m" twice from idle stores exactly one clip of the current
      line, leaves recording off and the recordings panel open. */
  lemma RecordTwice(subs: seq<SubtitleLine>, s: PageState, target: EventTarget, savedId: string, recordingId: string)
    requires 0 <= s.currentSubtitleIndex < |subs|
    requires !target.IsTextEntry() && !s.isRecording
    ensures var once := OnKeyDown(subs, s, KeyEvent("m", target), savedId, recordingId);
      var twice := OnKeyDown(subs, once, KeyEvent("m", target), savedId, recordingId);
      twice == s.(recordingsPanelOpen := true,
                  recordings := [Recording(recordingId, subs[s.currentSubtitleIndex].timestamp, NewRecordingDuration,
                                           subs[s.currentSubtitleIndex].text, CurrentEpisode)] + s.recordings)
  {
    assert ToLower("m") == "m";
  }

  // ---------------------------------------------------------------------
  // The page object

  /** The page component: its state fields and its event handlers. */
  class Page {
    const subtitles: seq<SubtitleLine>
    var isPlaying: bool
    var currentTime: int
    var currentSubtitleIndex: int
    var isRecording: bool
    var notesDrawerOpen: bool
    var showShortcuts: bool
    var savedDialogues: seq<SavedDialogue>
    var recordingsPanelOpen: bool
    var recordings: seq<Recording>

    /** The track is ordered and the current line always exists. */
    ghost predicate Valid()
      reads this
    {
      StrictlyIncreasing(subtitles) && 0 <= currentSubtitleIndex < |subtitles|
    }

    /** The fields as one state value. */
    ghost function Snapshot(): PageState
      reads this
    {
      PageState(isPlaying, currentTime, currentSubtitleIndex, isRecording, notesDrawerOpen,
                showShortcuts, savedDialogues, recordingsPanelOpen, recordings)
    }

    /** The page is built over a track (the page's own is `SampleSubtitles`,
        see `SampleStrictlyIncreasing`) and starts in `InitialState`. */
    constructor (track: seq<SubtitleLine>)
      requires StrictlyIncreasing(track) && |track| > InitialState.currentSubtitleIndex
      ensures Valid() && subtitles == track && Snapshot() == InitialState
    {
      subtitles := track;
      isPlaying := false;
      currentTime := 2544;
      currentSubtitleIndex := 3;
      isRecording := false;
      notesDrawerOpen := false;
      showShortcuts := false;
      savedDialogues := InitialSavedDialogues;
      recordingsPanelOpen := false;
      recordings := InitialRecordings;
    }

    method HandleSeek(time: int)
      requires Valid()
      modifies this
      ensures Valid() && Snapshot() == OnSeek(subtitles, old(Snapshot()), time)
    {
      currentTime := time;
      var index := FindIndex(subtitles, time);
      if index != -1 {
        currentSubtitleIndex := index;
      }
    }

    /** Clicking a line seeks to its start time, which selects that line. */
    method HandleLineClick(startTime: int)
      requires Valid()
      modifies this
      ensures Valid() && Snapshot() == OnSeek(subtitles, old(Snapshot()), startTime)
      ensures forall k :: 0 <= k < |subtitles| && subtitles[k].startTime == startTime ==> currentSubtitleIndex == k
    {
      HandleSeek(startTime);
      forall k | 0 <= k < |subtitles| && subtitles[k].startTime == startTime
        ensures currentSubtitleIndex == k
      {
        SeekToLineStart(subtitles, k);
      }
    }

    method HandleSaveDialogue(line: SubtitleLine, id: string)
      requires Valid()
      modifies this
      ensures Valid() && Snapshot() == OnSaveDialogue(old(Snapshot()), line, id)
    {
      var newDialogue := SavedDialogue(id, line.text, line.timestamp, CurrentEpisode, None, false);
      savedDialogues := [newDialogue] + savedDialogues;
    }

    /** The panel's Save button; with a valid index it always saves. */
    method SaveButton(id: string)
      requires Valid()
      modifies this
      ensures Valid() && Snapshot() == OnSaveButton(subtitles, old(Snapshot()), id)
      ensures Snapshot() == OnSaveDialogue(old(Snapshot()), subtitles[currentSubtitleIndex], id)
    {
      var current := CurrentLine(subtitles, currentSubtitleIndex);
      if current.Some? {
        HandleSaveDialogue(current.value, id);
      }
    }

    method HandleStartRecording()
      requires Valid()
      modifies this
      ensures Valid() && Snapshot() == OnStartRecording(old(Snapshot()))
    {
      isRecording := true;
      recordingsPanelOpen := true;
    }

    method HandleStopRecording(id: string)
      requires Valid()
      modifies this
      ensures Valid() && Snapshot() == OnStopRecording(subtitles, old(Snapshot()), id)
    {
      var currentLine := subtitles[currentSubtitleIndex];
      var newRecording := Recording(id, currentLine.timestamp, NewRecordingDuration, currentLine.text, CurrentEpisode);
      recordings := [newRecording] + recordings;
      isRecording := false;
    }

    method DeleteRecording(id: string)
      requires Valid()
      modifies this
      ensures Valid() && Snapshot() == OnDeleteRecording(old(Snapshot()), id)
    {
      recordings := WithoutId(recordings, id);
    }

    /** The play/pause button. */
    method TogglePlay()
      requires Valid()
      modifies this
      ensures Valid() && Snapshot() == old(Snapshot()).(isPlaying := !old(isPlaying))
    {
      isPlaying := !isPlaying;
    }

    /** The panel's Record button. */
    method OpenRecordingsPanel()
      requires Valid()
      modifies this
      ensures Valid() && Snapshot() == old(Snapshot()).(recordingsPanelOpen := true)
    {
      recordingsPanelOpen := true;
    }

    /** The recordings panel's close button. */
    method CloseRecordingsPanel()
      requires Valid()
      modifies this
      ensures Valid() && Snapshot() == old(Snapshot()).(recordingsPanelOpen := false)
    {
      recordingsPanelOpen := false;
    }

    /** The shortcuts dialog's close button. */
    method CloseShortcuts()
      requires Valid()
      modifies this
      ensures Valid() && Snapshot() == old(Snapshot()).(showShortcuts := false)
    {
      showShortcuts := false;
    }

    method HandleKeyDown(e: KeyEvent, savedId: string, recordingId: string)
      requires Valid()
      modifies this
      ensures Valid() && Snapshot() == OnKeyDown(subtitles, old(Snapshot()), e, savedId, recordingId)
    {
      if e.target.IsTextEntry() {
        return;
      }
      var key := ToLower(e.key);
      if key == " " {
        TogglePlay();
      } else if key == "s" {
        HandleSaveDialogue(subtitles[currentSubtitleIndex], savedId);
      } else if key == "m" {
        if isRecording {
          HandleStopRecording(recordingId);
        } else {
          HandleStartRecording();
        }
      } else if key == "d" {
        notesDrawerOpen := !notesDrawerOpen;
      } else if key == "?" {
        showShortcuts := true;
      } else if key == "escape" {
        showShortcuts := false;
        recordingsPanelOpen := false;
      }
    }
  }
}
