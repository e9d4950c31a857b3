/** Properties that relate several transitions of the player: wrap-around
    navigation, the replace-on-upload behaviour of the file handler, the
    order and multiplicity of blob-URL revocations, and the invariant over
    any sequence of page events. */
module PlaylistLaws {
  import opened Playlist

  /** One event the page reacts to. `Select(i)` is a click on the i-th list
      entry; `Ended` is the media element's `ended` event. */
  datatype Event =
    | Select(index: int, outcome: PlayOutcome)
    | NextClick(outcome: PlayOutcome)
    | PrevClick(outcome: PlayOutcome)
    | Ended(outcome: PlayOutcome)
    | PlayPauseClick(outcome: PlayOutcome)
    | FilesChosen(files: seq<File>, outcome: PlayOutcome)

  /** The handler each event runs. Whatever it is, the revocation log only
      grows and the count of created URLs never goes down. */
  function Step(s: State, e: Event): (r: State)
    ensures s.revocations <= r.revocations && s.minted <= r.minted
  {
    match e
    case Select(i, o) => Load(s, i, o)
    case NextClick(o) => Next(s, o)
    case PrevClick(o) => Prev(s, o)
    case Ended(o) => Next(s, o)
    case PlayPauseClick(o) => Toggle(s, o)
    case FilesChosen(files, o) => Change(s, files, o)
  }

  /** The state after a sequence of events, oldest first. */
  function Run(s: State, events: seq<Event>): State
    decreases events
  {
    if events == [] then s else Run(Step(s, events[0]), events[1..])
  }

  /** Every handler keeps the invariant. */
  lemma StepKeepsValid(s: State, e: Event)
    requires Valid(s)
    ensures Valid(Step(s, e))
  {
    match e
    case Select(i, o) => LoadKeepsValid(s, i, o);
    case NextClick(o) => NextKeepsValid(s, o);
    case PrevClick(o) => PrevKeepsValid(s, o);
    case Ended(o) => NextKeepsValid(s, o);
    case PlayPauseClick(o) => ToggleKeepsValid(s, o);
    case FilesChosen(files, o) => ChangeKeepsValid(s, files, o);
  }

  /** Whatever the user does, the cursor is -1 on an empty playlist and a valid
      index otherwise, and the bound source and title are the current track's. */
  lemma {:induction false} RunKeepsValid(s: State, events: seq<Event>)
    requires Valid(s)
    ensures Valid(Run(s, events))
    decreases events
  {
    if events != [] {
      StepKeepsValid(s, events[0]);
      RunKeepsValid(Step(s, events[0]), events[1..]);
    }
  }

  /** The page's state from load onwards is always consistent. */
  lemma ReachableIsValid(events: seq<Event>)
    ensures Valid(Run(Init(), events))
  {
    RunKeepsValid(Init(), events);
  }

  /** `nextTrack` applied once per outcome, oldest first. */
  function NextAll(s: State, outcomes: seq<PlayOutcome>): State
  {
    if outcomes == [] then s
    else Next(NextAll(s, outcomes[..|outcomes| - 1]), outcomes[|outcomes| - 1])
  }

  lemma RemSucc(a: nat, n: nat)
    requires n > 0
    ensures (a % n + 1) % n == (a + 1) % n
  {
    var q, r := a / n, a % n;
    if r + 1 < n {
      JsNumber.RemUnique(r + 1, 0, r + 1, n);
      JsNumber.RemUnique(a + 1, q, r + 1, n);
    } else {
      JsNumber.RemUnique(r + 1, 1, 0, n);
      JsNumber.RemUnique(a + 1, q + 1, 0, n);
    }
  }

  /** After k steps forward the cursor has advanced by k modulo the length,
      and the playlist itself is untouched. */
  lemma {:induction false} NextAllAdvances(s: State, outcomes: seq<PlayOutcome>)
    requires Valid(s) && |s.playlist| > 0
    ensures Valid(NextAll(s, outcomes))
    ensures NextAll(s, outcomes).playlist == s.playlist
    ensures NextAll(s, outcomes).current == (s.current + |outcomes|) % |s.playlist|
  {
    if outcomes != [] {
      var front := outcomes[..|outcomes| - 1];
      NextAllAdvances(s, front);
      var n, a := |s.playlist|, s.current + |front|;
      var before := NextAll(s, front);
      assert before.current == a % n && before.playlist == s.playlist;
      assert NextAll(s, outcomes) == Next(before, outcomes[|outcomes| - 1]);
      NextKeepsValid(before, outcomes[|outcomes| - 1]);
      assert NextAll(s, outcomes).current == (a % n + 1) % n;
      RemSucc(a, n);
      assert s.current + |outcomes| == a + 1;
    } else {
      JsNumber.RemUnique(s.current, 0, s.current, |s.playlist|);
    }
  }

  /** Going forward as many times as there are tracks (by button or by tracks
      ending) comes back to the starting track. */
  lemma NextWrapsAround(s: State, outcomes: seq<PlayOutcome>)
    requires Valid(s) && |outcomes| == |s.playlist| > 0
    ensures NextAll(s, outcomes).current == s.current
    ensures NextAll(s, outcomes).src == s.src
    ensures NextAll(s, outcomes).src in NextAll(s, outcomes).revocations
  {
    NextAllAdvances(s, outcomes);
    NextAllRevokesStart(s, outcomes);
    JsNumber.RemUnique(s.current + |s.playlist|, 1, s.current, |s.playlist|);
  }

  /** The first step forward revokes the source bound at the start, and the
      log keeps it through every later step. */
  lemma {:induction false} NextAllRevokesStart(s: State, outcomes: seq<PlayOutcome>)
    requires Valid(s) && |s.playlist| > 0 && |outcomes| > 0
    ensures s.src in NextAll(s, outcomes).revocations
  {
    var front, last := outcomes[..|outcomes| - 1], outcomes[|outcomes| - 1];
    var before := NextAll(s, front);
    assert NextAll(s, outcomes) == Next(before, last);
    if front == [] {
      assert before == s;
    } else {
      NextAllRevokesStart(s, front);
      NextAllAdvances(s, front);
    }
    assert before.revocations <= Next(before, last).revocations;
  }

  /** `prevTrack` after `nextTrack` returns to the same track and binds it again. */
  lemma PrevUndoesNext(s: State, o1: PlayOutcome, o2: PlayOutcome)
    requires Valid(s) && |s.playlist| > 0
    ensures Prev(Next(s, o1), o2).current == s.current
    ensures Prev(Next(s, o1), o2).playlist == s.playlist
    ensures Prev(Next(s, o1), o2).src == s.src
  {
    var n, c := |s.playlist|, s.current;
    if c + 1 < n {
      JsNumber.RemUnique(c + 1, 0, c + 1, n);
      JsNumber.RemUnique(c + n, 1, c, n);
    } else {
      JsNumber.RemUnique(n, 1, 0, n);
      JsNumber.RemUnique(n - 1, 0, n - 1, n);
    }
  }

  /** `nextTrack` after `prevTrack` returns to the same track and binds it again. */
  lemma NextUndoesPrev(s: State, o1: PlayOutcome, o2: PlayOutcome)
    requires Valid(s) && |s.playlist| > 0
    ensures Next(Prev(s, o1), o2).current == s.current
    ensures Next(Prev(s, o1), o2).playlist == s.playlist
    ensures Next(Prev(s, o1), o2).src == s.src
  {
    var n, c := |s.playlist|, s.current;
    if c > 0 {
      JsNumber.RemUnique(c - 1 + n, 1, c - 1, n);
      JsNumber.RemUnique(c, 0, c, n);
    } else {
      JsNumber.RemUnique(n - 1, 0, n - 1, n);
      JsNumber.RemUnique(n, 1, 0, n);
    }
  }

  /** Going forward and back binds the starting track's URL again although
      the step forward has already revoked it. */
  lemma PrevAfterNextBindsRevokedUrl(s: State, o1: PlayOutcome, o2: PlayOutcome)
    requires Valid(s) && |s.playlist| > 0
    ensures var r := Prev(Next(s, o1), o2);
      r.src == s.src && r.src in r.revocations
  {
    PrevUndoesNext(s, o1, o2);
    NextKeepsValid(s, o1);
    var t := Next(s, o1);
    assert s.src in t.revocations;
    assert t.revocations <= Prev(t, o2).revocations;
  }

  /** Going back and forward binds the starting track's URL again although
      the step back has already revoked it. */
  lemma NextAfterPrevBindsRevokedUrl(s: State, o1: PlayOutcome, o2: PlayOutcome)
    requires Valid(s) && |s.playlist| > 0
    ensures var r := Next(Prev(s, o1), o2);
      r.src == s.src && r.src in r.revocations
  {
    NextUndoesPrev(s, o1, o2);
    PrevKeepsValid(s, o1);
    var t := Prev(s, o1);
    assert s.src in t.revocations;
    assert t.revocations <= Next(t, o2).revocations;
  }

  /** A file selection replaces the playlist: the new tracks are the selected
      audio files, in selection order, each with a freshly created URL that is
      neither an old track's URL nor revoked. */
  lemma ChangeReplacesPlaylist(s: State, files: seq<File>, o: PlayOutcome)
    requires Valid(s) && |files| > 0
    ensures var r := Change(s, files, o);
      && |r.playlist| == |AudioPositions(files)|
      && (forall k :: 0 <= k < |r.playlist| ==> r.playlist[k].name == files[AudioPositions(files)[k]].name)
      && (forall j, k :: 0 <= j < |r.playlist| && 0 <= k < |s.playlist| ==> r.playlist[j].url != s.playlist[k].url)
      && (forall k :: 0 <= k < |r.playlist| ==> r.playlist[k].url !in r.revocations)
  {
    AudioFilesExact(files);
    ChangeRevokesOnlyOldUrls(s, files, o);
  }

  /** Every URL revoked up to the end of a file change was minted before it. */
  lemma ChangeRevokesOnlyOldUrls(s: State, files: seq<File>, o: PlayOutcome)
    requires Valid(s) && |files| > 0
    ensures var r := Change(s, files, o);
      forall j :: 0 <= j < |r.revocations| ==> r.revocations[j].Blob? && r.revocations[j].id < s.minted
  {
    ReplaceMintsAfterRevoking(s, files);
  }

  /** Everything a file change revokes, in order: each old track's URL, then,
      if a new track is loaded, the old bound source once more. */
  lemma ChangeRevocationLog(s: State, files: seq<File>, o: PlayOutcome)
    requires Valid(s) && |files| > 0
    ensures Change(s, files, o).revocations ==
      s.revocations + Urls(s.playlist) + (if |AudioFiles(files)| > 0 && s.src.Blob? then [s.src] else [])
  {
    RevokeAllAppendsUrls(s.revocations, s.playlist);
    var f := Replace(s, files);
    assert f.revocations == s.revocations + Urls(s.playlist);
    assert f.src == s.src && |f.playlist| == |AudioFiles(files)|;
  }

  /** Before the playlist is replaced, every old track's URL is revoked, in
      playlist order, right after the revocations that came before. */
  lemma ChangeRevokesOldTracks(s: State, files: seq<File>, o: PlayOutcome)
    requires Valid(s) && |files| > 0
    ensures var r := Change(s, files, o);
      && |s.revocations| + |s.playlist| <= |r.revocations|
      && r.revocations[..|s.revocations| + |s.playlist|] == s.revocations + Urls(s.playlist)
  {
    ChangeRevocationLog(s, files, o);
  }

  /** Loading the first new track revokes the old bound source again: the URL
      of the previously current track appears twice in the revocation log. */
  lemma ChangeRevokesCurrentTwice(s: State, files: seq<File>, o: PlayOutcome)
    requires Valid(s) && |s.playlist| > 0 && |AudioFiles(files)| > 0
    ensures var r := Change(s, files, o);
      var first, second := |s.revocations| + s.current, |r.revocations| - 1;
      && first < second < |r.revocations|
      && r.revocations[first] == r.revocations[second] == s.src
  {
    ChangeRevocationLog(s, files, o);
    assert Urls(s.playlist)[s.current] == s.src;
  }

  /** Selecting a track revokes the URL of the track that was playing,
      although that track stays in the playlist. */
  lemma LoadRevokesListedTrack(s: State, i: int, o: PlayOutcome)
    requires Valid(s) && 0 <= i < |s.playlist|
    ensures var r := Load(s, i, o);
      && r.playlist[s.current] == s.playlist[s.current]
      && s.playlist[s.current].url in r.revocations
      && r.revocations[|r.revocations| - 1] == s.playlist[s.current].url
  {
  }

  /** Clicking the current track's item binds the very URL that the same click
      has just revoked. */
  lemma ReloadBindsRevokedUrl(s: State, o: PlayOutcome)
    requires Valid(s) && |s.playlist| > 0
    ensures var r := Load(s, s.current, o);
      r.src == s.src && r.src in r.revocations
  {
  }

  /** Stepping forward on a playlist of several tracks revokes the previous
      track's URL while it is still listed. */
  lemma NextRevokesListedTrack(s: State, o: PlayOutcome)
    requires Valid(s) && |s.playlist| > 1
    ensures var r := Next(s, o);
      && r.playlist == s.playlist
      && r.current != s.current
      && s.playlist[s.current].url in r.revocations
  {
    LoadRevokesListedTrack(s, (s.current + 1) % |s.playlist|, o);
  }

  /** The cleanup revokes exactly the tracks' URLs, in playlist order. */
  lemma UnloadRevokesAll(s: State)
    requires Valid(s)
    ensures Unload(s).revocations == s.revocations + Urls(s.playlist)
  {
    RevokeAllAppendsUrls(s.revocations, s.playlist);
  }
}
