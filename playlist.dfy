/** The player's state and its transitions, as values: what the module-level
    `playlist` and `currentTrackIndex`, the media element's source, the title
    and play/pause button texts and the browser's blob-URL registry hold
    after each event handler of script.js has run. The class in player.dfy
    performs the same transitions by updating fields in place. */
module Playlist {
  import JsNumber

  /** The `src` of the media element or the `url` of a track. `Blob(id)` is the
      id-th URL that `URL.createObjectURL` handed out (a `blob:` URL);
      `NoSource` is the empty source of an element that was never bound. */
  datatype Url = NoSource | Blob(id: nat)

  /** `url.startsWith('blob:')` (the empty source is falsy and is not a blob URL). */
  predicate IsBlobUrl(u: Url)
  {
    u.Blob?
  }

  /** An entry of the file input's selection: its name and MIME type. */
  datatype File = File(name: string, mime: string)

  /** A playlist entry `{name, url}`. */
  datatype Track = Track(name: string, url: Url)

  /** How the promise returned by `audio.play()` settles. */
  datatype PlayOutcome = Ok | Blocked

  /** Text of the play/pause button: 'Play', 'Pause', or the hint shown when
      the browser declined autoplay. */
  datatype Label = Play | Pause | PlayBlocked

  /** Text of the track title: whatever the page started with, a track's
      name, or the notice that no file was loaded. */
  datatype Title = Untitled | TrackName(name: string) | NothingLoaded

  datatype State = State(
    playlist: seq<Track>,
    current: int,          // currentTrackIndex
    src: Url,              // audio.src
    title: Title,          // trackTitle.textContent
    paused: bool,          // audio.paused
    button: Label,         // playPauseBtn.textContent
    minted: nat,           // how many blob URLs createObjectURL has handed out
    revocations: seq<Url>  // every URL.revokeObjectURL call, in order
  )

  /** The state once the script and DOMContentLoaded have run: no tracks, no
      cursor, no URL created or revoked, and that state is consistent. */
  function Init(): (r: State)
    ensures Valid(r)
    ensures r.playlist == [] && r.current == -1 && r.minted == 0 && r.revocations == []
  {
    State([], -1, NoSource, Untitled, true, Play, 0, [])
  }

  /** `file.type.startsWith('audio/')`. */
  predicate IsAudio(f: File)
  {
    "audio/" <= f.mime
  }

  /** The consistency the handlers keep: the cursor is -1 exactly when the
      playlist is empty and otherwise a valid index whose track is the one
      bound to the media element and named in the title; the tracks' URLs are
      the most recently minted ones, in order; every URL ever bound or revoked
      was minted before. */
  predicate Valid(s: State)
  {
    && ((|s.playlist| == 0 && s.current == -1) || 0 <= s.current < |s.playlist|)
    && (|s.playlist| > 0 ==>
          s.src == s.playlist[s.current].url && s.title == TrackName(s.playlist[s.current].name))
    && UrlsMinted(s)
  }

  /** The URL part of the invariant: the tracks hold the last `|playlist|`
      URLs minted, in order, and the bound source and every revoked URL were
      minted before. */
  predicate UrlsMinted(s: State)
  {
    && |s.playlist| <= s.minted
    && (forall k :: 0 <= k < |s.playlist| ==> s.playlist[k].url == Blob(s.minted - |s.playlist| + k))
    && (s.src.Blob? ==> s.src.id < s.minted)
    && (forall k :: 0 <= k < |s.revocations| ==> s.revocations[k].Blob? && s.revocations[k].id < s.minted)
  }

  /** The revocation guarded by `startsWith('blob:')`. */
  function Revoke(log: seq<Url>, u: Url): seq<Url>
  {
    if IsBlobUrl(u) then log + [u] else log
  }

  /** A guarded revocation logs the URL exactly when it is a blob URL, and
      otherwise leaves the log alone. */
  lemma RevokeLogsOnlyBlobUrls(log: seq<Url>, u: Url)
    ensures log <= Revoke(log, u)
    ensures |Revoke(log, u)| == |log| + 1 <==> IsBlobUrl(u)
    ensures |Revoke(log, u)| == |log| || Revoke(log, u)[|log|] == u
  {
  }

  /** `tracks.forEach(track => revoke(track.url))`, first track first. */
  function RevokeAll(log: seq<Url>, tracks: seq<Track>): (r: seq<Url>)
    ensures |log| <= |r| <= |log| + |tracks|
    ensures r[..|log|] == log
    ensures forall k :: 0 <= k < |tracks| && IsBlobUrl(tracks[k].url) ==> tracks[k].url in r[|log|..]
  {
    if tracks == [] then log
    else
      var front := tracks[..|tracks| - 1];
      var earlier := RevokeAll(log, front);
      var u := tracks[|tracks| - 1].url;
      assert Revoke(earlier, u)[|log|..] == earlier[|log|..] + (if IsBlobUrl(u) then [u] else []);
      Revoke(earlier, u)
  }

  /** The URLs of a list of tracks, in order. */
  function Urls(tracks: seq<Track>): seq<Url>
  {
    seq(|tracks|, k requires 0 <= k < |tracks| => tracks[k].url)
  }

  /** When every track has a blob URL, revoking them all appends exactly their
      URLs to the log, in playlist order. */
  lemma {:induction false} RevokeAllAppendsUrls(log: seq<Url>, tracks: seq<Track>)
    requires forall k :: 0 <= k < |tracks| ==> IsBlobUrl(tracks[k].url)
    ensures RevokeAll(log, tracks) == log + Urls(tracks)
  {
    if tracks != [] {
      var front := tracks[..|tracks| - 1];
      var u := tracks[|tracks| - 1].url;
      RevokeAllAppendsUrls(log, front);
      assert Urls(tracks) == Urls(front) + [u];
    }
  }

  /** `loadTrack(index)`: out of range it does nothing; otherwise it moves the
      cursor, revokes the previously bound blob source, binds the track's URL
      and name, reloads (which pauses) and asks to play. */
  function Load(s: State, i: int, o: PlayOutcome): (r: State)
    ensures !(0 <= i < |s.playlist|) ==> r == s
    ensures 0 <= i < |s.playlist| ==>
      && r.current == i
      && r.src == s.playlist[i].url
      && r.title == TrackName(s.playlist[i].name)
      && r.playlist == s.playlist
      && r.minted == s.minted
      && r.revocations == (if s.src.Blob? then s.revocations + [s.src] else s.revocations)
      && (r.paused <==> o == Blocked)
      && r.button == (if o == Ok then Pause else PlayBlocked)
  {
    if i < 0 || i >= |s.playlist| then s
    else
      var t := s.playlist[i];
      s.(current := i,
         revocations := Revoke(s.revocations, s.src),
         src := t.url,
         title := TrackName(t.name),
         paused := o != Ok,
         button := if o == Ok then Pause else PlayBlocked)
  }

  /** `nextTrack`, also run when a track ends: on a non-empty playlist the cursor
      moves to `(i + 1) % n`, so the last track is followed by the first. */
  function Next(s: State, o: PlayOutcome): (r: State)
    ensures |s.playlist| == 0 ==> r == s
    ensures 0 <= s.current < |s.playlist| ==>
      && r.current == (s.current + 1) % |s.playlist|
      && r == Load(s, r.current, o)
    ensures 0 <= s.current == |s.playlist| - 1 ==> r.current == 0
  {
    if |s.playlist| == 0 then s
    else
      var n := |s.playlist|;
      var i := JsNumber.Rem(s.current + 1, n);
      assert 0 <= s.current < n ==> 0 <= i < n && i == (s.current + 1) % n;
      assert 0 <= s.current == n - 1 ==> i == 0 by {
        if 0 <= s.current == n - 1 {
          JsNumber.RemUnique(n, 1, 0, n);
        }
      }
      Load(s.(current := i), i, o)
  }

  /** `prevTrack`: on a non-empty playlist the cursor moves to `(i - 1 + n) % n`,
      so the first track is preceded by the last. */
  function Prev(s: State, o: PlayOutcome): (r: State)
    ensures |s.playlist| == 0 ==> r == s
    ensures 0 <= s.current < |s.playlist| ==>
      && r.current == (s.current - 1 + |s.playlist|) % |s.playlist|
      && r == Load(s, r.current, o)
    ensures 0 == s.current < |s.playlist| ==> r.current == |s.playlist| - 1
  {
    if |s.playlist| == 0 then s
    else
      var n := |s.playlist|;
      var i := JsNumber.Rem(s.current - 1 + n, n);
      assert 0 <= s.current < n ==> 0 <= i < n && i == (s.current - 1 + n) % n;
      assert 0 == s.current ==> i == n - 1 by {
        if 0 == s.current {
          JsNumber.RemUnique(n - 1, 0, n - 1, n);
        }
      }
      Load(s.(current := i), i, o)
  }

  /** The play/pause button: nothing on an empty playlist; a paused element is
      asked to play (a blocked request changes nothing); a playing one pauses. */
  function Toggle(s: State, o: PlayOutcome): (r: State)
    ensures |s.playlist| == 0 ==> r == s
    ensures r.playlist == s.playlist && r.current == s.current && r.src == s.src
    ensures r.title == s.title && r.minted == s.minted && r.revocations == s.revocations
    ensures |s.playlist| > 0 && !s.paused ==> r.paused && r.button == Play
    ensures |s.playlist| > 0 && s.paused ==>
      if o == Ok then !r.paused && r.button == Pause else r == s
  {
    if |s.playlist| == 0 then s
    else if s.paused then
      if o == Ok then s.(paused := false, button := Pause) else s
    else s.(paused := true, button := Play)
  }

  /** `files.filter(file => file.type.startsWith('audio/'))`. */
  function AudioFiles(files: seq<File>): (r: seq<File>)
    ensures |r| <= |files|
    ensures forall k :: 0 <= k < |r| ==> IsAudio(r[k])
  {
    if files == [] then []
    else
      var last := files[|files| - 1];
      AudioFiles(files[..|files| - 1]) + (if IsAudio(last) then [last] else [])
  }

  /** The positions of the audio files in a selection, in increasing order. */
  function AudioPositions(files: seq<File>): (r: seq<nat>)
    ensures forall k :: 0 <= k < |r| ==> r[k] < |files| && IsAudio(files[r[k]])
    ensures forall j, k :: 0 <= j < k < |r| ==> r[j] < r[k]
    ensures forall p :: 0 <= p < |files| && IsAudio(files[p]) ==> p in r
  {
    if files == [] then []
    else
      var n := |files| - 1;
      AudioPositions(files[..n]) + (if IsAudio(files[n]) then [n] else [])
  }

  /** The filter keeps exactly the audio files, in their original order: the
      k-th kept file is the file at the k-th audio position of the selection. */
  lemma {:induction false} AudioFilesExact(files: seq<File>)
    ensures |AudioFiles(files)| == |AudioPositions(files)|
    ensures forall k :: 0 <= k < |AudioFiles(files)| ==>
      AudioFiles(files)[k] == files[AudioPositions(files)[k]]
  {
    if files != [] {
      var n := |files| - 1;
      AudioFilesExact(files[..n]);
    }
  }

  /** The playlist built from the kept files: `{name, url: createObjectURL(file)}`
      for each, with the URLs minted in order starting at `base`. */
  function Mint(files: seq<File>, base: nat): (r: seq<Track>)
    ensures |r| == |files|
    ensures forall k :: 0 <= k < |r| ==> r[k].name == files[k].name && r[k].url == Blob(base + k)
  {
    seq(|files|, k requires 0 <= k < |files| => Track(files[k].name, Blob(base + k)))
  }

  /** The file input's `change` handler. An empty selection does nothing.
      Otherwise every old track's blob URL is revoked, the playlist is replaced
      by the selection's audio files in order, and the first of them is loaded;
      if none is audio the cursor stays at -1 and the title says so. */
  function Change(s: State, files: seq<File>, o: PlayOutcome): (r: State)
    ensures |files| == 0 ==> r == s
    ensures |files| > 0 ==>
      && |r.playlist| == |AudioFiles(files)|
      && (forall k :: 0 <= k < |r.playlist| ==> r.playlist[k].name == AudioFiles(files)[k].name)
      && r.current == (if |r.playlist| > 0 then 0 else -1)
      && r.minted == s.minted + |r.playlist|
      && (|r.playlist| == 0 ==> r.title == NothingLoaded && r.src == s.src && r.paused == s.paused)
  {
    if |files| == 0 then s
    else
      var filled := Replace(s, files);
      if |filled.playlist| > 0 then Load(filled.(current := 0), 0, o)
      else filled.(title := NothingLoaded)
  }

  /** The middle of the `change` handler: the old tracks' URLs are revoked
      (the same loop as the `beforeunload` cleanup), the playlist is emptied,
      the cursor reset, and one track is pushed per audio file. */
  function Replace(s: State, files: seq<File>): (r: State)
    ensures r.(playlist := s.playlist, current := s.current, minted := s.minted, revocations := s.revocations) == s
    ensures r.current == -1 && r.minted == s.minted + |r.playlist|
    ensures |r.playlist| == |AudioFiles(files)|
    ensures forall k :: 0 <= k < |r.playlist| ==> r.playlist[k].name == AudioFiles(files)[k].name
    ensures s.revocations <= r.revocations
  {
    var audio := AudioFiles(files);
    Unload(s).(playlist := Mint(audio, s.minted), current := -1, minted := s.minted + |audio|)
  }

  /** After the replacement, the revocations and the bound source are all
      URLs minted before it, and the new tracks carry the URLs minted by it. */
  lemma ReplaceMintsAfterRevoking(s: State, files: seq<File>)
    requires Valid(s)
    ensures UrlsMinted(Replace(s, files))
    ensures forall j :: 0 <= j < |Replace(s, files).revocations| ==>
      Replace(s, files).revocations[j].id < s.minted
    ensures forall k :: 0 <= k < |Replace(s, files).playlist| ==>
      Replace(s, files).playlist[k].url == Blob(s.minted + k)
  {
    assert forall k :: 0 <= k < |s.playlist| ==> s.playlist[k].url.id < s.minted;
    RevokeAllMintedBefore(s.revocations, s.playlist, s.minted);
  }

  /** Revoking tracks whose URLs were all minted before `bound` only logs
      such URLs. */
  lemma {:induction false} RevokeAllMintedBefore(log: seq<Url>, tracks: seq<Track>, bound: nat)
    requires forall j :: 0 <= j < |log| ==> log[j].Blob? && log[j].id < bound
    requires forall k :: 0 <= k < |tracks| ==> tracks[k].url.Blob? ==> tracks[k].url.id < bound
    ensures forall j :: 0 <= j < |RevokeAll(log, tracks)| ==>
      RevokeAll(log, tracks)[j].Blob? && RevokeAll(log, tracks)[j].id < bound
  {
    if tracks != [] {
      RevokeAllMintedBefore(log, tracks[..|tracks| - 1], bound);
    }
  }

  /** The `beforeunload` cleanup: every track's blob URL is revoked. */
  function Unload(s: State): (r: State)
    ensures r.(revocations := s.revocations) == s
    ensures forall k :: 0 <= k < |s.playlist| && IsBlobUrl(s.playlist[k].url) ==>
      s.playlist[k].url in r.revocations
  {
    s.(revocations := RevokeAll(s.revocations, s.playlist))
  }

  /** Selecting a track keeps the invariant. */
  lemma LoadKeepsValid(s: State, i: int, o: PlayOutcome)
    requires Valid(s)
    ensures Valid(Load(s, i, o))
  {
  }

  /** Stepping forward keeps the invariant. */
  lemma NextKeepsValid(s: State, o: PlayOutcome)
    requires Valid(s)
    ensures Valid(Next(s, o))
  {
  }

  /** Stepping back keeps the invariant. */
  lemma PrevKeepsValid(s: State, o: PlayOutcome)
    requires Valid(s)
    ensures Valid(Prev(s, o))
  {
  }

  /** The play/pause button keeps the invariant. */
  lemma ToggleKeepsValid(s: State, o: PlayOutcome)
    requires Valid(s)
    ensures Valid(Toggle(s, o))
  {
  }

  /** The file `change` handler keeps the invariant. */
  lemma ChangeKeepsValid(s: State, files: seq<File>, o: PlayOutcome)
    requires Valid(s)
    ensures Valid(Change(s, files, o))
  {
    if |files| > 0 {
      ReplaceMintsAfterRevoking(s, files);
      var f := Replace(s, files);
      if |f.playlist| > 0 {
        var g := f.(current := 0);
        assert g.playlist == f.playlist && g.src == f.src && g.minted == f.minted && g.revocations == f.revocations;
        LoadRestoresValid(g, 0, o);
        assert Change(s, files, o) == Load(g, 0, o);
      } else {
        assert Change(s, files, o) == f.(title := NothingLoaded);
      }
    }
  }

  /** Loading any listed track binds it, so the cursor part of the invariant
      holds afterwards whatever the cursor was before. */
  lemma LoadRestoresValid(s: State, i: int, o: PlayOutcome)
    requires UrlsMinted(s) && 0 <= i < |s.playlist|
    ensures Valid(Load(s, i, o))
  {
    var r := Load(s, i, o);
    forall j | 0 <= j < |r.revocations|
      ensures r.revocations[j].Blob? && r.revocations[j].id < r.minted
    {
      if j < |s.revocations| {
        assert r.revocations[j] == s.revocations[j];
      }
    }
  }

  /** The `beforeunload` cleanup keeps the invariant. */
  lemma UnloadKeepsValid(s: State)
    requires Valid(s)
    ensures Valid(Unload(s))
  {
    assert forall k :: 0 <= k < |s.playlist| ==> s.playlist[k].url.id < s.minted;
    RevokeAllMintedBefore(s.revocations, s.playlist, s.minted);
  }
}
