/** The script itself: its module-level variables and the page state it writes,
    held as the fields of one object, and its functions and event handlers as
    methods that update those fields step by step. Each handler is proved to
    perform the transition of the same name in module Playlist. */
module Player {
  import opened Playlist
  import opened PlaylistView
  import JsNumber

  class MusicPlayer {
    var playlist: seq<Track>
    var current: int      // currentTrackIndex
    var src: Url          // audio.src
    var title: Title      // trackTitle.textContent
    var paused: bool      // audio.paused
    var button: Label     // playPauseBtn.textContent
    var minted: nat       // blob URLs created so far
    ghost var revocations: seq<Url>

    /** The fields as one value. */
    ghost function Model(): State
      reads this
    {
      Playlist.State(playlist, current, src, title, paused, button, minted, revocations)
    }

    /** The page after the script ran (`playlist = []`, `currentTrackIndex = -1`)
        and DOMContentLoaded set the button to 'Play'. */
    constructor()
      ensures Model() == Init()
    {
      playlist := [];
      current := -1;
      src := NoSource;
      title := Untitled;
      paused := true;
      button := Play;
      minted := 0;
      revocations := [];
    }

    /** `URL.createObjectURL(file)`: a URL never handed out before. */
    method CreateObjectUrl() returns (u: Url)
      modifies this
      ensures u == Blob(old(minted))
      ensures Model() == old(Model()).(minted := old(minted) + 1)
    {
      u := Blob(minted);
      minted := minted + 1;
    }

    /** `URL.revokeObjectURL(u)`, recorded in the revocation log. */
    method RevokeObjectUrl(u: Url)
      modifies this
      ensures Model() == old(Model()).(revocations := old(revocations) + [u])
    {
      revocations := revocations + [u];
    }

    /** `updatePlaylistUI`: the notice for an empty playlist, otherwise one
        item per track, built in playlist order. */
    method UpdatePlaylistUI() returns (v: View)
      ensures v == Render(Model())
    {
      if |playlist| == 0 {
        return EmptyNotice;
      }
      var items: seq<Entry> := [];
      var index := 0;
      while index < |playlist|
        invariant 0 <= index <= |playlist|
        invariant |items| == index
        invariant forall k :: 0 <= k < index ==>
          items[k] == Entry(EntryText(k, playlist[k].name), k == current)
      {
        var item := Entry(EntryText(index, playlist[index].name), index == current);
        items := items + [item];
        index := index + 1;
      }
      v := Entries(items);
    }

    /** `loadTrack(index)`. */
    method LoadTrack(index: int, outcome: PlayOutcome)
      modifies this
      ensures Model() == Load(old(Model()), index, outcome)
    {
      if index < 0 || index >= |playlist| {
        return;
      }
      current := index;
      var track := playlist[index];
      if IsBlobUrl(src) {
        RevokeObjectUrl(src);
      }
      src := track.url;
      title := TrackName(track.name);
      paused := true;  // audio.load()
      if outcome == Ok {
        paused := false;
        button := Pause;
      } else {
        button := PlayBlocked;
      }
    }

    /** `nextTrack`, the handler of the next button and of the `ended` event. */
    method NextTrack(outcome: PlayOutcome)
      modifies this
      ensures Model() == Next(old(Model()), outcome)
    {
      if |playlist| == 0 {
        return;
      }
      current := JsNumber.Rem(current + 1, |playlist|);
      LoadTrack(current, outcome);
    }

    /** `prevTrack`, the handler of the previous button. */
    method PrevTrack(outcome: PlayOutcome)
      modifies this
      ensures Model() == Prev(old(Model()), outcome)
    {
      if |playlist| == 0 {
        return;
      }
      current := JsNumber.Rem(current - 1 + |playlist|, |playlist|);
      LoadTrack(current, outcome);
    }

    /** The play/pause button's click handler. */
    method TogglePlayPause(outcome: PlayOutcome)
      modifies this
      ensures Model() == Toggle(old(Model()), outcome)
    {
      if |playlist| == 0 {
        return;
      }
      if paused {
        if outcome == Ok {
          paused := false;
          button := Pause;
        }
      } else {
        paused := true;  // audio.pause()
        button := Play;
      }
    }

    /** Revokes the blob URL of every track, first track first. */
    method RevokeTrackUrls()
      modifies this
      ensures Model() == old(Model()).(revocations := RevokeAll(old(revocations), old(playlist)))
    {
      var i := 0;
      while i < |playlist|
        invariant 0 <= i <= |playlist|
        invariant Model() == old(Model()).(revocations := RevokeAll(old(revocations), playlist[..i]))
      {
        var url := playlist[i].url;
        if IsBlobUrl(url) {
          RevokeObjectUrl(url);
        }
        assert playlist[..i + 1][..i] == playlist[..i];
        i := i + 1;
      }
      assert playlist[..i] == playlist;
    }

    /** `files.forEach(file => playlist.push({name: file.name, url: URL.createObjectURL(file)}))`. */
    method PushTracks(files: seq<File>)
      modifies this
      ensures Model() == old(Model()).(playlist := old(playlist) + Mint(files, old(minted)),
                                      minted := old(minted) + |files|)
    {
      var j := 0;
      while j < |files|
        invariant 0 <= j <= |files|
        invariant Model() == old(Model()).(playlist := old(playlist) + Mint(files[..j], old(minted)),
                                          minted := old(minted) + j)
      {
        var url := CreateObjectUrl();
        playlist := playlist + [Track(files[j].name, url)];
        j := j + 1;
      }
      assert files[..j] == files;
    }

    /** The file input's `change` handler. */
    method OnFilesChanged(files: seq<File>, outcome: PlayOutcome)
      modifies this
      ensures Model() == Change(old(Model()), files, outcome)
    {
      if |files| == 0 {
        return;
      }
      ghost var before := Model();
      RevokeTrackUrls();
      assert Model() == Unload(before);
      playlist := [];
      current := -1;
      PushTracks(AudioFiles(files));
      assert Model() == Replace(before, files);
      if |playlist| > 0 {
        current := 0;
        LoadTrack(0, outcome);
      } else {
        title := NothingLoaded;
      }
    }

    /** The `beforeunload` handler. */
    method BeforeUnload()
      modifies this
      ensures Model() == Unload(old(Model()))
    {
      RevokeTrackUrls();
    }
  }
}
