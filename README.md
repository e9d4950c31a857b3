# MatinPlayer playlist controller, modelled in Dafny

MatinPlayer is a browser page that plays local audio files. Its `script.js` keeps a
module-level `playlist` (a list of `{name, url}` records) and a cursor
`currentTrackIndex`. Event handlers change them:

- the file input's `change` handler replaces the playlist with the chosen audio files;
- the next and previous buttons, and the media element's `ended` event, move the cursor with wrap-around;
- a click on a list item selects that track;
- the play/pause button toggles playback.

Every track gets a `blob:` URL from `URL.createObjectURL`, and the script revokes
these URLs as it goes.

The project has five modules:

- `JsNumber` (jsnumber.dfy): JavaScript's truncating `%` operator, and the decimal text of a
  number as written by a template literal, with a read-back lemma.
- `Playlist` (playlist.dfy): the page state as a value (`State`) and one function per
  handler. `Valid` is the invariant: the cursor is -1 on an empty playlist and a valid
  index otherwise, the bound source and title belong to the current track, and every
  URL in the playlist, the source or the revocation log was created by `createObjectURL`.
  Each handler function's contract states what the handler does, and a lemma per
  handler states that it keeps `Valid`.
- `PlaylistLaws` (laws.dfy): properties that involve several handler calls: wrap-around,
  previous-undoes-next, the invariant over any sequence of page events, replace-not-append
  on upload, and the order and repetition of URL revocations.
- `PlaylistView` (view.dfy): the list that `updatePlaylistUI` renders, as a pure projection.
- `Player` (player.dfy): the script itself as the class `MusicPlayer`. Its fields are the
  script's variables and the page state it writes. Its methods update those fields step
  by step, as the handlers do, and each is proved to perform the matching transition of
  `Playlist`.

How external things are represented:

- Blob URLs: `Url = NoSource | Blob(id)`. `createObjectURL` returns `Blob(minted)` and
  increments a counter, so every URL it returns is new.
- Revocation: every `revokeObjectURL` call is appended to a ghost log. The log keeps
  order and repetition, so a URL revoked twice appears twice.
- `audio.play()`: the settled result of its promise is an input, `Ok` or `Blocked`. It is
  not tied to whether the bound URL is still valid (see "## Left out").
- `audio.paused`: an abstract boolean. `audio.load()` sets it, as the HTML media load
  algorithm does, and a successful `play()` clears it.
- Page text: the play/pause button text and the track title are small datatypes rather
  than the literal (partly Persian) strings.

The model follows this script's own behaviour, which differs from what players of
this kind often do:

- The script replaces the playlist on every non-empty file selection. It does not append.
- It has no track removal and no generation counter for stale `play()` results.
- It has no separate playback-state enumeration and no stop-at-end policy. `ended`
  always advances with wrap-around.
- A click on the current track reloads it. It does not resume playback.
- It revokes the previously bound URL on every `loadTrack`, even though that track is
  still in the playlist. After a file change it revokes the old current track's URL a
  second time. Both are modelled as written and stated as lemmas.

## Model

| member | source | states |
|---|---|---|
| JsNumber.Rem | script.js:57-67 | JavaScript's `%`: the result lies strictly between -n and n, is congruent to the dividend and has the dividend's sign; for non-negative dividends it agrees with Dafny's `%` |
| JsNumber.Show | script.js:23 | the text of `${n}` for n below 10^21 (list numbers always are) is a non-empty string of decimal digits with no leading zero unless n is 0 |
| JsNumber.ValueOfShow | script.js:23 | reading the digits of `${n}` back gives n |
| Playlist.Init | script.js:10-11 | the state after the script and the DOMContentLoaded handler (line 132) ran: empty playlist, cursor -1, no URL created or revoked, and it satisfies the invariant |
| Playlist.RevokeLogsOnlyBlobUrls | script.js:40 | the `startsWith('blob:')`-guarded revocation (also lines 101 and 126) logs the URL exactly when it is a blob URL and otherwise leaves the log alone |
| Playlist.Load | script.js:32-55 | an out-of-range index changes nothing (no cursor move, no rebinding, no revocation); a valid index moves the cursor there, revokes the previously bound blob source, binds the track's URL and name, leaves the playlist alone, leaves the element paused exactly when play was blocked |
| Playlist.Next | script.js:57-61 | no-op on an empty playlist; from a cursor in range, the cursor becomes (i+1) mod n and that track is loaded, and the last track is followed by the first |
| Playlist.Prev | script.js:63-67 | no-op on an empty playlist; from a cursor in range, the cursor becomes (i-1+n) mod n and that track is loaded, and the first track is preceded by the last |
| Playlist.LoadKeepsValid | script.js:32-55 | selecting a track keeps the invariant |
| Playlist.LoadRestoresValid | script.js:32-55 | loading a listed track makes the state consistent whatever the cursor was before, as long as every URL was created by `createObjectURL` |
| Playlist.NextKeepsValid | script.js:57-61 | stepping forward keeps the invariant |
| Playlist.PrevKeepsValid | script.js:63-67 | stepping back keeps the invariant |
| Playlist.ToggleKeepsValid | script.js:78-88 | the play/pause button keeps the invariant |
| Playlist.Toggle | script.js:78-88 | no-op on an empty playlist; never touches playlist, cursor, source or revocations; a playing element pauses, and a paused one plays unless `play()` is blocked, in which case nothing changes |
| Playlist.AudioFiles | script.js:106 | the filter keeps only files whose MIME type starts with `audio/` and never more files than given |
| Playlist.AudioPositions | script.js:106 | the positions of the audio files, strictly increasing, covering every audio file of the selection |
| Playlist.AudioFilesExact | script.js:106-111 | the kept files are exactly the audio files, in selection order: the k-th kept file is the file at the k-th audio position |
| Playlist.RevokeAll | script.js:100-102 | revoking a list of tracks only appends to the log, and every track's blob URL ends up in the appended part |
| Playlist.RevokeAllAppendsUrls | script.js:100-102 | when every track has a blob URL, exactly their URLs are appended, in playlist order |
| Playlist.Mint | script.js:106-111 | one track per kept file, with the file's name and a fresh URL numbered in order |
| Playlist.Replace | script.js:100-111 | the middle of the file handler: the playlist becomes one track per audio file with the files' names in order, the cursor -1, one URL is created per track, old revocations stay in the log, and source, title, paused flag and button are untouched |
| Playlist.ReplaceMintsAfterRevoking | script.js:100-111 | after the old URLs are revoked and the new tracks pushed, every revoked URL was created before the handler ran, and the k-th new track carries the k-th URL created by it |
| Playlist.RevokeAllMintedBefore | script.js:100-102 | revoking tracks whose URLs were all created before some point logs only URLs created before that point |
| Playlist.Change | script.js:95-120 | an empty selection changes nothing; otherwise the new playlist is one track per audio file, with the files' names in order; the cursor is 0 if any track survives and -1 otherwise; with no audio file the title says nothing was loaded and the bound source and paused flag are unchanged |
| Playlist.ChangeKeepsValid | script.js:95-120 | the file handler keeps the invariant |
| Playlist.Unload | script.js:124-128 | the cleanup changes only the revocation log, and every track's blob URL is in it afterwards |
| Playlist.UnloadKeepsValid | script.js:124-128 | the cleanup keeps the invariant |
| PlaylistLaws.Step | script.js:89-91 | which handler each event runs (a list click runs `loadTrack(index)` per line 27, `ended` runs `nextTrack`, the file input runs the line-95 handler); whatever the event, the revocation log only grows and the count of created URLs never decreases |
| PlaylistLaws.StepKeepsValid | script.js:78-120 | every event handler (list click, next, previous, `ended`, play/pause, file change) keeps the invariant |
| PlaylistLaws.RunKeepsValid | script.js:78-120 | any sequence of clicks, file selections and `ended` events keeps the invariant |
| PlaylistLaws.ReachableIsValid | script.js:10-11 | every state reachable from page load satisfies the invariant |
| PlaylistLaws.NextAllAdvances | script.js:57-61 | after k forward steps the cursor has advanced by k modulo the playlist length, and the playlist is unchanged |
| PlaylistLaws.NextWrapsAround | script.js:57-61 | n forward steps on a playlist of n tracks return to the starting track with the same source bound, and that source has already been revoked |
| PlaylistLaws.NextAllRevokesStart | script.js:40 | any non-empty run of forward steps revokes the source bound at the start |
| PlaylistLaws.PrevUndoesNext | script.js:57-67 | previous after next restores the cursor and the bound source and leaves the playlist alone |
| PlaylistLaws.NextUndoesPrev | script.js:57-67 | next after previous restores the cursor and the bound source and leaves the playlist alone |
| PlaylistLaws.PrevAfterNextBindsRevokedUrl | script.js:40-42 | next then previous binds the starting track's URL again, although the step forward revoked it |
| PlaylistLaws.NextAfterPrevBindsRevokedUrl | script.js:40-42 | previous then next binds the starting track's URL again, although the step back revoked it |
| PlaylistLaws.ChangeReplacesPlaylist | script.js:103-111 | after a non-empty selection the playlist holds exactly the selection's audio files in order; none of the new URLs is an old track's URL or has been revoked |
| PlaylistLaws.ChangeRevokesOnlyOldUrls | script.js:100-115 | every URL revoked during a file change was created before it |
| PlaylistLaws.ChangeRevocationLog | script.js:100-115 | a non-empty selection appends to the log exactly the old tracks' URLs in order, then the old bound source once more if an audio file was chosen |
| PlaylistLaws.ChangeRevokesOldTracks | script.js:100-103 | every old track's URL is revoked, in playlist order, before anything else the handler revokes |
| PlaylistLaws.ChangeRevokesCurrentTwice | script.js:100-115 | when the old playlist was non-empty and an audio file is chosen, the old current track's URL is revoked twice: once in the cleanup loop and again when track 0 is loaded |
| PlaylistLaws.LoadRevokesListedTrack | script.js:40 | selecting any track, the current one included, revokes the current track's URL while that track stays in the playlist |
| PlaylistLaws.ReloadBindsRevokedUrl | script.js:40-42 | clicking the current track's item binds the very URL that the same click revoked |
| PlaylistLaws.NextRevokesListedTrack | script.js:57-60 | on a playlist of two or more tracks, stepping forward revokes the URL of a track that is still listed |
| PlaylistLaws.UnloadRevokesAll | script.js:124-128 | the cleanup appends exactly the tracks' URLs to the log, in order |
| PlaylistView.Render | script.js:14-30 | the notice exactly when the playlist is empty; otherwise one item per track, numbered from 1 and followed by the name, marked active exactly at the cursor |
| PlaylistView.RenderMarksCurrentOnly | script.js:24-26 | in a consistent non-empty state the current track's item is active and no other item is |
| PlaylistView.EntryTextReadsBack | script.js:23 | an item's text reads back as its 1-based number, then ". ", then the track's name |
| Player.MusicPlayer.constructor | script.js:10-11 | the object starts with an empty playlist and cursor -1 |
| Player.MusicPlayer.CreateObjectUrl | script.js:109 | returns the next unused blob URL and changes nothing else |
| Player.MusicPlayer.RevokeObjectUrl | script.js:101 | appends the URL to the revocation log and changes nothing else |
| Player.MusicPlayer.UpdatePlaylistUI | script.js:14-30 | the loop builds exactly the rendered list of the current state |
| Player.MusicPlayer.LoadTrack | script.js:32-55 | updates the fields exactly as `Playlist.Load` describes |
| Player.MusicPlayer.NextTrack | script.js:57-61 | updates the fields exactly as `Playlist.Next` describes |
| Player.MusicPlayer.PrevTrack | script.js:63-67 | updates the fields exactly as `Playlist.Prev` describes |
| Player.MusicPlayer.TogglePlayPause | script.js:78-88 | updates the fields exactly as `Playlist.Toggle` describes |
| Player.MusicPlayer.RevokeTrackUrls | script.js:100-102 | the loop appends the revocations of all track URLs and changes nothing else |
| Player.MusicPlayer.PushTracks | script.js:106-111 | the loop appends one freshly minted track per file and changes nothing else |
| Player.MusicPlayer.OnFilesChanged | script.js:95-120 | updates the fields exactly as `Playlist.Change` describes |
| Player.MusicPlayer.BeforeUnload | script.js:124-128 | updates the fields exactly as `Playlist.Unload` describes |

## Left out

- DOM lookup, `innerHTML`/`createElement` rendering and the listener registration mechanism (script.js:2-8, 16-28, 78-91) are browser glue; which handler each listener runs is modelled by `PlaylistLaws.Step`. All elements are assumed present, so the `if (audio)`-style guards are always true. The rendered list is kept as the abstract `View`.
- `triggerFileInput` (script.js:70-74) only opens the browser's file dialog.
- The timing of the `play()` promise (script.js:47-52, 81-83) is not modelled. Its settled outcome is a parameter and takes effect at once.
- `audio.load()`, media playback, decoding and the `paused` attribute are platform behaviour. `paused` is an abstract boolean as described above.
- The literal texts of the title, the button and the empty-list notice are replaced by datatype constructors.
- The `DOMContentLoaded` handler (script.js:131-134) is folded into the constructor: it sets the button to 'Play' and renders the list.
- `Url` has no form other than the empty source and blob URLs, because the script binds nothing else. The `startsWith('blob:')` tests therefore become `Blob?`.
- The `play()` outcome is not tied to whether the bound URL was revoked. `loadTrack` binds an already revoked URL when the current item is clicked, after next then previous (or previous then next), on wrap-around, and on every `ended` of a one-track playlist. A browser cannot load a revoked blob URL, so `play()` fails there, but the model still accepts `Ok` in those cases. The lemmas `ReloadBindsRevokedUrl`, `PrevAfterNextBindsRevokedUrl`, `NextAfterPrevBindsRevokedUrl` and `NextWrapsAround` state when it happens.
- The media element setting its own `paused` flag when playback ends is not modelled. `ended` only runs `nextTrack`, so on an empty playlist (after a selection with no audio file while a track played) the model's `paused` keeps its old value.
- `${n}` is modelled only below 10^21, where JavaScript switches to exponent notation. List numbers never get that large.
