# Playlist state machine of the matrix-rain music player

A model, in Dafny, of the part of `script.js` that keeps state: the playlist
of a single-page audio player. The page holds two module variables, the
`playlist` of track records `{url, title, artist, albumArt, file}` and the
`currentTrackIndex`. A file selection rebuilds the playlist from the audio
files in it. `loadTrack` moves the index with a range guard. The previous,
next and play/pause buttons and the media element's `ended` event navigate
with modular wrap-around. A tag reader, running asynchronously, patches
entries in place by their object URL. Two pure helpers come with it:
`formatTime`, which renders seconds as `M:SS`, and the regular expression
that strips a file name's extension.

Files:

- `optional.dfy` (`Optional`): `Option`, standing for JavaScript's `null` next to a present value.
- `time_format.dfy` (`TimeFormat`): `formatTime`, with a reader of `M:SS` displays as its partner.
- `file_names.dfy` (`FileNames`): `name.replace(/\.[^/.]+$/, '')`, with the place the pattern matches as its specification.
- `player.dfy` (`Playlist`): the track records, the index arithmetic and the class `Player` holding the page's state.
- `scenarios.dfy` (`PlayerScenarios`): client code that drives a `Player` through a filtered selection, a stale tag read, tag fallbacks, wrap-around at the end, an emptied playlist and row clicks.

How the outside world enters the model:

- The `<audio>` element is a party outside the model. Its `src` is a field of `Player`. The `play()` and `pause()` calls a handler makes are returned as a `MediaCall`. `audio.paused` is a parameter, because the browser decides it.
- `URL.createObjectURL` is a counter `nextUrl`. Each call hands out a new natural number, so object URLs are fresh and distinct.
- Starting a tag read records, in `pendingTags`, the URL the read's callback captured, together with the stripped file name. The callback `OnTagsRead` may then be called at any later time, with any URL that has a read started, and with any tags. This covers a callback that arrives after the playlist was rebuilt.
- An embedded picture reaches the model already base64-encoded. The `data:` URI built from it is treated as opaque text.

## Model

| member | source | states |
|---|---|---|
| `TimeFormat.Decimal` | script.js:64 | `toString` of a whole number: at least one digit, all decimal digits, no leading zero |
| `TimeFormat.DecimalRoundTrip` | script.js:64 | reading the decimal digits back gives the number |
| `TimeFormat.PadStart` | script.js:64 | `padStart(width, fill)`: the result is as long as `s` or `width`, whichever is longer, ends with `s` and is `fill` in front of it |
| `TimeFormat.PadTwoDigits` | script.js:64 | a seconds value below 60 padded to width two is exactly its two digits |
| `TimeFormat.FormatTime` | script.js:60-65 | `NaN` gives `0:00`; a time `t >= 0` shows exactly as its whole seconds `floor(t)` would: both parts truncate, nothing rounds |
| `TimeFormat.WholeMinutes` | script.js:62 | `Math.floor(t / 60)` is the quotient of the whole seconds `floor(t)` by 60 |
| `TimeFormat.SecondsOfMinute` | script.js:63 | `Math.floor(t % 60)` is the remainder of the whole seconds `floor(t)` by 60, so always below 60 |
| `TimeFormat.FloorQuotient` | script.js:62 | dividing a time by 60 and truncating gives the quotient of its whole seconds by 60 |
| `TimeFormat.FloorRemainder` | script.js:63 | what is left after the whole minutes truncates to the remainder of the whole seconds by 60 |
| `TimeFormat.Clock` | script.js:64 | the template literal: minutes in decimal, a colon, and seconds below 60 as exactly two digits |
| `TimeFormat.FormatWhole` | script.js:60-65 | over whole seconds `n`: `n / 60` in decimal, a colon, and the tens and units digits of `n % 60` |
| `TimeFormat.FormatTimeShape` | script.js:60-65 | for `t >= 0`: the minutes `floor(t)/60` in decimal, a `:`, and `floor(t)%60` as exactly two digits |
| `TimeFormat.FormatTimeReadsBack` | script.js:60-65 | reading the display back as `60 * M + SS` gives `floor(t)`: only the fraction of a second is lost |
| `TimeFormat.FormatWholeReadsBack` | script.js:60-65 | a whole number of seconds reads back from its display unchanged |
| `TimeFormat.ClockReadsBack` | script.js:64 | minutes in decimal, a colon and two digits below 60 read back as `60 * m + k` |
| `TimeFormat.FormatTimeExamples` | script.js:60-65 | `NaN` shows `0:00`; 61 and 61.9 show `1:01`; 3599 shows `59:59`; 3600 shows `60:00` |
| `FileNames.ExtensionAt` | script.js:84 | where `/\.[^/.]+$/` matches: a `.` at `i`, at least one character after it, and no `.` or `/` from there to the end |
| `FileNames.ExtensionAtUnique` | script.js:84 | the anchored pattern `\.[^/.]+$` can match in at most one place |
| `FileNames.ScanBack` | script.js:84 | scanning from the end finds the matching `.` if there is one, and reports no match only when there is none |
| `FileNames.ExtensionStart` | script.js:84 | the position returned is exactly the one where the pattern matches, and none when it matches nowhere |
| `FileNames.StripExtension` | script.js:84 | the result is a prefix of the name, and is either the whole name or cut exactly where the pattern matches |
| `FileNames.UnchangedIffNoMatch` | script.js:84 | the name is unchanged if and only if the pattern matches nowhere in it |
| `FileNames.StripAt` | script.js:84 | where the pattern matches at `i`, the result is the name's first `i` characters |
| `FileNames.NoDotUnchanged` | script.js:84 | a name without a `.` is unchanged |
| `FileNames.TrailingDotUnchanged` | script.js:84 | a name ending in `.` is unchanged |
| `FileNames.RemovedSuffix` | script.js:84 | when something is removed, it is a `.` and at least one more character, none of them `.` or `/` |
| `FileNames.StripExtensionExamples` | script.js:84 | `a.b.mp3` becomes `a.b`; a `/` after the dot blocks the match; `.bashrc` becomes empty; stripping twice differs from stripping once |
| `Playlist.IsAudio` | script.js:82 | `file.type.startsWith('audio/')`: the type's first six characters are `audio/` |
| `Playlist.NewTrack` | script.js:126-132 | a new entry has the fresh URL, the file, the stripped name as title, `Unknown Artist` and no album art |
| `Playlist.Shown` | script.js:175-189 | what `updateTrackDisplay` shows for a track: its title, its artist and its album art, if any |
| `Playlist.OrElse` | script.js:90-91 | JavaScript's logical or with a fallback: a present, non-empty tag wins, otherwise the fallback |
| `Playlist.AlbumArt` | script.js:92-99 | art is present exactly when a picture is, as `data:<format>;base64,<data>` |
| `Playlist.WithTags` | script.js:89-106 | a patched entry keeps its URL and file; title falls back to the stripped name, artist to `Unknown Artist` |
| `Playlist.AudioPositions` | script.js:81-82 | the selection positions admitted are in range and all of audio files |
| `Playlist.AudioPositionsStep` | script.js:81-82 | one more file of the selection adds its position exactly when its type starts with `audio/` |
| `Playlist.AudioPositionsIncreasing` | script.js:81-82 | admitted positions are strictly increasing: selection order is kept |
| `Playlist.AudioPositionsComplete` | script.js:81-82 | every audio file of the selection is admitted |
| `Playlist.PositionsDrift` | script.js:138 | a row's `data-index` is never smaller than its place in the playlist |
| `Playlist.AllAudioPositions` | script.js:81-138 | when every selected file is audio, selection positions and playlist positions agree |
| `Playlist.NextIndex` | script.js:244 | `(i + 1) % n` stays in `[0, n)`: the successor, wrapping from the last index to 0 |
| `Playlist.PrevIndex` | script.js:236 | `(i - 1 + n) % n` stays in `[0, n)`: the predecessor, wrapping from 0 to the last index |
| `Playlist.Advance` | script.js:242-247 | any number of next presses stays in `[0, n)` |
| `Playlist.AdvanceWithinCycle` | script.js:242-247 | `k <= n` presses of next move `k` places, wrapping past the end at most once |
| `Playlist.FullCycle` | script.js:242-247 | `n` presses of next return to the starting index |
| `Playlist.AdvanceCompose` | script.js:242-247 | `a + b` presses of next are `a` presses followed by `b` presses |
| `Playlist.AdvancePeriodic` | script.js:242-247 | next presses are periodic with the playlist's length |
| `Playlist.PrevNextInverse` | script.js:234-247 | previous then next, and next then previous, return to the starting index |
| `Playlist.RebuiltFromAdmit` | script.js:82-148 | admitting an audio file appends its entry with the next URL, its row and its pending tag read |
| `Playlist.RebuiltFromSkip` | script.js:81-82 | skipping a non-audio file changes nothing that was built |
| `Playlist.ListedPatch` | script.js:102-106 | overwriting an entry's display fields keeps URLs ordered, handed out and with their tag reads |
| `Playlist.Player.Valid` | script.js:193-200 | the player's invariant: on a non-empty playlist the index is in range, the media element holds that entry's URL and the panel shows that entry |
| `Playlist.Player.constructor` | script.js:40-41 | the page starts with an empty playlist, index 0 and no source |
| `Playlist.Player.UpdateTrackDisplay` | script.js:171-190 | the panel shows the current entry's title, artist and art; with no current entry it is left alone |
| `Playlist.Player.LoadTrack` | script.js:193-206 | out of range changes nothing; otherwise the index is set, the source is that entry's URL, the panel shows it and the playlist is unchanged |
| `Playlist.Player.SelectFiles` | script.js:72-168 | an empty selection changes nothing; otherwise the playlist is exactly one fresh entry per audio file in selection order, and the first is loaded when there is one |
| `Playlist.Player.Rebuild` | script.js:76-162 | the loop over the selection builds exactly the entries, rows, URLs and tag reads of the audio files |
| `Playlist.Player.AdmitFile` | script.js:81-161 | one step of the loop: an audio file gets a URL, a tag read, an entry and a row carrying its selection position; another file changes nothing |
| `Playlist.Player.FindTrack` | script.js:102 | `findIndex` by URL: the first entry with that URL, or -1 when no entry has it |
| `Playlist.Player.OnTagsRead` | script.js:88-119 | a stale URL changes nothing; otherwise only the first entry with that URL gets new title, artist and art, and the panel is refreshed only if it is the current entry |
| `Playlist.Player.TogglePlay` | script.js:223-231 | nothing on an empty playlist; otherwise play when paused and pause when playing |
| `Playlist.Player.Previous` | script.js:234-239 | nothing on an empty playlist; otherwise the index becomes `(i - 1 + n) % n` and that entry is loaded |
| `Playlist.Player.Next` | script.js:242-247 | nothing on an empty playlist; otherwise the index becomes `(i + 1) % n` and that entry is loaded |
| `Playlist.Player.OnEnded` | script.js:250-254 | on a non-empty playlist: the index becomes `(i + 1) % n`, that entry is loaded and played |
| `Playlist.Player.OnEndedGuarded` | script.js:250-254 | the same with an emptiness guard: on an empty playlist nothing changes |
| `Playlist.Player.ClickRow` | script.js:157-160 | a row click loads the row's selection position, which does nothing when it is out of the playlist's range, and plays |
| `Playlist.Player.ClickRowAt` | script.js:157-160 | a row click that loads the row's playlist position always loads the entry the row shows |
| `PlayerScenarios.SelectionKeepsAudioInOrder` | script.js:72-168 | selecting audio, text, audio gives a two-entry playlist of the audio files in order, rows `0` and `2`, index 0 |
| `PlayerScenarios.StaleTagsAreDropped` | script.js:88-119 | tags for a file of an earlier selection change neither the new playlist nor the panel |
| `PlayerScenarios.TagsRefreshNowPlaying` | script.js:115-118 | tags for the loaded track appear on the panel at once |
| `PlayerScenarios.TagsFallBack` | script.js:90-99 | an empty title, no artist and no picture show the stripped name, `Unknown Artist` and no art |
| `PlayerScenarios.EndedWrapsAround` | script.js:250-254 | with three tracks, the end of the third moves to the first and plays it |
| `PlayerScenarios.PreviousThenNext` | script.js:234-247 | previous from the first track goes to the last, and next from there comes back |
| `PlayerScenarios.EmptiedWhileLoaded` | script.js:72-82 | a selection of only non-audio files empties the playlist while the old source stays loaded |
| `PlayerScenarios.ClickDrift` | script.js:138-158 | after `notes.txt, a.mp3, b.mp3`, clicking the row of `a` loads `b` and clicking the row of `b` loads nothing |
| `PlayerScenarios.ClickByPosition` | script.js:157-158 | loading by playlist position, each row loads its own track |

The invariant `Player.Valid` holds before and after every handler: on a
non-empty playlist, `0 <= currentTrackIndex < |playlist|`, the media element
holds the current entry's URL, and the panel shows that entry. `Catalogue`,
which also holds half-way through a rebuild, keeps every entry's URL handed
out, in increasing order, and with a tag read pending.

The playlist row marked "active" is the one at `currentTrackIndex`; the model
keeps no row state besides each row's `data-index` (`Player.rows`).

## Left out

- The matrix-rain canvas, the visualizer bars and the glitch animations: presentation driven by timers and `Math.random`.
- DOM rendering: `innerHTML`, the rows' text, the `active` class and the `data-index` lookups. Only each row's `data-index` is kept. Note that the tag callback updates the row whose `data-index` equals the entry's playlist position, so after skipped files it writes to a different row; this is not modelled.
- `jsmediatags.read` itself and its `onError` path, which only logs. A read that never succeeds is a callback that is never called.
- The conversion of picture bytes to base64 (`String.fromCharCode` and `btoa`). The model takes the base64 text as given.
- `URL.createObjectURL` is a counter of fresh numbers. The code never calls `URL.revokeObjectURL`, although a rebuild discards the old entries, so the model releases nothing either.
- Seeking, volume, the progress bar and the time display while playing: floating-point geometry on the media element.
- Per-row duration probing with `new Audio(url)`: I/O on the media element.
- What `audio.paused` reads after a source change, and whether playback continues: the browser decides it. `Previous` and `Next` take it as a parameter and promise nothing about the play state.
- `TimeFormat.FormatTime`: defined for `NaN` and for non-negative finite numbers. Negative times and `Infinity` are not modelled; the media element reports neither for a local file. Minutes of `10^21` and more, which JavaScript prints in exponent notation, are not modelled.
- `Playlist.Player.OnEnded`: requires a non-empty playlist. On an empty one the JavaScript computes `% 0`, which yields `NaN`. `NaN` passes `loadTrack`'s range guard, and reading `playlist[NaN].url` throws. The model does not represent that thrown error; see the findings.
- `Playlist.Player.OnTagsRead`: takes only URLs for which a tag read was started. No callback can carry any other URL.

## Findings

| source | as written | input that shows it | evidently intended | confidence | as-written member | corrected member |
|---|---|---|---|---|---|---|
| script.js:250-254 | the `ended` handler computes `(currentTrackIndex + 1) % playlist.length` with no emptiness check | select one audio file, then a selection of only non-audio files: the playlist is empty while the old source is still loaded and can reach its end | an emptiness guard as in the previous and next handlers | not executed | `PlayerScenarios.EmptiedWhileLoaded` (with `Playlist.Player.OnEnded`) | `Playlist.Player.OnEndedGuarded` |
| script.js:138-158 | each row stores, and its click loads, the file's position in the selection rather than in the playlist | select `notes.txt, a.mp3, b.mp3`: the row of `a` loads `b`, the row of `b` loads nothing | a row loads the entry it shows | not executed | `PlayerScenarios.ClickDrift` (with `Playlist.Player.ClickRow`) | `Playlist.Player.ClickRowAt` |
