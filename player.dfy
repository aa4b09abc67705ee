/**
 * The audio player's playlist state machine (script.js:38-254): the module
 * variables `playlist` and `currentTrackIndex`, the file-input handler that
 * rebuilds the playlist, `loadTrack`, the previous / next / play-pause / ended
 * handlers, and the tag-reader callback that patches an entry in place.
 *
 * The `<audio>` element is an outside party: what the model assigns to its
 * `src` is kept in a field, the `play()` / `pause()` calls a handler makes are
 * returned as a `MediaCall`, and `audio.paused` is read from a parameter.
 */
module Playlist {
  import opened Optional
  import FileNames

  /** An object URL from `URL.createObjectURL`; each call gives a new one. */
  type Url = nat

  /** A selected file: its name and its media type (`file.type`). */
  datatype File = File(name: string, mimeType: string)

  /** A playlist entry, `{url, title, artist, albumArt, file}`. */
  datatype Track = Track(url: Url, title: string, artist: string, albumArt: Option<string>, file: File)

  /** An embedded picture: its media type and its bytes already in base64. */
  datatype Picture = Picture(format: string, base64: string)

  /** What the tag reader found; an absent tag is `None`. */
  datatype Tags = Tags(title: Option<string>, artist: Option<string>, picture: Option<Picture>)

  /** The "now playing" panel: title, artist and album-art image. */
  datatype NowPlaying = NowPlaying(title: string, artist: string, albumArt: Option<string>)

  /** What a handler asks of the media element. */
  datatype MediaCall = CallPlay | CallPause | NoCall

  const UnknownArtist: string := "Unknown Artist"

  /** `file.type.startsWith('audio/')`: the type's first six characters are `audio/`. */
  predicate IsAudio(f: File)
    ensures IsAudio(f) <==> |f.mimeType| >= 6 && f.mimeType[..6] == "audio/"
  {
    "audio/" <= f.mimeType
  }

  /** The entry pushed for an audio file (script.js:126-132). */
  function NewTrack(f: File, url: Url): (t: Track)
    ensures t.url == url && t.file == f
    ensures t.title == FileNames.StripExtension(f.name)
    ensures t.artist == UnknownArtist && t.albumArt == None
  {
    Track(url, FileNames.StripExtension(f.name), UnknownArtist, None, f)
  }

  /** What `updateTrackDisplay` puts on screen for a track. */
  function Shown(t: Track): NowPlaying {
    NowPlaying(t.title, t.artist, t.albumArt)
  }

  /** JavaScript's `value || fallback` for a tag that may be absent or empty. */
  function OrElse(v: Option<string>, fallback: string): (r: string)
    ensures v.Some? && v.value != "" ==> r == v.value
    ensures v.None? || v.value == "" ==> r == fallback
  {
    if v.Some? && v.value != "" then v.value else fallback
  }

  /** The `data:` URI built from an embedded picture, if there is one. */
  function AlbumArt(p: Option<Picture>): (r: Option<string>)
    ensures r.Some? <==> p.Some?
    ensures p.Some? ==> r.value == "data:" + p.value.format + ";base64," + p.value.base64
  {
    match p
    case None => None
    case Some(pic) => Some("data:" + pic.format + ";base64," + pic.base64)
  }

  /** An entry after the tag callback overwrote its three display fields (script.js:89-106). */
  function WithTags(t: Track, tags: Tags, fileName: string): (r: Track)
    ensures r.url == t.url && r.file == t.file
    ensures r.title == OrElse(tags.title, fileName)
    ensures r.artist == OrElse(tags.artist, UnknownArtist)
    ensures r.albumArt == AlbumArt(tags.picture)
  {
    t.(title := OrElse(tags.title, fileName), artist := OrElse(tags.artist, UnknownArtist),
       albumArt := AlbumArt(tags.picture))
  }

  /**
   * The positions, in the selection, of the files the rebuild admits: those
   * whose type starts with `audio/`, in selection order.
   */
  function AudioPositions(files: seq<File>): (ps: seq<nat>)
    ensures |ps| <= |files|
    ensures forall k :: 0 <= k < |ps| ==> ps[k] < |files| && IsAudio(files[ps[k]])
    decreases |files|
  {
    if files == [] then []
    else
      var init := files[..|files| - 1];
      var ps := AudioPositions(init);
      assert forall k :: 0 <= k < |ps| ==> files[ps[k]] == init[ps[k]];
      ps + (if IsAudio(files[|files| - 1]) then [|files| - 1] else [])
  }

  /** Admitting one more file of the selection extends the positions by at most that file's. */
  lemma AudioPositionsStep(files: seq<File>, i: nat)
    requires i < |files|
    ensures AudioPositions(files[..i + 1]) ==
      AudioPositions(files[..i]) + (if IsAudio(files[i]) then [i] else [])
  {
    assert files[..i + 1][..i] == files[..i];
  }

  predicate Increasing(ps: seq<nat>) {
    forall j, k :: 0 <= j < k < |ps| ==> ps[j] < ps[k]
  }

  /** The admitted positions are strictly increasing: selection order is kept. */
  lemma {:induction false} AudioPositionsIncreasing(files: seq<File>)
    ensures Increasing(AudioPositions(files))
    decreases |files|
  {
    if files != [] {
      var init := files[..|files| - 1];
      AudioPositionsIncreasing(init);
      var ps := AudioPositions(init);
      var last := if IsAudio(files[|files| - 1]) then [|files| - 1] else [];
      var full := AudioPositions(files);
      assert full == ps + last;
      forall j, k | 0 <= j < k < |full| ensures full[j] < full[k] {
        assert full[j] == ps[j] && ps[j] < |init|;
        if k < |ps| {
          assert full[k] == ps[k];
          assert ps[j] < ps[k];
        } else {
          assert full[k] == |files| - 1;
        }
      }
    }
  }

  /** Every audio file of the selection is admitted. */
  lemma {:induction false} AudioPositionsComplete(files: seq<File>, p: nat)
    requires p < |files| && IsAudio(files[p])
    ensures p in AudioPositions(files)
    decreases |files|
  {
    if p < |files| - 1 {
      var init := files[..|files| - 1];
      assert init[p] == files[p];
      AudioPositionsComplete(init, p);
    }
  }

  /** A row's `data-index` is never less than its place in the playlist. */
  lemma PositionsDrift(files: seq<File>, k: nat)
    requires k < |AudioPositions(files)|
    ensures AudioPositions(files)[k] >= k
    decreases k
  {
    AudioPositionsIncreasing(files);
    if k > 0 {
      PositionsDrift(files, k - 1);
    }
  }

  /** When every selected file is audio, positions in the selection and in the playlist agree. */
  lemma {:induction false} AllAudioPositions(files: seq<File>)
    requires forall i :: 0 <= i < |files| ==> IsAudio(files[i])
    ensures |AudioPositions(files)| == |files|
    ensures forall k :: 0 <= k < |files| ==> AudioPositions(files)[k] == k
    decreases |files|
  {
    if files != [] {
      var init := files[..|files| - 1];
      AllAudioPositions(init);
    }
  }

  /**
   * The next-track index, `(i + 1) % n`. The dividend is never negative, so
   * JavaScript's truncating `%` and Dafny's agree.
   */
  function NextIndex(i: int, n: int): (r: int)
    requires 0 <= i < n
    ensures 0 <= r < n
    ensures r == if i == n - 1 then 0 else i + 1
  {
    (i + 1) % n
  }

  /** The previous-track index, `(i - 1 + n) % n`. */
  function PrevIndex(i: int, n: int): (r: int)
    requires 0 <= i < n
    ensures 0 <= r < n
    ensures r == if i == 0 then n - 1 else i - 1
  {
    (i - 1 + n) % n
  }

  /** The index reached from `i` after `k` presses of next. */
  function Advance(i: int, n: int, k: nat): (r: int)
    requires 0 <= i < n
    ensures 0 <= r < n
    decreases k
  {
    if k == 0 then i else NextIndex(Advance(i, n, k - 1), n)
  }

  /** Within one cycle, `k` presses of next move `k` places, wrapping past the end once. */
  lemma {:induction false} AdvanceWithinCycle(i: int, n: int, k: nat)
    requires 0 <= i < n && k <= n
    ensures Advance(i, n, k) == if i + k < n then i + k else i + k - n
    decreases k
  {
    if k > 0 {
      AdvanceWithinCycle(i, n, k - 1);
    }
  }

  /** Pressing next once per track comes back to the track one started from. */
  lemma FullCycle(i: int, n: int)
    requires 0 <= i < n
    ensures Advance(i, n, n) == i
  {
    AdvanceWithinCycle(i, n, n);
  }

  /** `a + b` presses are `a` presses followed by `b` presses. */
  lemma {:induction false} AdvanceCompose(i: int, n: int, a: nat, b: nat)
    requires 0 <= i < n
    ensures Advance(i, n, a + b) == Advance(Advance(i, n, a), n, b)
    decreases b
  {
    if b > 0 {
      AdvanceCompose(i, n, a, b - 1);
    }
  }

  /** Next presses are periodic with the playlist's length. */
  lemma AdvancePeriodic(i: int, n: int, k: nat)
    requires 0 <= i < n
    ensures Advance(i, n, k + n) == Advance(i, n, k)
  {
    AdvanceCompose(i, n, k, n);
    FullCycle(Advance(i, n, k), n);
  }

  /** Previous and next undo each other. */
  lemma PrevNextInverse(i: int, n: int)
    requires 0 <= i < n
    ensures NextIndex(PrevIndex(i, n), n) == i
    ensures PrevIndex(NextIndex(i, n), n) == i
  {
  }

  /**
   * The playlist, rows, URL supply and pending tag reads after admitting
   * `files` one by one, starting from URL `base` and the tag reads `tags0`:
   * one entry per audio file in selection order, with consecutive fresh URLs,
   * and one more pending tag read per entry.
   */
  ghost predicate RebuiltFrom(playlist: seq<Track>, rows: seq<nat>, nextUrl: Url, pendingTags: map<Url, string>,
                              files: seq<File>, base: Url, tags0: map<Url, string>)
  {
    && rows == AudioPositions(files)
    && |playlist| == |rows|
    && (forall k :: 0 <= k < |playlist| ==> rows[k] < |files| && playlist[k] == NewTrack(files[rows[k]], base + k))
    && nextUrl == base + |playlist|
    && (forall u :: u in pendingTags ==> u in tags0 || base <= u < nextUrl)
    && (forall u :: u in tags0 ==> u < base && u in pendingTags && pendingTags[u] == tags0[u])
  }

  /** Admitting the next file of the selection, an audio file, keeps `RebuiltFrom`, one file further. */
  lemma RebuiltFromAdmit(playlist: seq<Track>, rows: seq<nat>, nextUrl: Url, pendingTags: map<Url, string>,
                         files: seq<File>, i: nat, base: Url, tags0: map<Url, string>)
    requires i < |files| && IsAudio(files[i])
    requires RebuiltFrom(playlist, rows, nextUrl, pendingTags, files[..i], base, tags0)
    ensures RebuiltFrom(playlist + [NewTrack(files[i], nextUrl)], rows + [i], nextUrl + 1,
                        pendingTags[nextUrl := FileNames.StripExtension(files[i].name)], files[..i + 1], base, tags0)
  {
    AudioPositionsStep(files, i);
    var before, after := files[..i], files[..i + 1];
    var pl, rw := playlist + [NewTrack(files[i], nextUrl)], rows + [i];
    assert after[i] == files[i];
    forall k | 0 <= k < |pl|
      ensures rw[k] < i + 1 && pl[k] == NewTrack(after[rw[k]], base + k)
    {
      if k < |playlist| {
        assert rw[k] == rows[k] < i;
        assert after[rw[k]] == before[rw[k]];
      }
    }
  }

  /** Skipping the next file of the selection, one that is not audio, keeps `RebuiltFrom`, one file further. */
  lemma RebuiltFromSkip(playlist: seq<Track>, rows: seq<nat>, nextUrl: Url, pendingTags: map<Url, string>,
                        files: seq<File>, i: nat, base: Url, tags0: map<Url, string>)
    requires i < |files| && !IsAudio(files[i])
    requires RebuiltFrom(playlist, rows, nextUrl, pendingTags, files[..i], base, tags0)
    ensures RebuiltFrom(playlist, rows, nextUrl, pendingTags, files[..i + 1], base, tags0)
  {
    AudioPositionsStep(files, i);
    var before, after := files[..i], files[..i + 1];
    forall k | 0 <= k < |playlist|
      ensures rows[k] < i + 1 && playlist[k] == NewTrack(after[rows[k]], base + k)
    {
      assert after[rows[k]] == before[rows[k]];
    }
  }

  /**
   * The entries of `playlist` carry increasing URLs, all handed out before
   * `nextUrl`, each with a tag read pending that captured the entry's file
   * name stripped of its extension.
   */
  ghost predicate Listed(playlist: seq<Track>, nextUrl: Url, pendingTags: map<Url, string>)
  {
    && (forall i, j :: 0 <= i < j < |playlist| ==> playlist[i].url < playlist[j].url)
    && (forall i :: 0 <= i < |playlist| ==>
          && playlist[i].url < nextUrl
          && playlist[i].url in pendingTags
          && pendingTags[playlist[i].url] == FileNames.StripExtension(playlist[i].file.name))
  }

  /** Replacing an entry by one with the same URL and file keeps `Listed`. */
  lemma ListedPatch(playlist: seq<Track>, nextUrl: Url, pendingTags: map<Url, string>, k: nat, t: Track)
    requires Listed(playlist, nextUrl, pendingTags)
    requires k < |playlist| && t.url == playlist[k].url && t.file == playlist[k].file
    ensures Listed(playlist[k := t], nextUrl, pendingTags)
  {
    var patched := playlist[k := t];
    assert forall i :: 0 <= i < |playlist| ==> patched[i].url == playlist[i].url && patched[i].file == playlist[i].file;
  }

  /**
   * The player's state. `rows[k]` is the `data-index` of the k-th playlist row
   * (the value its click handler passes to `loadTrack`); `pendingTags` maps the
   * URL of every tag read started to the stripped file name its callback
   * captured; `nextUrl` stands in for the browser's supply of fresh object URLs.
   */
  class Player {
    var playlist: seq<Track>
    var currentTrackIndex: int
    var src: Option<Url>
    var nowPlaying: Option<NowPlaying>
    var rows: seq<nat>
    var nextUrl: Url
    var pendingTags: map<Url, string>

    /** What holds at every moment, also half-way through a rebuild. */
    ghost predicate Catalogue()
      reads this
    {
      && 0 <= currentTrackIndex
      && |rows| == |playlist|
      && Listed(playlist, nextUrl, pendingTags)
      && (forall u :: u in pendingTags ==> u < nextUrl)
    }

    /**
     * The player's invariant: on a non-empty playlist the current index is in
     * range, the media element holds that entry's URL, and the panel shows
     * that entry's (possibly patched) metadata.
     */
    ghost predicate Valid()
      reads this
    {
      && Catalogue()
      && (|playlist| > 0 ==>
            && currentTrackIndex < |playlist|
            && src == Some(playlist[currentTrackIndex].url)
            && nowPlaying == Some(Shown(playlist[currentTrackIndex])))
    }

    /** The state when the page loads (script.js:40-41). */
    constructor ()
      ensures Valid()
      ensures playlist == [] && currentTrackIndex == 0 && src == None && nowPlaying == None
      ensures rows == [] && nextUrl == 0 && pendingTags == map[]
    {
      playlist := [];
      currentTrackIndex := 0;
      src := None;
      nowPlaying := None;
      rows := [];
      nextUrl := 0;
      pendingTags := map[];
    }

    /** `updateTrackDisplay`: show the current entry, if there is one. */
    method UpdateTrackDisplay()
      modifies this`nowPlaying
      ensures 0 <= currentTrackIndex < |playlist| ==> nowPlaying == Some(Shown(playlist[currentTrackIndex]))
      ensures !(0 <= currentTrackIndex < |playlist|) ==> nowPlaying == old(nowPlaying)
    {
      if 0 <= currentTrackIndex < |playlist| {
        nowPlaying := Some(Shown(playlist[currentTrackIndex]));
      }
    }

    /** `loadTrack(index)` (script.js:193-206): out of range does nothing. */
    method LoadTrack(index: int)
      requires Catalogue()
      modifies this`currentTrackIndex, this`src, this`nowPlaying
      ensures Catalogue()
      ensures 0 <= index < |playlist| ==>
        && currentTrackIndex == index
        && src == Some(playlist[index].url)
        && nowPlaying == Some(Shown(playlist[index]))
        && Valid()
      ensures !(0 <= index < |playlist|) ==>
        currentTrackIndex == old(currentTrackIndex) && src == old(src) && nowPlaying == old(nowPlaying)
    {
      if index < 0 || index >= |playlist| {
        return;
      }
      currentTrackIndex := index;
      var track := playlist[index];
      src := Some(track.url);
      UpdateTrackDisplay();
    }

    /**
     * The file-input `change` handler (script.js:72-168). An empty selection
     * changes nothing; otherwise the playlist becomes one fresh entry per audio
     * file, in selection order, and the first of them is loaded.
     */
    method SelectFiles(files: seq<File>)
      requires Valid()
      modifies this
      ensures Valid()
      ensures |files| == 0 ==> unchanged(this)
      ensures |files| > 0 ==>
        && rows == AudioPositions(files)
        && |playlist| == |rows|
        && (forall k :: 0 <= k < |playlist| ==> playlist[k] == NewTrack(files[rows[k]], old(nextUrl) + k))
        && nextUrl == old(nextUrl) + |playlist|
        && (forall u :: u in pendingTags ==> u in old(pendingTags) || old(nextUrl) <= u < nextUrl)
        && (forall u :: u in old(pendingTags) ==> u in pendingTags && pendingTags[u] == old(pendingTags)[u])
      ensures |files| > 0 && |playlist| > 0 ==>
        currentTrackIndex == 0 && src == Some(playlist[0].url) && nowPlaying == Some(Shown(playlist[0]))
      ensures |files| > 0 && |playlist| == 0 ==>
        currentTrackIndex == old(currentTrackIndex) && src == old(src) && nowPlaying == old(nowPlaying)
    {
      if |files| == 0 {
        return;
      }
      Rebuild(files);
      assert RebuiltFrom(playlist, rows, nextUrl, pendingTags, files, old(nextUrl), old(pendingTags));
      if |playlist| > 0 {
        LoadTrack(0);
      }
    }

    /**
     * The body of the handler for a non-empty selection, up to loading the
     * first track (script.js:76-162): clear the playlist and its rows, then
     * admit the files one by one.
     */
    method Rebuild(files: seq<File>)
      requires Catalogue()
      modifies this`playlist, this`rows, this`nextUrl, this`pendingTags
      ensures Catalogue()
      ensures RebuiltFrom(playlist, rows, nextUrl, pendingTags, files, old(nextUrl), old(pendingTags))
    {
      playlist := [];
      rows := [];
      ghost var base, tags0 := nextUrl, pendingTags;
      var i := 0;
      while i < |files|
        invariant 0 <= i <= |files|
        invariant Catalogue()
        invariant RebuiltFrom(playlist, rows, nextUrl, pendingTags, files[..i], base, tags0)
      {
        AdmitFile(files, i, base, tags0);
        i := i + 1;
      }
      assert files[..i] == files;
    }

    /**
     * One step of the `forEach` over the selection (script.js:81-161): an
     * audio file at selection position `index` gets a fresh object URL, a tag
     * read capturing that URL and its stripped name, a playlist entry and a
     * row carrying `index`; any other file is skipped.
     */
    method AdmitFile(files: seq<File>, index: nat, ghost base: Url, ghost tags0: map<Url, string>)
      requires index < |files|
      requires Catalogue()
      requires RebuiltFrom(playlist, rows, nextUrl, pendingTags, files[..index], base, tags0)
      modifies this`playlist, this`rows, this`nextUrl, this`pendingTags
      ensures Catalogue()
      ensures RebuiltFrom(playlist, rows, nextUrl, pendingTags, files[..index + 1], base, tags0)
      ensures !IsAudio(files[index]) ==> unchanged(this)
      ensures IsAudio(files[index]) ==>
        && playlist == old(playlist) + [NewTrack(files[index], old(nextUrl))]
        && rows == old(rows) + [index]
        && nextUrl == old(nextUrl) + 1
        && pendingTags == old(pendingTags)[old(nextUrl) := FileNames.StripExtension(files[index].name)]
    {
      var file := files[index];
      if IsAudio(file) {
        RebuiltFromAdmit(playlist, rows, nextUrl, pendingTags, files, index, base, tags0);
        var url := nextUrl;
        nextUrl := nextUrl + 1;
        var fileName := FileNames.StripExtension(file.name);
        pendingTags := pendingTags[url := fileName];
        playlist := playlist + [Track(url, fileName, UnknownArtist, None, file)];
        rows := rows + [index];
      } else {
        RebuiltFromSkip(playlist, rows, nextUrl, pendingTags, files, index, base, tags0);
      }
    }

    /** `playlist.findIndex(p => p.url === url)`: the first entry with that URL, or -1. */
    method FindTrack(url: Url) returns (k: int)
      ensures -1 <= k < |playlist|
      ensures k >= 0 ==> playlist[k].url == url && forall j :: 0 <= j < k ==> playlist[j].url != url
      ensures k == -1 ==> forall j :: 0 <= j < |playlist| ==> playlist[j].url != url
    {
      k := 0;
      while k < |playlist|
        invariant 0 <= k <= |playlist|
        invariant forall j :: 0 <= j < k ==> playlist[j].url != url
      {
        if playlist[k].url == url {
          return;
        }
        k := k + 1;
      }
      k := -1;
    }

    /**
     * The tag reader's `onSuccess` callback for the file whose object URL is
     * `url` (script.js:88-119). It may arrive at any time, also after the
     * playlist was rebuilt: it patches the entry with that URL if there still
     * is one, and refreshes the panel when that entry is the current one.
     */
    method OnTagsRead(url: Url, tags: Tags)
      requires Valid() && url in pendingTags
      modifies this`playlist, this`nowPlaying
      ensures Valid()
      ensures (forall j :: 0 <= j < |old(playlist)| ==> old(playlist)[j].url != url) ==>
        playlist == old(playlist) && nowPlaying == old(nowPlaying)
      ensures forall k :: 0 <= k < |old(playlist)| && old(playlist)[k].url == url ==>
        && playlist == old(playlist)[k := WithTags(old(playlist)[k], tags, pendingTags[url])]
        && playlist[k].title == OrElse(tags.title, FileNames.StripExtension(playlist[k].file.name))
        && (k != currentTrackIndex ==> nowPlaying == old(nowPlaying))
    {
      var fileName := pendingTags[url];
      var k := FindTrack(url);
      if k != -1 {
        ListedPatch(playlist, nextUrl, pendingTags, k, WithTags(playlist[k], tags, fileName));
        playlist := playlist[k := WithTags(playlist[k], tags, fileName)];
        if k == currentTrackIndex {
          UpdateTrackDisplay();
        }
      }
    }

    /** The play/pause button (script.js:223-231); `audioPaused` is `audio.paused`. */
    method TogglePlay(audioPaused: bool) returns (call: MediaCall)
      ensures |playlist| == 0 ==> call == NoCall
      ensures |playlist| > 0 ==> (call == CallPlay <==> audioPaused) && (call == CallPause <==> !audioPaused)
    {
      if |playlist| == 0 {
        return NoCall;
      }
      if audioPaused {
        call := CallPlay;
      } else {
        call := CallPause;
      }
    }

    /**
     * The previous button (script.js:234-239). `pausedAfterLoad` is what
     * `audio.paused` reads once the new source is set: the browser decides it.
     */
    method Previous(pausedAfterLoad: bool) returns (call: MediaCall)
      requires Valid()
      modifies this`currentTrackIndex, this`src, this`nowPlaying
      ensures Valid()
      ensures |playlist| == 0 ==> unchanged(this) && call == NoCall
      ensures |playlist| > 0 ==>
        && currentTrackIndex == PrevIndex(old(currentTrackIndex), |playlist|)
        && src == Some(playlist[currentTrackIndex].url)
        && call == (if pausedAfterLoad then NoCall else CallPlay)
    {
      if |playlist| == 0 {
        return NoCall;
      }
      currentTrackIndex := (currentTrackIndex - 1 + |playlist|) % |playlist|;
      LoadTrack(currentTrackIndex);
      call := if !pausedAfterLoad then CallPlay else NoCall;
    }

    /** The next button (script.js:242-247). */
    method Next(pausedAfterLoad: bool) returns (call: MediaCall)
      requires Valid()
      modifies this`currentTrackIndex, this`src, this`nowPlaying
      ensures Valid()
      ensures |playlist| == 0 ==> unchanged(this) && call == NoCall
      ensures |playlist| > 0 ==>
        && currentTrackIndex == NextIndex(old(currentTrackIndex), |playlist|)
        && src == Some(playlist[currentTrackIndex].url)
        && call == (if pausedAfterLoad then NoCall else CallPlay)
    {
      if |playlist| == 0 {
        return NoCall;
      }
      currentTrackIndex := (currentTrackIndex + 1) % |playlist|;
      LoadTrack(currentTrackIndex);
      call := if !pausedAfterLoad then CallPlay else NoCall;
    }

    /**
     * The `ended` handler as written (script.js:250-254): advance, load and
     * play. It divides by the playlist's length unguarded, so it is only
     * defined on a non-empty playlist.
     */
    method OnEnded() returns (call: MediaCall)
      requires Valid() && |playlist| > 0
      modifies this`currentTrackIndex, this`src, this`nowPlaying
      ensures Valid()
      ensures currentTrackIndex == NextIndex(old(currentTrackIndex), |playlist|)
      ensures src == Some(playlist[currentTrackIndex].url)
      ensures call == CallPlay
    {
      currentTrackIndex := (currentTrackIndex + 1) % |playlist|;
      LoadTrack(currentTrackIndex);
      call := CallPlay;
    }

    /** The `ended` handler with the emptiness guard the other handlers have. */
    method OnEndedGuarded() returns (call: MediaCall)
      requires Valid()
      modifies this`currentTrackIndex, this`src, this`nowPlaying
      ensures Valid()
      ensures |playlist| == 0 ==> unchanged(this) && call == NoCall
      ensures |playlist| > 0 ==>
        && currentTrackIndex == NextIndex(old(currentTrackIndex), |playlist|)
        && src == Some(playlist[currentTrackIndex].url)
        && call == CallPlay
    {
      if |playlist| == 0 {
        return NoCall;
      }
      call := OnEnded();
    }

    /**
     * A click on playlist row `r` as written (script.js:157-160): it loads the
     * row's `data-index`, its position in the file selection, and plays.
     */
    method ClickRow(r: nat) returns (call: MediaCall)
      requires Valid() && r < |rows|
      modifies this`currentTrackIndex, this`src, this`nowPlaying
      ensures Valid()
      ensures old(rows)[r] < |playlist| ==>
        currentTrackIndex == old(rows)[r] && src == Some(playlist[old(rows)[r]].url)
      ensures old(rows)[r] >= |playlist| ==> unchanged(this)
      ensures call == CallPlay
    {
      LoadTrack(rows[r]);
      call := CallPlay;
    }

    /** A click on row `r` loading the entry that row shows, its playlist position. */
    method ClickRowAt(r: nat) returns (call: MediaCall)
      requires Valid() && r < |rows|
      modifies this`currentTrackIndex, this`src, this`nowPlaying
      ensures Valid()
      ensures currentTrackIndex == r && src == Some(playlist[r].url)
      ensures nowPlaying == Some(Shown(playlist[r]))
      ensures call == CallPlay
    {
      LoadTrack(r);
      call := CallPlay;
    }
  }
}
