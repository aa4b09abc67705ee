/**
 * Client code that drives a `Player` through a filtered selection, a stale
 * tag read, tag fallbacks, wrap-around at the end, an emptied playlist and
 * row clicks: what callers can conclude from the player's contracts alone.
 */
module PlayerScenarios {
  import opened Optional
  import opened Playlist
  import FileNames

  /** The positions admitted from a one-file selection. */
  lemma PositionsOfOne(files: seq<File>)
    requires |files| == 1
    ensures AudioPositions(files) == if IsAudio(files[0]) then [0] else []
  {
    assert files[..0] == [];
    AudioPositionsStep(files, 0);
    assert files[..1] == files;
  }

  /** The positions admitted from a three-file selection, computed one file at a time. */
  lemma PositionsOfThree(files: seq<File>)
    requires |files| == 3
    ensures AudioPositions(files) ==
      (if IsAudio(files[0]) then [0] else []) + (if IsAudio(files[1]) then [1] else [])
      + (if IsAudio(files[2]) then [2] else [])
  {
    assert files[..0] == [];
    AudioPositionsStep(files, 0);
    AudioPositionsStep(files, 1);
    AudioPositionsStep(files, 2);
    assert files[..3] == files;
  }

  /**
   * Selecting audio, non-audio, audio (say `a.mp3`, `b.txt`, `c.wav`) gives a
   * two-entry playlist of the audio files in order, with the first loaded.
   */
  method SelectionKeepsAudioInOrder(a: File, b: File, c: File)
    returns (titles: seq<string>, rowIndices: seq<nat>, index: int)
    requires IsAudio(a) && !IsAudio(b) && IsAudio(c)
    ensures titles == [FileNames.StripExtension(a.name), FileNames.StripExtension(c.name)]
    ensures rowIndices == [0, 2]
    ensures index == 0
  {
    var p := new Player();
    PositionsOfThree([a, b, c]);
    p.SelectFiles([a, b, c]);
    titles := [p.playlist[0].title, p.playlist[1].title];
    rowIndices := p.rows;
    index := p.currentTrackIndex;
  }

  /** A tag result for a file of an earlier selection finds no entry and changes nothing. */
  method StaleTagsAreDropped(first: File, second: File, tags: Tags) returns (changed: bool, staleWasLive: bool)
    requires IsAudio(first) && IsAudio(second)
    ensures !changed
    ensures staleWasLive
  {
    var p := SelectOne(first);
    PositionsOfOne([second]);
    var staleUrl := p.playlist[0].url;
    staleWasLive := staleUrl in p.pendingTags;
    p.SelectFiles([second]);
    var before := p.playlist;
    var shownBefore := p.nowPlaying;
    p.OnTagsRead(staleUrl, tags);
    changed := p.playlist != before || p.nowPlaying != shownBefore;
  }

  /** A fresh player after selecting a single audio file. */
  method SelectOne(song: File) returns (p: Player)
    requires IsAudio(song)
    ensures fresh(p) && p.Valid()
    ensures |p.playlist| == 1 && p.playlist[0] == NewTrack(song, p.playlist[0].url)
    ensures p.currentTrackIndex == 0 && p.src == Some(p.playlist[0].url)
  {
    p := new Player();
    PositionsOfOne([song]);
    p.SelectFiles([song]);
  }

  /** Tags for the loaded track update the entry and the panel at once. */
  method TagsRefreshNowPlaying(song: File, title: string, artist: string, picture: Picture)
    returns (shown: Option<NowPlaying>)
    requires IsAudio(song) && title != "" && artist != ""
    ensures shown == Some(NowPlaying(title, artist, AlbumArt(Some(picture))))
  {
    var p := SelectOne(song);
    var url := p.playlist[0].url;
    var entry := p.playlist[0];
    var tags := Tags(Some(title), Some(artist), Some(picture));
    p.OnTagsRead(url, tags);
    assert p.playlist[0] == WithTags(entry, tags, p.pendingTags[url]);
    shown := p.nowPlaying;
  }

  /**
   * An empty title tag falls back to the stripped file name, a missing artist
   * to "Unknown Artist", and a missing picture removes the album art.
   */
  method TagsFallBack(song: File) returns (shown: Option<NowPlaying>)
    requires IsAudio(song)
    ensures shown == Some(NowPlaying(FileNames.StripExtension(song.name), UnknownArtist, None))
  {
    var p := SelectOne(song);
    var url := p.playlist[0].url;
    p.OnTagsRead(url, Tags(Some(""), None, None));
    shown := p.nowPlaying;
  }

  /** With three tracks, the end of the last one wraps to the first and plays it. */
  method EndedWrapsAround(x: File, y: File, z: File) returns (before: int, after: int, call: MediaCall)
    requires IsAudio(x) && IsAudio(y) && IsAudio(z)
    ensures before == 2 && after == 0 && call == CallPlay
  {
    var p := new Player();
    PositionsOfThree([x, y, z]);
    p.SelectFiles([x, y, z]);
    var _ := p.ClickRowAt(2);
    before := p.currentTrackIndex;
    call := p.OnEnded();
    after := p.currentTrackIndex;
  }

  /** Previous then next, from the first track, comes back to it through the last one. */
  method PreviousThenNext(x: File, y: File, z: File) returns (middle: int, back: int)
    requires IsAudio(x) && IsAudio(y) && IsAudio(z)
    ensures middle == 2 && back == 0
  {
    var p := new Player();
    PositionsOfThree([x, y, z]);
    p.SelectFiles([x, y, z]);
    var _ := p.Previous(true);
    middle := p.currentTrackIndex;
    var _ := p.Next(true);
    back := p.currentTrackIndex;
  }

  /**
   * A selection of only non-audio files empties the playlist but leaves the
   * old source in the media element, which can still reach its end: the state
   * in which the unguarded `ended` handler divides by zero.
   */
  method EmptiedWhileLoaded(song: File, notes: File) returns (length: nat, source: Option<Url>)
    requires IsAudio(song) && !IsAudio(notes)
    ensures length == 0 && source.Some?
  {
    var p := SelectOne(song);
    PositionsOfOne([notes]);
    p.SelectFiles([notes]);
    length := |p.playlist|;
    source := p.src;
  }

  /** A selection non-audio, audio, audio (say `notes.txt`, `a.mp3`, `b.mp3`), loaded. */
  method SelectWithLeadingText(notes: File, a: File, b: File) returns (p: Player)
    requires !IsAudio(notes) && IsAudio(a) && IsAudio(b)
    ensures fresh(p) && p.Valid()
    ensures |p.playlist| == 2 && p.rows == [1, 2]
    ensures p.playlist[0].file == a && p.playlist[1].file == b
  {
    p := new Player();
    PositionsOfThree([notes, a, b]);
    p.SelectFiles([notes, a, b]);
  }

  /**
   * Rows carry their position in the selection: after `notes.txt, a.mp3,
   * b.mp3`, clicking the row of `a` loads `b`, and clicking the row of `b`
   * loads nothing.
   */
  method ClickDrift(notes: File, a: File, b: File) returns (loadedForA: File, indexAfterB: int)
    requires !IsAudio(notes) && IsAudio(a) && IsAudio(b)
    ensures loadedForA == b
    ensures indexAfterB == 1
  {
    var p := SelectWithLeadingText(notes, a, b);
    var _ := p.ClickRow(0);
    loadedForA := p.playlist[p.currentTrackIndex].file;
    var _ := p.ClickRow(1);
    indexAfterB := p.currentTrackIndex;
  }

  /** Loading by playlist position, the clicked row's track is the one loaded. */
  method ClickByPosition(notes: File, a: File, b: File) returns (loadedForA: File, loadedForB: File)
    requires !IsAudio(notes) && IsAudio(a) && IsAudio(b)
    ensures loadedForA == a
    ensures loadedForB == b
  {
    var p := SelectWithLeadingText(notes, a, b);
    var _ := p.ClickRowAt(0);
    loadedForA := p.playlist[p.currentTrackIndex].file;
    var _ := p.ClickRowAt(1);
    loadedForB := p.playlist[p.currentTrackIndex].file;
  }
}
