/**
 * The extension stripping of script.js:84, `name.replace(/\.[^/.]+$/, '')`:
 * drop a final `.` followed by one or more characters none of which is `.`
 * or `/`.
 */
module FileNames {
  import opened Optional

  /**
   * Where the regular expression matches: a `.` at `i`, at least one
   * character after it, and no `.` or `/` from there to the end of the name.
   */
  predicate ExtensionAt(name: string, i: int) {
    0 <= i && i + 1 < |name| && name[i] == '.' &&
    forall j :: i < j < |name| ==> name[j] != '.' && name[j] != '/'
  }

  /** The regular expression can match in at most one place. */
  lemma ExtensionAtUnique(name: string, i: int, k: int)
    requires ExtensionAt(name, i) && ExtensionAt(name, k)
    ensures i == k
  {
  }

  lemma OnlyMatch(name: string, i: int)
    requires ExtensionAt(name, i)
    ensures forall k :: ExtensionAt(name, k) ==> k == i
  {
    forall k | ExtensionAt(name, k) ensures k == i {
      ExtensionAtUnique(name, i, k);
    }
  }

  /**
   * Scans `name[..j]` from its end for the start of the match: a `/` or a
   * trailing `.` rules any match out, the first other `.` is where it starts.
   */
  function ScanBack(name: string, j: nat): (r: Option<nat>)
    requires j <= |name|
    requires forall m :: j <= m < |name| ==> name[m] != '.' && name[m] != '/'
    ensures r.Some? ==> ExtensionAt(name, r.value)
    ensures r.None? ==> forall i :: i < j ==> !ExtensionAt(name, i)
    decreases j
  {
    if j == 0 then None
    else if name[j - 1] == '/' then None
    else if name[j - 1] == '.' then (if j == |name| then None else Some(j - 1))
    else ScanBack(name, j - 1)
  }

  /** The index of the `.` the regular expression matches, if it matches. */
  function ExtensionStart(name: string): (r: Option<nat>)
    ensures forall i :: ExtensionAt(name, i) <==> r == Some(i)
  {
    var r := ScanBack(name, |name|);
    if r.Some? then OnlyMatch(name, r.value); r else r
  }

  /** `name.replace(/\.[^/.]+$/, '')`. */
  function StripExtension(name: string): (r: string)
    ensures r <= name
    ensures r == name || ExtensionAt(name, |r|)
  {
    match ExtensionStart(name)
    case None => name
    case Some(i) => name[..i]
  }

  /** The name is left alone exactly when the pattern matches nowhere in it. */
  lemma UnchangedIffNoMatch(name: string)
    ensures StripExtension(name) == name <==> forall i :: !ExtensionAt(name, i)
  {
  }

  /** Where the pattern matches, the name is cut just before the matched `.`. */
  lemma StripAt(name: string, i: int)
    requires ExtensionAt(name, i)
    ensures StripExtension(name) == name[..i]
  {
    OnlyMatch(name, i);
  }

  /** A name without a `.` is left alone. */
  lemma NoDotUnchanged(name: string)
    requires forall i :: 0 <= i < |name| ==> name[i] != '.'
    ensures StripExtension(name) == name
  {
    forall i ensures !ExtensionAt(name, i) {
    }
  }

  /** A name ending in `.` is left alone: the pattern needs a character after the dot. */
  lemma TrailingDotUnchanged(name: string)
    requires |name| > 0 && name[|name| - 1] == '.'
    ensures StripExtension(name) == name
  {
    forall i ensures !ExtensionAt(name, i) {
    }
  }

  /**
   * What is removed is exactly a `.` followed by at least one character, none
   * of them `.` or `/`; what is kept is the rest of the name, in front.
   */
  lemma RemovedSuffix(name: string)
    requires StripExtension(name) != name
    ensures var r := StripExtension(name);
      var ext := name[|r|..];
      name == r + ext && |ext| >= 2 && ext[0] == '.' &&
      forall j :: 1 <= j < |ext| ==> ext[j] != '.' && ext[j] != '/'
  {
    var r := StripExtension(name);
    var ext := name[|r|..];
    assert name == r + ext;
    forall j | 1 <= j < |ext| ensures ext[j] != '.' && ext[j] != '/' {
      assert ext[j] == name[|r| + j];
    }
  }

  /**
   * Names the player meets: only the last extension goes, a `/` after the dot
   * blocks the match, and stripping is not idempotent.
   */
  lemma StripExtensionExamples()
    ensures StripExtension("song.mp3") == "song"
    ensures StripExtension("a.b.mp3") == "a.b"
    ensures StripExtension("a.b") == "a"
    ensures StripExtension(StripExtension("a.b.mp3")) != StripExtension("a.b.mp3")
    ensures StripExtension("dir.v1/track") == "dir.v1/track"
    ensures StripExtension(".bashrc") == ""
  {
    assert ExtensionAt("song.mp3", 4);
    assert ExtensionAt("a.b.mp3", 3);
    assert ExtensionAt("a.b", 1);
    assert "a.b.mp3"[..3] == "a.b";
    assert "a.b"[..1] == "a";
    var n := "dir.v1/track";
    forall i ensures !ExtensionAt(n, i) {
      if i == 3 {
        assert n[6] == '/';
      }
    }
    assert ExtensionAt(".bashrc", 0);
  }
}
