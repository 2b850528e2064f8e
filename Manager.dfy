/**
 The file manager: it scans one directory of the SD card, keeps the names that
 look like WAV files and stores them, joined to the directory, in scan order.
 The directory iteration of the SD library becomes an input sequence of entry
 names.
 */
module Manager {
  import opened ArduinoString

  /** Hidden files are the names starting with a dot. */
  function IsHiddenFile(name: string): (r: bool)
    ensures r <==> |name| > 0 && name[0] == '.'
  {
    StartsWith(name, ".")
  }

  /**
   The source's WAV test: the last `.WAV` or the last `.wav` lies after the
   first character, and the name is not hidden. It is a substring test, not a
   suffix test, and only the two spellings `.WAV` and `.wav` are recognised.
   */
  function IsWavFile(name: string): (r: bool)
    ensures r ==> !IsHiddenFile(name) && |name| >= 5
  {
    (LastIndexOf(name, ".WAV") > 0 || LastIndexOf(name, ".wav") > 0) && !IsHiddenFile(name)
  }

  /** A pattern that starts with a dot and is found at position 0 makes the name hidden. */
  lemma DotPatternAtZeroIsHidden(name: string, pat: string)
    requires |pat| > 0 && pat[0] == '.' && OccursAt(name, pat, 0)
    ensures IsHiddenFile(name)
  {
    assert name[0] == name[0..|pat|][0];
  }

  /**
   Since a match at position 0 would make the name hidden anyway, the position
   test amounts to: the name is not hidden and contains `.WAV` or `.wav`
   anywhere.
   */
  lemma WavFileIffContains(name: string)
    ensures IsWavFile(name) <==> !IsHiddenFile(name) && (Contains(name, ".WAV") || Contains(name, ".wav"))
  {
    if !IsHiddenFile(name) {
      if Contains(name, ".WAV") {
        var k :| 0 <= k <= |name| && OccursAt(name, ".WAV", k);
        if LastIndexOf(name, ".WAV") == 0 {
          DotPatternAtZeroIsHidden(name, ".WAV");
        }
      }
      if Contains(name, ".wav") {
        var k :| 0 <= k <= |name| && OccursAt(name, ".wav", k);
        if LastIndexOf(name, ".wav") == 0 {
          DotPatternAtZeroIsHidden(name, ".wav");
        }
      }
      if LastIndexOf(name, ".WAV") > 0 {
        assert OccursAt(name, ".WAV", LastIndexOf(name, ".WAV"));
      }
      if LastIndexOf(name, ".wav") > 0 {
        assert OccursAt(name, ".wav", LastIndexOf(name, ".wav"));
      }
    }
  }

  /** A name made of a hidden-free stem and a `.wav` or `.WAV` somewhere after it is accepted. */
  lemma WavFileAccepts(stem: string, ext: string, rest: string)
    requires |stem| > 0 && stem[0] != '.'
    requires ext == ".wav" || ext == ".WAV"
    ensures IsWavFile(stem + ext + rest)
  {
    var name := stem + ext + rest;
    assert name[|stem|..|stem| + 4] == ext;
    assert OccursAt(name, ext, |stem|);
    WavFileIffContains(name);
  }

  /** A WAV marker inside the name counts: the test is not a suffix test. */
  lemma WavFileInsideName()
    ensures IsWavFile("a.wav.txt") && IsWavFile("track.WAV")
  {
    WavFileAccepts("a", ".wav", ".txt");
    assert "a" + ".wav" + ".txt" == "a.wav.txt";
    WavFileAccepts("track", ".WAV", "");
    assert "track" + ".WAV" + "" == "track.WAV";
  }

  /** Other capitalisations, hidden names and other extensions are rejected. */
  lemma WavFileRejects()
    ensures !IsWavFile("track.Wav") && !IsWavFile(".track.wav") && !IsWavFile("notes.txt")
  {
    WavFileIffContains("track.Wav");
    MissingCharNotContained("track.Wav", ".WAV", 'V');
    MissingCharNotContained("track.Wav", ".wav", 'w');
    WavFileIffContains("notes.txt");
    MissingCharNotContained("notes.txt", ".WAV", 'W');
    MissingCharNotContained("notes.txt", ".wav", 'w');
  }

  /**
   The directory prefix with a trailing `/`, added only when the last character
   is not one already. `String::operator[]` reads NUL for the empty string, so
   the empty directory becomes "/".
   */
  function NormalizeDirectory(dir: string): (d: string)
    ensures d == dir || d == dir + "/"
    ensures |d| > 0 && d[|d| - 1] == '/'
    ensures |dir| > 0 && dir[|dir| - 1] == '/' ==> d == dir
  {
    if LastChar(dir) != '/' then dir + "/" else dir
  }

  /** Normalising twice is normalising once: the separator is never doubled. */
  lemma NormalizeDirectoryIdempotent(dir: string)
    ensures NormalizeDirectory(NormalizeDirectory(dir)) == NormalizeDirectory(dir)
  {
  }

  /** The paths a scan of `names` stores, in scan order: `dir + name` for each accepted name. */
  function WavPaths(dir: string, names: seq<string>): (paths: seq<string>)
    ensures |paths| <= |names|
  {
    if names == [] then []
    else Accepted(dir, names[0]) + WavPaths(dir, names[1..])
  }

  /** What one entry contributes to the scan: its path if it is accepted, nothing otherwise. */
  function Accepted(dir: string, name: string): (paths: seq<string>)
  {
    if IsWavFile(name) then [dir + name] else []
  }

  /** Scanning `a` and then `b` stores the paths of `a` followed by those of `b`. */
  lemma {:induction false} WavPathsAppend(dir: string, a: seq<string>, b: seq<string>)
    ensures WavPaths(dir, a + b) == WavPaths(dir, a) + WavPaths(dir, b)
  {
    if a == [] {
      assert a + b == b;
    } else {
      calc {
        WavPaths(dir, a + b);
        Accepted(dir, a[0]) + WavPaths(dir, (a + b)[1..]);
        { assert (a + b)[1..] == a[1..] + b; }
        Accepted(dir, a[0]) + WavPaths(dir, a[1..] + b);
        { WavPathsAppend(dir, a[1..], b); }
        Accepted(dir, a[0]) + (WavPaths(dir, a[1..]) + WavPaths(dir, b));
        WavPaths(dir, a) + WavPaths(dir, b);
      }
    }
  }

  /** A path is stored exactly when it is the directory joined to some accepted entry name. */
  lemma {:induction false} WavPathsMembership(dir: string, names: seq<string>, p: string)
    ensures p in WavPaths(dir, names) <==> exists i :: 0 <= i < |names| && IsWavFile(names[i]) && p == dir + names[i]
  {
    if names != [] {
      WavPathsMembership(dir, names[1..], p);
      if exists i :: 0 <= i < |names| && IsWavFile(names[i]) && p == dir + names[i] {
        var i :| 0 <= i < |names| && IsWavFile(names[i]) && p == dir + names[i];
        if i > 0 {
          assert names[1..][i - 1] == names[i];
        }
      }
      if exists i :: 0 <= i < |names[1..]| && IsWavFile(names[1..][i]) && p == dir + names[1..][i] {
        var i :| 0 <= i < |names[1..]| && IsWavFile(names[1..][i]) && p == dir + names[1..][i];
        assert names[i + 1] == names[1..][i];
      }
    }
  }

  /** Every stored path starts with the directory, and what follows it is an accepted name. */
  lemma {:induction false} WavPathsShape(dir: string, names: seq<string>, j: int)
    requires 0 <= j < |WavPaths(dir, names)|
    ensures StartsWith(WavPaths(dir, names)[j], dir)
    ensures IsWavFile(WavPaths(dir, names)[j][|dir|..])
  {
    var p := WavPaths(dir, names)[j];
    WavPathsMembership(dir, names, p);
    var i :| 0 <= i < |names| && IsWavFile(names[i]) && p == dir + names[i];
    assert p[..|dir|] == dir && p[|dir|..] == names[i];
  }

  /** A scan stores nothing exactly when no entry name is accepted (only hidden or non-WAV names). */
  lemma {:induction false} WavPathsEmpty(dir: string, names: seq<string>)
    ensures WavPaths(dir, names) == [] <==> forall i :: 0 <= i < |names| ==> !IsWavFile(names[i])
  {
    if names != [] {
      WavPathsEmpty(dir, names[1..]);
      if forall i :: 0 <= i < |names[1..]| ==> !IsWavFile(names[1..][i]) {
        if !IsWavFile(names[0]) {
          forall i | 0 <= i < |names| ensures !IsWavFile(names[i]) {
            if i > 0 { assert names[i] == names[1..][i - 1]; }
          }
        }
      } else {
        var i :| 0 <= i < |names[1..]| && IsWavFile(names[1..][i]);
        assert names[i + 1] == names[1..][i];
      }
    }
  }

  /**
   The manager's state: the configured directory (normalised during the scan)
   and the list of stored file paths.
   */
  class AudioFileManager {
    var directory: string
    var filenames: seq<string>

    constructor ()
      ensures directory == "" && filenames == []
    {
      directory := "";
      filenames := [];
    }

    /**
     Sets the directory and scans it. `entries` are the names the SD library
     yields for the directory, in its order. Mounting the card is not modelled.
     */
    method Begin(dir: string, entries: seq<string>)
      modifies this
      ensures directory == if entries == [] then dir else NormalizeDirectory(dir)
      ensures filenames == old(filenames) + WavPaths(NormalizeDirectory(dir), entries)
    {
      directory := dir;
      PopulateFilenames(entries);
    }

    /**
     Walks the entries in order; before looking at each one it makes sure the
     directory ends in `/`, then appends `directory + name` when the name is
     accepted. An empty scan leaves the directory as it was.
     */
    method PopulateFilenames(entries: seq<string>)
      modifies this
      ensures directory == if entries == [] then old(directory) else NormalizeDirectory(old(directory))
      ensures filenames == old(filenames) + WavPaths(NormalizeDirectory(old(directory)), entries)
    {
      ghost var dir0 := old(directory);
      var k := 0;
      while k < |entries|
        invariant 0 <= k <= |entries|
        invariant directory == if k == 0 then dir0 else NormalizeDirectory(dir0)
        invariant filenames == old(filenames) + WavPaths(NormalizeDirectory(dir0), entries[..k])
      {
        if LastChar(directory) != '/' {
          directory := directory + "/";
        }
        var curfile := entries[k];
        if IsWavFile(curfile) {
          filenames := filenames + [directory + curfile];
        }
        assert entries[..k + 1] == entries[..k] + [curfile];
        WavPathsAppend(NormalizeDirectory(dir0), entries[..k], [curfile]);
        k := k + 1;
      }
      assert entries[..k] == entries;
    }

    /** The number of stored paths. */
    function NumAudioFiles(): (n: int)
      reads this
      ensures n == |filenames|
    {
      |filenames|
    }

    /** The stored path at `index`; `std::vector::at` fails outside `[0, size)`. */
    function GetFilePath(index: int): (path: string)
      reads this
      requires 0 <= index < |filenames|
      ensures path in filenames && path == filenames[index]
    {
      filenames[index]
    }
  }
}
