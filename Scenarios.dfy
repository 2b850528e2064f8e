/**
 Clients of the manager and the player, written against their contracts only:
 a directory scan followed by transport commands and ticks, the way a sketch's
 setup and loop drive them.
 */
module Scenarios {
  import opened ArduinoString
  import opened Manager
  import opened Player

  /** A scan of three accepted names mixed with two rejected ones keeps the three, in order. */
  lemma ScanKeepsAcceptedInOrder(dir: string, a: string, x: string, b: string, y: string, c: string)
    requires IsWavFile(a) && IsWavFile(b) && IsWavFile(c) && !IsWavFile(x) && !IsWavFile(y)
    ensures WavPaths(dir, [a, x, b, y, c]) == [dir + a, dir + b, dir + c]
  {
    var one := WavPaths(dir, [c]);
    assert [c][1..] == [];
    assert one == [dir + c];
    assert [y, c][1..] == [c];
    assert WavPaths(dir, [y, c]) == one;
    assert [b, y, c][1..] == [y, c];
    assert WavPaths(dir, [b, y, c]) == [dir + b] + one;
    assert [x, b, y, c][1..] == [b, y, c];
    assert WavPaths(dir, [x, b, y, c]) == [dir + b] + one;
    assert [a, x, b, y, c][1..] == [x, b, y, c];
  }

  /** `begin("/audio")` over a directory holding the five entries, in this order. */
  method ScanAudioDirectory(a: string, x: string, b: string, y: string, c: string) returns (m: AudioFileManager)
    requires IsWavFile(a) && IsWavFile(b) && IsWavFile(c) && !IsWavFile(x) && !IsWavFile(y)
    ensures fresh(m)
    ensures m.directory == "/audio/"
    ensures m.filenames == ["/audio/" + a, "/audio/" + b, "/audio/" + c]
  {
    m := new AudioFileManager();
    m.Begin("/audio", [a, x, b, y, c]);
    assert NormalizeDirectory("/audio") == "/audio/";
    ScanKeepsAcceptedInOrder("/audio/", a, x, b, y, c);
  }

  /**
   Shuffle off: play, then `next` three times over three stored files. The
   cursor runs 0, 1, 2 and wraps to 0, and each step sends exactly one play
   request, for the file under the cursor.
   */
  method SequentialScenario(m: AudioFileManager) returns (indices: seq<int>, requested: seq<string>)
    requires |m.filenames| == 3
    ensures indices == [0, 1, 2, 0]
    ensures requested == [m.filenames[0], m.filenames[1], m.filenames[2], m.filenames[0]]
  {
    var p := new AudioFilePlayer(m);
    p.Play(true);
    indices := [p.currentIndex];
    p.Next([], true);
    indices := indices + [p.currentIndex];
    p.Next([], true);
    indices := indices + [p.currentIndex];
    p.Next([], true);
    indices := indices + [p.currentIndex];
    requested := p.engine.requests;
  }

  /**
   A refused play request leaves the player stopped at the same index, and a
   later tick, even with the engine reporting the file finished, does nothing.
   */
  method RefusedPlayScenario(entries: seq<string>) returns (playing: bool, index: int, requested: nat)
    requires exists i :: 0 <= i < |entries| && IsWavFile(entries[i])
    ensures !playing && index == 0 && requested == 1
  {
    var m := new AudioFileManager();
    m.Begin("/audio/", entries);
    var i :| 0 <= i < |entries| && IsWavFile(entries[i]);
    WavPathsMembership("/audio/", entries, "/audio/" + entries[i]);
    var p := new AudioFilePlayer(m);
    p.Play(false);
    p.engine.positionMillis, p.engine.lengthMillis := 1200, 1200;
    p.Update([], true);
    playing, index, requested := p.playing, p.currentIndex, |p.engine.requests|;
  }

  /**
   Shuffle on, as the shuffle example sketch sets it up, playing the first of
   three files when it finishes: one tick redraws past the two draws equal to
   the current index, lands on the third draw and sends exactly one play
   request; a second tick while the new file has not finished does nothing.
   */
  method ShuffleTickScenario(m: AudioFileManager) returns (index: int, requested: seq<string>)
    requires |m.filenames| == 3
    ensures index == 2
    ensures requested == [m.filenames[0], m.filenames[2]]
  {
    var p := new AudioFilePlayer(m);
    p.Shuffle(true);
    p.Play(true);
    p.engine.positionMillis, p.engine.lengthMillis := 3000, 3000;
    var draws := [0, 0, 2];
    assert DrawsIn(draws, 3) && draws[2] != 0;
    assert FirstDifferentAt(draws, 0) == 2;
    p.Update(draws, true);
    p.engine.positionMillis, p.engine.lengthMillis := 10, 4000;
    p.Update([], true);
    index, requested := p.currentIndex, p.engine.requests;
  }

  /** The sequential scenario, run over the scan of "/audio". */
  method AudioDirectoryScenario(a: string, x: string, b: string, y: string, c: string)
    returns (indices: seq<int>, requested: seq<string>)
    requires IsWavFile(a) && IsWavFile(b) && IsWavFile(c) && !IsWavFile(x) && !IsWavFile(y)
    ensures indices == [0, 1, 2, 0]
    ensures requested == ["/audio/" + a, "/audio/" + b, "/audio/" + c, "/audio/" + a]
  {
    var m := ScanAudioDirectory(a, x, b, y, c);
    indices, requested := SequentialScenario(m);
  }

  /** Turning shuffle mode over twice restores it, and touches nothing else. */
  method ToggleShuffleTwice(p: AudioFilePlayer)
    requires p.Valid()
    modifies p`shuffleMode
    ensures p.Valid()
    ensures p.shuffleMode == old(p.shuffleMode)
  {
    p.ToggleShuffle();
    p.ToggleShuffle();
  }
}
