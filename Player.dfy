/**
 The audio file player: a playlist cursor over the manager's stored paths and
 the transport state (playing, shuffle). The Teensy WAV player it drives is
 abstracted as `SdWavEngine`: its answer to a play request is a parameter, its
 reported position and length are fields set by the environment, and every
 play and stop request it receives is logged. `random(0, n)` becomes an
 oracle: the sequence of values successive calls return.
 */
module Player {
  import opened Manager

  function Abs(x: int): nat
  {
    if x < 0 then -x else x
  }

  /**
   C++ `%` on `int`: the quotient truncates toward zero, so the remainder has
   the sign of the dividend and is smaller than the divisor in magnitude.
   */
  function CRem(a: int, b: int): (r: int)
    requires b != 0
    ensures Abs(r) < Abs(b)
    ensures a >= 0 ==> r >= 0
    ensures a <= 0 ==> r <= 0
    ensures a >= 0 && b > 0 ==> r == a % b
    ensures (a - r) % Abs(b) == 0
  {
    var m := Abs(b);
    if a >= 0 then
      var q, r := a / m, a % m;
      assert a - r == q * m;
      MultipleHasNoRemainder(q, m);
      r
    else
      var q, r := (-a) / m, (-a) % m;
      assert a + r == (-q) * m;
      MultipleHasNoRemainder(-q, m);
      -r
  }

  /** A multiple of `m` leaves no remainder. */
  lemma MultipleHasNoRemainder(q: int, m: int)
    requires m > 0
    ensures (q * m) % m == 0
  {
    var x := q * m;
    var d := q - x / m;
    assert m * d == x % m;
    if d >= 1 {
      assert m * d == m + m * (d - 1);
    } else if d <= -1 {
      assert m * d == -m + m * (d + 1);
    }
  }

  /** `next`'s step, `(i + 1) % n`: the successor, wrapping from the last index to 0. */
  function NextIndex(i: int, n: int): (r: int)
    requires n > 0
    ensures 0 <= i < n - 1 ==> r == i + 1
    ensures i == n - 1 ==> r == 0
    ensures -1 <= i ==> 0 <= r < n
  {
    CRem(i + 1, n)
  }

  /** `prev`'s step: any index at or below 0 wraps to `n - 1`, any other is decremented modulo `n`. */
  function PrevIndex(i: int, n: int): (r: int)
    requires n > 0
    ensures 0 <= r < n
    ensures 0 < i <= n ==> r == i - 1
    ensures i <= 0 ==> r == n - 1
  {
    if i <= 0 then n - 1 else CRem(i - 1, n)
  }

  /** With shuffle off, `prev` undoes `next` on every index of the playlist, the two ends included. */
  lemma PrevUndoesNext(i: int, n: int)
    requires 0 <= i < n
    ensures PrevIndex(NextIndex(i, n), n) == i
  {
  }

  /** And `next` undoes `prev`. */
  lemma NextUndoesPrev(i: int, n: int)
    requires 0 <= i < n
    ensures NextIndex(PrevIndex(i, n), n) == i
  {
  }

  /** Every value the random source yields lies in `[0, n)`, as `random(0, n)` promises. */
  ghost predicate DrawsIn(draws: seq<int>, n: int)
  {
    forall k :: 0 <= k < |draws| ==> 0 <= draws[k] < n
  }

  /** Some value the random source yields differs from `current`: the redraw loop can stop. */
  ghost predicate HasDifferent(draws: seq<int>, current: int)
  {
    exists k :: 0 <= k < |draws| && draws[k] != current
  }

  /** The position of the first draw that differs from `current`: where the redraw loop stops. */
  function FirstDifferentAt(draws: seq<int>, current: int): (k: nat)
    requires HasDifferent(draws, current)
    ensures k < |draws| && draws[k] != current
    ensures forall j :: 0 <= j < k ==> draws[j] == current
    decreases |draws|
  {
    if draws[0] != current then 0
    else
      var w :| 0 <= w < |draws| && draws[w] != current;
      assert draws[1..][w - 1] != current;
      1 + FirstDifferentAt(draws[1..], current)
  }

  /**
   With one file, `random(0, 1)` only ever yields 0, the current index, so no
   draw differs and the redraw loop of `randomize` never ends.
   */
  lemma SingleFileNeverRedraws(draws: seq<int>, current: int)
    requires DrawsIn(draws, 1) && current == 0
    ensures !HasDifferent(draws, current)
  {
  }

  /** With two files or more, every index can be left: some draw sequence stops the loop. */
  lemma {:induction false} TwoFilesCanRedraw(current: int, n: int)
    requires 0 <= current < n && n >= 2
    ensures exists draws :: DrawsIn(draws, n) && HasDifferent(draws, current)
  {
    var other := if current == 0 then 1 else 0;
    assert DrawsIn([other], n) && [other][0] != current;
  }

  /**
   The Teensy WAV player `playSd1`, seen from the outside: the requests it
   receives, and the position and length it reports (the environment updates
   them as playback proceeds).
   */
  class SdWavEngine {
    var requests: seq<string>
    var stopRequests: nat
    var positionMillis: nat
    var lengthMillis: nat

    constructor ()
      ensures requests == [] && stopRequests == 0
      ensures positionMillis == 0 && lengthMillis == 0
    {
      requests := [];
      stopRequests := 0;
      positionMillis := 0;
      lengthMillis := 0;
    }

    /** A play request; `accepted` is the engine's answer (whether the file could be opened). */
    method Play(fileName: string, accepted: bool) returns (ok: bool)
      modifies this`requests
      ensures ok == accepted
      ensures requests == old(requests) + [fileName]
    {
      requests := requests + [fileName];
      ok := accepted;
    }

    method Stop()
      modifies this`stopRequests
      ensures stopRequests == old(stopRequests) + 1
    {
      stopRequests := stopRequests + 1;
    }
  }

  /** The player: the index of the current file, whether it is playing, and the shuffle mode. */
  class AudioFilePlayer {
    var shuffleMode: bool
    var playing: bool
    var currentIndex: int
    const manager: AudioFileManager
    const engine: SdWavEngine

    /** The cursor is a valid index once there are files, and nothing plays without files. */
    ghost predicate Valid()
      reads this, manager
    {
      0 <= currentIndex &&
      (currentIndex < |manager.filenames| || currentIndex == 0) &&
      (playing ==> |manager.filenames| > 0)
    }

    constructor (manager: AudioFileManager)
      ensures Valid()
      ensures this.manager == manager && fresh(engine)
      ensures currentIndex == 0 && !playing && !shuffleMode
      ensures engine.requests == [] && engine.stopRequests == 0
    {
      this.manager := manager;
      engine := new SdWavEngine();
      currentIndex := 0;
      playing := false;
      shuffleMode := false;
    }

    /** The engine reports a position at or past the length (a reported length of 0 counts as finished). */
    function FileFinished(): (done: bool)
      reads this, engine
      ensures engine.lengthMillis == 0 ==> done
      ensures done ==> engine.lengthMillis <= engine.positionMillis
    {
      engine.positionMillis >= engine.lengthMillis
    }

    /** Hands one path to the engine and returns its answer. */
    method PlayWav(fileName: string, accepted: bool) returns (ok: bool)
      modifies engine`requests
      ensures ok == accepted
      ensures engine.requests == old(engine.requests) + [fileName]
    {
      ok := engine.Play(fileName, accepted);
    }

    /**
     Requests the current file; the playing flag becomes exactly the engine's
     answer. No stop request is issued first, and the cursor and shuffle
     mode do not change. `std::vector::at` needs a stored file at the cursor.
     */
    method Play(accepted: bool)
      requires Valid() && |manager.filenames| > 0
      modifies this`playing, engine`requests
      ensures Valid()
      ensures playing == accepted
      ensures engine.requests == old(engine.requests) + [manager.filenames[currentIndex]]
    {
      var path := manager.GetFilePath(currentIndex);
      var ok := PlayWav(path, accepted);
      playing := ok;
    }

    /** Clears the playing flag and sends one stop request; nothing else changes. */
    method Stop()
      requires Valid()
      modifies this`playing, engine`stopRequests
      ensures Valid()
      ensures !playing
      ensures engine.stopRequests == old(engine.stopRequests) + 1
    {
      playing := false;
      engine.Stop();
    }

    /** Stops when playing, plays the current file otherwise. */
    method TogglePlay(accepted: bool)
      requires Valid()
      requires !playing ==> |manager.filenames| > 0
      modifies this`playing, engine`requests, engine`stopRequests
      ensures Valid()
      ensures old(playing) ==> !playing && engine.requests == old(engine.requests) &&
                               engine.stopRequests == old(engine.stopRequests) + 1
      ensures !old(playing) ==> playing == accepted && engine.stopRequests == old(engine.stopRequests) &&
                                engine.requests == old(engine.requests) + [manager.filenames[currentIndex]]
    {
      if playing {
        Stop();
      } else {
        Play(accepted);
      }
    }

    /**
     Picks a new index with `random(0, n)`, redrawing while the draw equals the
     current index, then plays it. `draws` are the values `random` returns; the
     loop ends at the first draw that differs, so one must exist (none does
     with a single file, see SingleFileNeverRedraws).
     */
    method Randomize(draws: seq<int>, accepted: bool)
      requires Valid() && |manager.filenames| > 0
      requires DrawsIn(draws, |manager.filenames|) && HasDifferent(draws, currentIndex)
      modifies this`currentIndex, this`playing, engine`requests
      ensures Valid()
      ensures currentIndex == draws[FirstDifferentAt(draws, old(currentIndex))]
      ensures currentIndex != old(currentIndex) && 0 <= currentIndex < |manager.filenames|
      ensures playing == accepted
      ensures engine.requests == old(engine.requests) + [manager.filenames[currentIndex]]
    {
      ghost var stop := FirstDifferentAt(draws, currentIndex);
      var k := 0;
      var newIndex := draws[k];
      while newIndex == currentIndex
        invariant 0 <= k <= stop && newIndex == draws[k]
        decreases stop - k
      {
        k := k + 1;
        newIndex := draws[k];
      }
      currentIndex := newIndex;
      Play(accepted);
    }

    /**
     Steps the cursor to `(i + 1) % n`; with shuffle on it then randomizes away
     from the stepped index, otherwise it plays the stepped index. Either way
     exactly one play request is sent.
     */
    method Next(draws: seq<int>, accepted: bool)
      requires Valid() && |manager.filenames| > 0
      requires shuffleMode ==> DrawsIn(draws, |manager.filenames|) &&
                               HasDifferent(draws, NextIndex(currentIndex, |manager.filenames|))
      modifies this`currentIndex, this`playing, engine`requests
      ensures Valid()
      ensures !shuffleMode ==> currentIndex == NextIndex(old(currentIndex), |manager.filenames|)
      ensures shuffleMode ==> currentIndex == draws[FirstDifferentAt(draws, NextIndex(old(currentIndex), |manager.filenames|))] &&
                              currentIndex != NextIndex(old(currentIndex), |manager.filenames|)
      ensures 0 <= currentIndex < |manager.filenames|
      ensures playing == accepted
      ensures engine.requests == old(engine.requests) + [manager.filenames[currentIndex]]
    {
      currentIndex := NextIndex(currentIndex, manager.NumAudioFiles());
      if shuffleMode {
        Randomize(draws, accepted);
      } else {
        Play(accepted);
      }
    }

    /** Steps the cursor back, wrapping from 0 to the last index; then as `Next`. */
    method Prev(draws: seq<int>, accepted: bool)
      requires Valid() && |manager.filenames| > 0
      requires shuffleMode ==> DrawsIn(draws, |manager.filenames|) &&
                               HasDifferent(draws, PrevIndex(currentIndex, |manager.filenames|))
      modifies this`currentIndex, this`playing, engine`requests
      ensures Valid()
      ensures !shuffleMode ==> currentIndex == PrevIndex(old(currentIndex), |manager.filenames|)
      ensures shuffleMode ==> currentIndex == draws[FirstDifferentAt(draws, PrevIndex(old(currentIndex), |manager.filenames|))] &&
                              currentIndex != PrevIndex(old(currentIndex), |manager.filenames|)
      ensures 0 <= currentIndex < |manager.filenames|
      ensures playing == accepted
      ensures engine.requests == old(engine.requests) + [manager.filenames[currentIndex]]
    {
      if currentIndex <= 0 {
        currentIndex := manager.NumAudioFiles() - 1;
      } else {
        currentIndex := CRem(currentIndex - 1, manager.NumAudioFiles());
      }
      if shuffleMode {
        Randomize(draws, accepted);
      } else {
        Play(accepted);
      }
    }

    /**
     The polled auto-advance. While playing, a finished file causes exactly one
     advance: `Randomize` away from the current index with shuffle on, `Next`
     otherwise. In every other case nothing changes and nothing is requested.
     */
    method Update(draws: seq<int>, accepted: bool)
      requires Valid()
      requires playing && FileFinished() && shuffleMode ==>
                 DrawsIn(draws, |manager.filenames|) && HasDifferent(draws, currentIndex)
      modifies this`currentIndex, this`playing, engine`requests
      ensures Valid()
      ensures !(old(playing) && old(FileFinished())) ==>
                currentIndex == old(currentIndex) && playing == old(playing) &&
                engine.requests == old(engine.requests)
      ensures old(playing) && old(FileFinished()) ==>
                currentIndex == (if shuffleMode then draws[FirstDifferentAt(draws, old(currentIndex))]
                                 else NextIndex(old(currentIndex), |manager.filenames|)) &&
                playing == accepted &&
                engine.requests == old(engine.requests) + [manager.filenames[currentIndex]]
    {
      if playing {
        var done := FileFinished();
        if done {
          if shuffleMode {
            Randomize(draws, accepted);
          } else {
            Next(draws, accepted);
          }
        }
      }
    }

    /** Sets the shuffle mode; the cursor and the playing flag are untouched. */
    method Shuffle(enable: bool)
      requires Valid()
      modifies this`shuffleMode
      ensures Valid()
      ensures shuffleMode == enable
    {
      shuffleMode := enable;
    }

    /** Flips the shuffle mode; the cursor and the playing flag are untouched. */
    method ToggleShuffle()
      requires Valid()
      modifies this`shuffleMode
      ensures Valid()
      ensures shuffleMode == !old(shuffleMode)
    {
      shuffleMode := !shuffleMode;
    }
  }
}
