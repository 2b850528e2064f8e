# Teensy audio file player: playlist cursor and file catalogue

A Dafny model of the two pieces of sequential logic in TeensyAudioFilePlayerLibrary:

- `tap::AudioFileManager` (module `Manager`, file `Manager.dfy`). It scans one SD-card directory once. Each entry name it accepts as a WAV file is joined to the directory and appended to `mFilenames`, in scan order. The directory is first given a trailing `/`.
- `tap::AudioFilePlayer` (module `Player`, file `Player.dfy`). It holds the transport state: the cursor `mCurrentPlayingFileIndex`, the flags `mIsPlaying` and `mShuffle`, and the commands `play`, `stop`, `togglePlay`, `next`, `prev`, `randomize`, `update`, `shuffle` and `toggleShuffle`.

The player's collaborators become inputs:

- The Teensy WAV player `playSd1` becomes the class `SdWavEngine`. Its answer to a play request is the parameter `accepted`. The position and length it reports are fields that the environment sets. Every play and stop request sent to it is logged.
- `random(0, n)` becomes an oracle. `draws` is the sequence of values that successive calls return, each in `[0, n)`.
- The SD library's directory iteration becomes the sequence of entry names it yields.

Module `ArduinoString` (`ArduinoString.dfy`) states the few Arduino `String` operations the manager relies on: `startsWith`, `lastIndexOf`, and `operator[]` reading NUL outside the string. Module `Scenarios` (`Scenarios.dfy`) holds clients written against the contracts alone. They follow a sketch that scans a directory, plays, steps with `next` and ticks `update`.

The player classes use field-granular frames (`modifies this`playing, engine`requests`). A field outside a method's frame is unchanged by it. For example, `Play` cannot touch the cursor, the shuffle flag or the stop counter.

Behaviour of the code a reader might not expect, which the model keeps:

- `play` sends no stop request first.
- `next` and `prev` always play, even when the player was stopped.
- Only `.wav` and `.WAV` are recognised. The check is a substring check, not a suffix check.
- `randomize` has no guard for a one-file playlist. Its redraw loop never ends there.
- `fileFinished` compares the reported position and length directly. A reported length of 0 counts as finished.
- `play` on an empty catalogue is not a no-op: `std::vector::at` fails. So the model requires a stored file.

## Model

| member | source | states |
|---|---|---|
| ArduinoString.StartsWith | AudioFileManager.h:45 | true exactly when the string is the prefix followed by some rest |
| ArduinoString.LastIndexOf | AudioFileManager.h:48-49 | -1 exactly when the (non-empty) pattern occurs nowhere; otherwise a position where it occurs with no occurrence after it |
| Manager.IsHiddenFile | AudioFileManager.h:45 | hidden exactly when the name is non-empty and starts with `.` |
| Manager.IsWavFile | AudioFileManager.h:47-52 | the last `.WAV` or `.wav` lies after position 0 and the name is not hidden; an accepted name is never hidden and has at least five characters; characterised by WavFileIffContains |
| Manager.DotPatternAtZeroIsHidden | AudioFileManager.h:47-52 | a dot-led pattern found at position 0 makes the name hidden |
| Manager.WavFileIffContains | AudioFileManager.h:47-52 | accepted exactly when the name is not hidden and contains `.WAV` or `.wav` anywhere (the `> 0` test adds nothing beyond the hidden test) |
| Manager.WavFileAccepts | AudioFileManager.h:47-52 | any non-hidden stem followed by `.wav` or `.WAV` and any text is accepted |
| Manager.WavFileInsideName | AudioFileManager.h:47-52 | `a.wav.txt` and `track.WAV` are accepted: the test is not a suffix test |
| Manager.WavFileRejects | AudioFileManager.h:45-52 | `track.Wav` (other case), `.track.wav` (hidden) and `notes.txt` are rejected |
| Manager.NormalizeDirectory | AudioFileManager.h:65-68 | the result is the directory or the directory plus `/`; it ends in `/`; a directory already ending in `/` is left alone; the empty directory becomes `/`, because `operator[]` reads NUL outside the string |
| Manager.NormalizeDirectoryIdempotent | AudioFileManager.h:65-68 | normalising twice equals normalising once, so the separator is never doubled |
| Manager.WavPaths | AudioFileManager.h:57-78 | the paths a scan stores are never more than the entries scanned |
| Manager.WavPathsAppend | AudioFileManager.h:59-76 | scanning `a` then `b` stores the paths of `a` followed by those of `b` (scan order is kept) |
| Manager.WavPathsMembership | AudioFileManager.h:69-73 | a path is stored exactly when it is the directory joined to some accepted entry name |
| Manager.WavPathsShape | AudioFileManager.h:69-73 | every stored path starts with the directory, and the rest of it is an accepted name |
| Manager.WavPathsEmpty | AudioFileManager.h:57-78 | a scan stores nothing exactly when no entry is accepted, e.g. only hidden or non-WAV names |
| Manager.AudioFileManager.constructor | AudioFileManager.h:17 | starts with an empty directory string and no stored paths |
| Manager.AudioFileManager.Begin | AudioFileManager.h:19-27 | sets the directory and scans; afterwards the stored list is the old list followed by the accepted paths under the normalised directory |
| Manager.AudioFileManager.PopulateFilenames | AudioFileManager.h:57-78 | appends exactly `WavPaths(normalised directory, entries)` to the stored list; the directory is normalised exactly when the scan had at least one entry |
| Manager.AudioFileManager.NumAudioFiles | AudioFileManager.h:40 | the number of stored paths |
| Manager.AudioFileManager.GetFilePath | AudioFileManager.h:42 | the stored path at the index; defined only inside `[0, size)`, where `at` succeeds |
| Player.CRem | AudioFilePlayer.h:130-131 | C++ `%`: the remainder has the sign of the dividend, is smaller than the divisor in magnitude, differs from the dividend by a multiple of the divisor, and agrees with the mathematical remainder for non-negative operands |
| Player.NextIndex | AudioFilePlayer.h:115-116 | the successor of every index but the last, 0 after the last; stays in `[0, n)` |
| Player.PrevIndex | AudioFilePlayer.h:127-132 | always in `[0, n)`; the predecessor of every index in `(0, n]`; `n - 1` for any index at or below 0 |
| Player.PrevUndoesNext | AudioFilePlayer.h:112-132 | with shuffle off, `prev` after `next` returns every index in `[0, n)` to itself, 0 and `n - 1` included |
| Player.NextUndoesPrev | AudioFilePlayer.h:112-132 | `next` after `prev` does the same |
| Player.FirstDifferentAt | AudioFilePlayer.h:141-146 | the first draw that differs from the current index: it differs, and every earlier draw equals the current index |
| Player.SingleFileNeverRedraws | AudioFilePlayer.h:141-146 | with one file no draw of `random(0, 1)` differs from the cursor, so the redraw loop cannot end |
| Player.TwoFilesCanRedraw | AudioFilePlayer.h:141-146 | with two files or more, some draw sequence ends the loop from every index |
| Player.SdWavEngine.constructor | AudioFilePlayer.h:223 | the engine starts with no requests and reports position and length 0 |
| Player.SdWavEngine.Play | AudioFilePlayer.h:201 | logs the requested path and answers `accepted` |
| Player.SdWavEngine.Stop | AudioFilePlayer.h:100 | counts one stop request |
| Player.AudioFilePlayer.constructor | AudioFilePlayer.h:24-25 | bound to the manager; cursor 0, not playing, shuffle off (the initialisers at 209-212); a fresh engine with no requests |
| Player.AudioFilePlayer.FileFinished | AudioFilePlayer.h:27-32 | position >= length; a reported length of 0 counts as finished |
| Player.AudioFilePlayer.PlayWav | AudioFilePlayer.h:200-203 | passes the path to the engine once and returns the engine's answer |
| Player.AudioFilePlayer.Play | AudioFilePlayer.h:87-95 | one play request for the file under the cursor; the playing flag becomes exactly the engine's answer; cursor, shuffle mode and stop count unchanged |
| Player.AudioFilePlayer.Stop | AudioFilePlayer.h:97-101 | clears the playing flag and sends one stop request; nothing else changes |
| Player.AudioFilePlayer.TogglePlay | AudioFilePlayer.h:103-110 | when playing: stopped, one stop request, no play request; otherwise: exactly `Play` |
| Player.AudioFilePlayer.Randomize | AudioFilePlayer.h:141-152 | the cursor becomes the first draw that differs from it, so it stays in `[0, n)` and differs from the cursor on entry; then one play request for the new file |
| Player.AudioFilePlayer.Next | AudioFilePlayer.h:112-123 | shuffle off: the cursor becomes `NextIndex`. Shuffle on: the first draw that differs from the stepped index, which need not differ from the original cursor. Exactly one play request either way |
| Player.AudioFilePlayer.Prev | AudioFilePlayer.h:125-139 | the same as `Next`, with `PrevIndex` |
| Player.AudioFilePlayer.Update | AudioFilePlayer.h:62-85 | if not playing, or the file has not finished (`FileFinished`: position < length, lines 27-32), nothing changes and nothing is requested. Otherwise exactly one advance: `Randomize` away from the cursor with shuffle on, `NextIndex` with it off, then one play request |
| Player.AudioFilePlayer.Shuffle | AudioFilePlayer.h:157 | sets the shuffle mode; cursor and playing flag untouched |
| Player.AudioFilePlayer.ToggleShuffle | AudioFilePlayer.h:159 | negates the shuffle mode; cursor and playing flag untouched |
| Scenarios.ToggleShuffleTwice | AudioFilePlayer.h:159 | toggling shuffle twice restores it |
| Scenarios.ScanKeepsAcceptedInOrder | AudioFileManager.h:57-78 | a scan of three accepted names mixed with two rejected ones stores the three paths, in order |
| Scenarios.ScanAudioDirectory | examples/shuffle/main.cpp:54 | `begin("/audio")` stores `"/audio/" + name` for the three accepted names |
| Scenarios.SequentialScenario | AudioFilePlayer.h:87-123 | play, then `next` three times over three files: cursor 0, 1, 2, 0, and one request per step for the file under the cursor |
| Scenarios.AudioDirectoryScenario | AudioFileManager.h:57-78 | the sequential scenario over the scan of "/audio" requests `/audio/a`, `/audio/b`, `/audio/c`, `/audio/a` |
| Scenarios.RefusedPlayScenario | AudioFilePlayer.h:62-95 | after a refused play the player is stopped at the same index, and a tick with the file reported finished does nothing |
| Scenarios.ShuffleTickScenario | examples/shuffle/main.cpp:61-69 | shuffle on and playing file 0 when it finishes: one tick lands on the first draw that differs and sends one request; a tick before the new file finishes does nothing |

The player's invariant `AudioFilePlayer.Valid` has these parts:

- The cursor is non-negative.
- It is below the number of stored files, or it is 0 while there are none.
- The player is playing only when there are stored files.

Every command keeps it.

## Left out

- SD-card initialisation (`initSDCard`, lines 80-99 of AudioFileManager.h): hardware I/O. On failure it prints and delays forever. `Begin` starts after a successful mount, and the chip-select pin `sdCSPin` is not modelled.
- `SD.open`, `openNextFile` and `close`: replaced by the input sequence of entry names, in the order the card yields them.
- `getFilepaths`: a plain accessor of the stored list, which the model reads as the field `filenames`.
- All `Serial.println` logging.
- `begin`, `setupAudioConnections`, `disconnectAll`, `setVolume`, `getPeakLeft`, `getPeakRight` and the interrupt guards: Teensy Audio library calls that wire the audio graph. `AudioFilePlayer::begin` always returns true.
- `progress`: float division, with no guard for a reported length of 0.
- `isPlaying`: it reads the engine's own flag, not `mIsPlaying`. It is an observation of the engine, not of the modelled state.
- The quality of `random`: each draw is only assumed to lie in `[0, n)`.
- Player.AudioFilePlayer.Randomize: a draw that differs from the cursor must exist among the oracle's values. This is how fairness of the random source is stated. With one file no such draw exists (`SingleFileNeverRedraws`), and the source loops forever. The model does not describe that non-terminating run.
- Player.AudioFilePlayer.Play: requires a stored file at the cursor. `std::vector::at` fails otherwise, and a failing run is not modelled. `Next`, `Prev` and `Randomize` need a non-empty list too. `Next` computes `(i + 1) % n`, and `% 0` is undefined. `Prev` with no files takes the `<= 0` branch, sets the cursor to -1, and then `at(-1)` fails or `randomize` runs. `Randomize` with no files has no draw in `[0, 0)`, and its final `play` would fail at `at`.
- `int` width: the cursor and `numAudioFiles` are unbounded integers. The invariant keeps the cursor below the list length, so `i + 1` cannot overflow for any list that fits in memory.
- What the engine does with a request (decoding, the progression of position and length): the environment sets the reported position and length.
