# Beat-pad sequencing engine in Dafny

This project models the sequencing core of the beat-pad step sequencer. It has three parts.

- **The beat matrix** (`Model`). It maps each of the 16 beats of a measure to the set of clips scheduled on that beat, and it holds one shared playback volume.
- **The controller** (`Controller`). It adds or removes one sound across a list of beats. Its main loop walks a cursor round the measure, plays each beat, and signals the visual counter on every fourth beat.
- **The pad state** (`AudioButton`). A pad holds its sound, its on/off status and its fixed beat list. The toggle handlers of the loop and melody pads flip that status and add or remove the sound.

Files, one module each:

- `measure.dfy`: the controller's constants `BeatsInMeasure` (16) and `TimeBetweenBeats` (250 ms).
- `sounds.dfy`: the clip handle and its key (its `hashCode`), and the calls the engine makes on the audio collaborator.
- `beat_set.dfy`: the set of clips on one beat.
- `beat_model.dfy`: the `Model` class.
- `sequencer.dfy`: the `Controller` class and the specification of its batches and its loop.
- `pads.dfy`: the `AudioButton` class, the pad press handlers and the loop-pad beat table.

How the model stands for the source:

- **Beat sets.** A beat's set is a skip-list set ordered by a comparator on `hashCode`. It is modelled as the sequence of its members in iteration order, strictly ascending by key. So two clips with the same key share one slot. Adding such a clip keeps the member already there. Removing a clip removes the member that holds its key, whichever clip that is.
- **Matrix and volume.** The matrix is a `map<int, seq<Clip>>` field that the methods reassign. The volume is a `real`.
- **Audio calls.** Calls on the audio collaborator are appended to the model's `audio` trace as `Stop`, `SetVolume` and `Play` events. The collaborator's `isPlaying` answer is a parameter.
- **Missing beats.** A beat outside `0..15` has no set in the map. Dereferencing it raises a null-reference fault, which is modelled as the `NullPointer` result.
- **Batch faults.** A batch add or remove stops at its first out-of-range beat. The beats before it stay applied, as happens when the exception leaves the source's for-each loop.
- **The loop's window checks.** The main loop is driven by a finite sequence of answers to "is the window open?". Each answer is `Open`, `Closed` or `TornDown`. `TornDown` means the window reports open but the tick meets a null reference. The loop records its calls as `PlayBeat(b)` and `Notify(b)` events.

The doc comments at `src/Controller.java:31`, `src/Controller.java:43` and `src/AudioButton.java:23` describe beat ranges as running up to `BEATS_IN_MEASURE` "inclusive". The map only has keys 0 to 15 (`src/Model.java:28-30`). `Pads.BeatSixteenFaults` shows that a batch listing beat 16 faults. No pad in the program lists beat 16, as `Pads.LoopPadsInRange` and `Pads.MelodyPadInRange` show.

Three behaviours of the program are modelled as the code does them:

- Scheduled playback stops every clip of the beat unconditionally before setting its volume and playing it (`src/Model.java:62`).
- The clips of a beat play in ascending key order, the order of the set's comparator (`src/Model.java:29`, `src/Model.java:61`).
- An out-of-range beat raises a null-reference fault (`src/Model.java:35`, `src/Model.java:40`, `src/Model.java:60`).

## Model

| member | source | states |
|---|---|---|
| BeatSet.Add | src/Model.java:35 | adding keeps the set key-ordered, adds the clip's key to the key set, and inserts the clip itself only when its key was absent; a set already holding the key is returned unchanged (idempotence) |
| BeatSet.Remove | src/Model.java:40 | removing keeps the set key-ordered, drops exactly the member holding the clip's key and keeps every other member; a set without the key is returned unchanged |
| BeatSet.AtMostOnce | src/Model.java:29 | because the set is ordered by hash key, no key is held by more than one member: a clip's key occurs once if present, otherwise never |
| BeatSet.RemoveUndoesAdd | src/Model.java:34-41 | removing a clip just added to a set that lacked its key gives back the original set |
| Sounds.BeatAudioAt | src/Model.java:59-66 | playing a beat makes three calls per clip; for the i-th clip they are an unconditional stop, then setting the current volume, then play |
| Sounds.SampleAudio | src/Model.java:44-49 | a sample's calls end with play, contain a stop exactly when the clip is still playing, and never set the volume |
| BeatModel.PlaysAscend | src/Model.java:59-66 | within one beat, clips are started in strictly ascending hash-key order |
| BeatModel.Model.constructor | src/Model.java:25-31 | a new model has exactly the keys 0..15, each with an empty set, volume 0.8 and no audio calls |
| BeatModel.Model.AddAudioClipToMatrix | src/Model.java:34-36 | on a beat 0..15 the clip's key is then held at that beat, that beat's set becomes the set's add of the clip, and every other beat is untouched; any other beat faults and changes nothing |
| BeatModel.Model.RemoveAudioClipFromMatrix | src/Model.java:39-41 | on a beat 0..15 the result is true exactly when a member with the clip's key was present, no such member remains, and the other beats are untouched; any other beat faults and changes nothing |
| BeatModel.Model.PlaySample | src/Model.java:44-49 | appends a stop only when the clip is playing, then a play; matrix and volume are untouched |
| BeatModel.Model.ClearMatrix | src/Model.java:52-56 | every beat's set is empty afterwards and every key stays present |
| BeatModel.Model.PlayBeat | src/Model.java:59-66 | on a beat 0..15 it appends the stop / set-volume / play calls for each clip of that beat in set order at the current volume, changing neither matrix nor volume; any other beat faults with no calls |
| BeatModel.Model.UpdateVolume | src/Model.java:69-71 | the stored volume is the slider value divided by 100, and nothing else changes |
| Sequencer.InRangePrefix | src/Controller.java:34-38 | the number of beats a batch reaches: all beats before it lie in 0..15 and the beat at it, if any, does not |
| Sequencer.ScheduleAll | src/Controller.java:34-38 | adding a sound across a batch keeps the matrix well formed: keys 0..15 only, each set key-ordered |
| Sequencer.UnscheduleAll | src/Controller.java:46-50 | removing a sound across a batch keeps the matrix well formed |
| Sequencer.ScheduleAllAt | src/Controller.java:34-38 | after a batch add, a listed beat holds exactly one add of the sound, however often it is listed, and an unlisted beat is unchanged |
| Sequencer.UnscheduleAllAt | src/Controller.java:46-50 | after a batch remove, a listed beat holds exactly one remove of the sound, and an unlisted beat is unchanged |
| Sequencer.ScheduledOnEveryBeat | src/Controller.java:34-38 | after a batch add, the sound's key is held exactly once on every listed beat and unlisted beats are unchanged |
| Sequencer.UnscheduledFromEveryBeat | src/Controller.java:46-50 | after a batch remove, the sound's key is on none of the listed beats and unlisted beats are unchanged |
| Sequencer.AddThenRemove | src/Controller.java:34-50 | adding then removing a sound over the same beats leaves it on none of them |
| Sequencer.AddThenRemoveRestores | src/Controller.java:34-50 | if the sound was on none of the beats, adding then removing it over them restores the whole matrix |
| Sequencer.OpenRun | src/Controller.java:100 | the loop runs one tick per leading "open" answer and stops at the first other answer |
| Sequencer.PlayedBeats | src/Controller.java:98-108 | after k ticks from cursor 0 exactly k beats were played, tick t playing beat t mod 16, so the cursor returns to 0 every 16 ticks |
| Sequencer.NotifiedBeats | src/Controller.java:103-106 | after k ticks the counter was notified (k+3)/4 times, the i-th time with beat 4i mod 16: only beats 0, 4, 8, 12, in that cyclic order |
| Sequencer.OneMeasureNotifies | src/Controller.java:103-108 | one measure of 16 ticks notifies the counter with 0, 4, 8, 12, in that order |
| Sequencer.NotifyFollowsPlay | src/Controller.java:102-106 | every notification comes right after the play of the same beat within its tick, and carries a beat divisible by 4 |
| Sequencer.Controller.constructor | src/Controller.java:24-27 | the controller keeps the given model and starts with no recorded calls |
| Sequencer.Controller.AddSoundToModel | src/Controller.java:34-38 | the model's matrix becomes the batch add over the beats up to the first out-of-range one, which faults; volume and audio are untouched |
| Sequencer.Controller.RemoveSoundFromModel | src/Controller.java:46-50 | the model's matrix becomes the batch remove over the beats up to the first out-of-range one, which faults; volume and audio are untouched |
| Sequencer.Controller.TriggerSamplePlayback | src/Controller.java:75 | forwards to the model's sample playback: the sample's calls are appended and the matrix and volume are untouched |
| Sequencer.Controller.RemoveAllSoundsFromModel | src/Controller.java:80-82 | is the model's clear: every beat empty, keys kept, volume and audio untouched |
| Sequencer.Controller.UpdateVolume | src/Controller.java:88-90 | forwards the slider value unchanged: the model's volume times 100 equals it; matrix and audio untouched |
| Sequencer.Controller.Tick | src/Controller.java:102-106 | one tick at a beat 0..15 appends that beat's audio calls at the current volume and records the play, followed by the counter notification exactly when the beat is a multiple of 4; matrix and volume are untouched |
| Sequencer.Controller.MainLoop | src/Controller.java:97-114 | runs as many ticks as there are leading "open" answers; ends with the cursor at ticks mod 16, inside 0..15; records the play-then-notify calls of those ticks; appends each tick's beat audio; leaves matrix and volume unchanged |
| Pads.AudioButton.constructor | src/AudioButton.java:25-30 | the pad stores the given sound, status and beat list unchanged |
| Pads.AudioButton.SetSound | src/AudioButton.java:52-54 | the sound is replaced and the status is unchanged; the beat list is a constant field |
| Pads.AudioButton.SetStatus | src/AudioButton.java:68-73 | isActive then returns the given status and the sound is unchanged; the beat list is a constant field |
| Pads.TogglePad | src/BeatPadPane.java:191-201 | flips the pad's status, keeps its sound, and adds its sound over its beats when it was off or removes it when it was on, leaving the model's volume and audio calls untouched; the melody pads' handler (src/MelodyMakerPane.java:110-122) is the same |
| Pads.PressSamplePad | src/BeatPadPane.java:142-153 | flips the pad's status and plays its sound at once either way, leaving the matrix and the volume untouched |
| Pads.LoopPadsInRange | src/BeatPadPane.java:33-41 | every loop pad's beat list lies inside 0..15, so its batch reaches all of its beats |
| Pads.MelodyPadInRange | src/MelodyMakerPane.java:105-107 | a melody pad in column j covers the single beat j, inside the measure |
| Pads.BeatSixteenFaults | src/Controller.java:31 | a batch that lists beat 16, which an inclusive upper bound would allow, faults before it is complete |

The getters `AudioButton.IsActive`, `GetSound` and `GetBeatsToPlayOn` (`src/AudioButton.java:44-46`, `60-62`, `79-81`) are plain reads of the fields. The setter contracts above state what they return.

## Left out

- Threads and timing: the thread that runs the main loop (`src/MainPane.java:80-89`), the hand-off to the UI thread (`src/Controller.java:105`) and the 250 ms sleep (`src/Controller.java:109`) are not modelled. One loop iteration stands for one tick. The counter notification is recorded when it is issued, not when the UI thread runs it. The sleep's `InterruptedException` is not modelled.
- Concurrency guarantees of the skip-list set: each beat set is modelled as a sequential set, with no interleaving of UI calls and loop ticks.
- Clip loading and decoding: loading clips from files (`src/BeatPadPane.java:114-120`, `src/MelodyMakerPane.java:45-52`) is not modelled, and clips are opaque ids. The collaborator's `isPlaying` answer is a parameter.
- Floating point: the `double` volume is a `real`, with no rounding. As in the source, the value is not clamped.
- Hash width: `hashCode` is a 32-bit value in the source. The model keeps it as an unbounded integer. The comparator only compares keys, so the width does not change any behaviour modelled here.
- Sequencer.Controller.MainLoop: a null-reference fault ends the loop before the faulting tick makes any call. The source's catch would also end a tick part-way, after some calls had been made; the model does not represent that. The answers to "is the window open?" form a finite sequence, so the loop also stops when they run out. This stands for a finite prefix of an unbounded run.
- Beat-list sharing: a pad's `int[]` beat list is returned by reference, and all eight pads of a melody column share one array (`src/MelodyMakerPane.java:74`, `src/MelodyMakerPane.java:105-107`). The model holds the list as a constant value. The aliasing changes nothing here, because no code writes to the array.
- UI: the `ButtonBase` of a pad and its `ToggleButton` selected state (`src/AudioButton.java:36-38`, `src/AudioButton.java:69-71`) are widget styling and are not modelled. `Controller.clearLoopAndMelodyButtons` and `Controller.turnOnLoop` are UI wiring. The model effect of `turnOnLoop` is `AddSoundToModel`. Layout, keyboard shortcuts and the counter's style changes are also not modelled.
