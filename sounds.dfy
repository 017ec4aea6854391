/**
 * Sound handles and the calls the sequencing engine makes on the audio
 * collaborator. The collaborator itself is not modelled: every call on it is
 * recorded, in order, as an event of an append-only trace.
 */
module Sounds {

  /** An opaque handle to a loaded clip. `hash` stands for the handle's
      hashCode(); the engine never looks inside a clip. */
  datatype Clip = Clip(id: nat, hash: int)

  /** The key by which each beat's set orders and identifies its clips. */
  function Key(c: Clip): int
  {
    c.hash
  }

  /** One call on the audio collaborator. */
  datatype AudioEvent =
    | Stop(clip: Clip)
    | SetVolume(clip: Clip, level: real)
    | Play(clip: Clip)

  /** The calls that restart one scheduled clip at the given level. */
  function Trigger(c: Clip, level: real): seq<AudioEvent>
  {
    [Stop(c), SetVolume(c, level), Play(c)]
  }

  /** The calls made while playing the clips of one beat, in iteration order. */
  function BeatAudio(clips: seq<Clip>, level: real): seq<AudioEvent>
  {
    if clips == [] then []
    else BeatAudio(clips[..|clips| - 1], level) + Trigger(clips[|clips| - 1], level)
  }

  /** Playing a beat makes three calls per clip, and the i-th clip gets an
      unconditional stop, then the level, then play. */
  lemma {:induction false} BeatAudioAt(clips: seq<Clip>, level: real, i: nat)
    requires i < |clips|
    ensures |BeatAudio(clips, level)| == 3 * |clips|
    ensures BeatAudio(clips, level)[3 * i] == Stop(clips[i])
    ensures BeatAudio(clips, level)[3 * i + 1] == SetVolume(clips[i], level)
    ensures BeatAudio(clips, level)[3 * i + 2] == Play(clips[i])
  {
    var n := |clips| - 1;
    var init := clips[..n];
    if 0 < n {
      BeatAudioAt(init, level, if i < n then i else 0);
    }
    assert BeatAudio(clips, level) == BeatAudio(init, level) + Trigger(clips[n], level);
  }

  /** The calls made for a one-shot sample: a stop only when the clip is still
      sounding, then play; the shared volume is never applied. */
  function SampleAudio(c: Clip, playing: bool): (r: seq<AudioEvent>)
    ensures 0 < |r| && r[|r| - 1] == Play(c)
    ensures Stop(c) in r <==> playing
    ensures forall e :: e in r ==> !e.SetVolume?
  {
    (if playing then [Stop(c)] else []) + [Play(c)]
  }
}
