/**
 * Pads: a pad holds a sound, an on/off status and the fixed list of beats its
 * sound belongs on. Pressing a loop or melody pad flips its status and adds
 * or removes its sound over its beats; pressing a sample pad flips its status
 * and plays its sound at once.
 */
module Pads {
  import opened Measure
  import opened Sounds
  import opened BeatModel
  import opened Sequencer

  class AudioButton {
    var sound: Clip
    var status: bool
    const beatsToPlayOn: seq<int>

    constructor (m: Clip, s: bool, beatsToPlayOn: seq<int>)
      ensures sound == m && status == s && this.beatsToPlayOn == beatsToPlayOn
    {
      sound := m;
      status := s;
      this.beatsToPlayOn := beatsToPlayOn;
    }

    function GetSound(): Clip
      reads this
    {
      sound
    }

    function IsActive(): bool
      reads this
    {
      status
    }

    function GetBeatsToPlayOn(): seq<int>
      reads this
    {
      beatsToPlayOn
    }

    /** Replaces the sound; the status is kept. */
    method SetSound(sound: Clip)
      modifies this
      ensures GetSound() == sound
      ensures status == old(status)
    {
      this.sound := sound;
    }

    /** Turns the pad on or off; the sound is kept. */
    method SetStatus(status: bool)
      modifies this
      ensures IsActive() == status
      ensures sound == old(sound)
    {
      this.status := status;
    }
  }

  /** The beats of the nine loop pads, row by row. */
  const BeatLoops: seq<seq<int>> :=
    [[0, 8], [2, 6, 10, 14], [4, 12], [4, 12], [2, 7, 9, 11], [2, 10], [0, 8, 12], [7, 10], [4]]

  /** A press on a loop or melody pad: an inactive pad becomes active and its
      sound is added on its beats; an active pad becomes inactive and its
      sound is removed from them. */
  method TogglePad(pad: AudioButton, controller: Controller) returns (r: Result<()>)
    requires controller.model.Valid()
    modifies pad, controller.model
    ensures controller.model.Valid()
    ensures controller.model.volume == old(controller.model.volume) && controller.model.audio == old(controller.model.audio)
    ensures pad.IsActive() == !old(pad.IsActive())
    ensures pad.sound == old(pad.sound)
    ensures var beats := pad.beatsToPlayOn;
      var n := InRangePrefix(beats);
      && (r.Ok? <==> n == |beats|)
      && controller.model.beatMatrix ==
        if old(pad.status)
        then UnscheduleAll(old(controller.model.beatMatrix), beats[..n], pad.sound)
        else ScheduleAll(old(controller.model.beatMatrix), beats[..n], pad.sound)
  {
    if !pad.IsActive() {
      pad.SetStatus(true);
      r := controller.AddSoundToModel(pad.GetBeatsToPlayOn(), pad.GetSound());
    } else {
      pad.SetStatus(false);
      r := controller.RemoveSoundFromModel(pad.GetBeatsToPlayOn(), pad.GetSound());
    }
  }

  /** A press on a sample pad: the status flips and the sound plays at once,
      whichever way the status went. */
  method PressSamplePad(pad: AudioButton, controller: Controller, playing: bool)
    modifies pad, controller.model
    ensures pad.IsActive() == !old(pad.IsActive())
    ensures pad.sound == old(pad.sound)
    ensures controller.model.audio == old(controller.model.audio) + SampleAudio(pad.sound, playing)
    ensures controller.model.beatMatrix == old(controller.model.beatMatrix)
    ensures controller.model.volume == old(controller.model.volume)
  {
    if !pad.IsActive() {
      pad.SetStatus(true);
      controller.TriggerSamplePlayback(pad.GetSound(), playing);
    } else {
      pad.SetStatus(false);
      controller.TriggerSamplePlayback(pad.GetSound(), playing);
    }
  }

  /** Every loop pad's beats lie inside the measure, so pressing one never
      faults and reaches all of its beats. */
  lemma LoopPadsInRange(i: nat)
    requires i < |BeatLoops|
    ensures InRangePrefix(BeatLoops[i]) == |BeatLoops[i]|
  {
    var beats := BeatLoops[i];
    assert forall j :: 0 <= j < |beats| ==> IsBeat(beats[j]);
    InRangePrefixIs(beats, |beats|);
  }

  /** A melody pad in column j covers beat j alone, which is inside the
      measure for each of the 16 columns. */
  lemma MelodyPadInRange(j: int)
    requires 0 <= j < 16
    ensures InRangePrefix([j]) == 1
  {
    InRangePrefixIs([j], 1);
  }

  /** A batch listing beat 16, as an upper bound described as inclusive would
      allow, faults before reaching that beat. */
  lemma BeatSixteenFaults(beats: seq<int>)
    requires 16 in beats
    ensures InRangePrefix(beats) < |beats|
  {
  }
}
