/**
 * The beat matrix: for every beat of the measure, the set of clips scheduled
 * on it, plus the shared playback volume. Playing a beat or a sample issues
 * calls on the audio collaborator, recorded in the `audio` trace.
 */
module BeatModel {
  import opened Measure
  import opened Sounds
  import opened BeatSet

  /** Outcome of an operation that dereferences a beat's set: a beat the map
      has no key for yields no set, and the call faults with a null
      reference instead of returning. */
  datatype Result<T> = Ok(value: T) | NullPointer

  type Matrix = map<int, seq<Clip>>

  /** Every beat of the measure has a set, no other key exists, and each set
      keeps its key order. */
  ghost predicate WellFormed(m: Matrix)
  {
    && (forall b :: b in m <==> IsBeat(b))
    && (forall b :: b in m ==> KeyOrdered(m[b]))
  }

  /** Within one beat's playback, clips are started in strictly ascending
      key order. */
  lemma PlaysAscend(clips: seq<Clip>, level: real, p: nat, q: nat)
    requires KeyOrdered(clips)
    requires p < q < |BeatAudio(clips, level)|
    requires BeatAudio(clips, level)[p].Play? && BeatAudio(clips, level)[q].Play?
    ensures Key(BeatAudio(clips, level)[p].clip) < Key(BeatAudio(clips, level)[q].clip)
  {
    var events := BeatAudio(clips, level);
    BeatAudioAt(clips, level, 0);
    var i, j := p / 3, q / 3;
    BeatAudioAt(clips, level, i);
    BeatAudioAt(clips, level, j);
    assert p == 3 * i + 2 && q == 3 * j + 2;
  }

  class Model {
    var beatMatrix: Matrix
    var volume: real
    /** Calls made on the audio collaborator, oldest first. */
    var audio: seq<AudioEvent>

    ghost predicate Valid()
      reads this
    {
      WellFormed(beatMatrix)
    }

    /** A fresh model: every beat present with an empty set, volume 0.8. */
    constructor ()
      ensures Valid()
      ensures forall b :: b in beatMatrix ==> beatMatrix[b] == []
      ensures volume == 0.8 && audio == []
    {
      var m: Matrix := map[];
      for i := 0 to BeatsInMeasure
        invariant forall b :: b in m <==> 0 <= b < i
        invariant forall b :: b in m ==> m[b] == []
      {
        m := m[i := []];
      }
      beatMatrix := m;
      volume := 0.8;
      audio := [];
    }

    /** Schedules clip m on a beat; faults on a beat the matrix lacks. */
    method AddAudioClipToMatrix(beat: int, m: Clip) returns (r: Result<()>)
      requires Valid()
      modifies this`beatMatrix
      ensures Valid()
      ensures r.Ok? <==> IsBeat(beat)
      ensures r.Ok? ==> Contains(beatMatrix[beat], m)
      ensures r.Ok? ==> beatMatrix == old(beatMatrix)[beat := Add(old(beatMatrix)[beat], m)]
      ensures r.NullPointer? ==> beatMatrix == old(beatMatrix)
    {
      if beat !in beatMatrix {
        return NullPointer;
      }
      beatMatrix := beatMatrix[beat := Add(beatMatrix[beat], m)];
      r := Ok(());
    }

    /** Unschedules the member holding m's key from a beat and reports whether
        there was one; faults on a beat the matrix lacks. */
    method RemoveAudioClipFromMatrix(beat: int, m: Clip) returns (r: Result<bool>)
      requires Valid()
      modifies this`beatMatrix
      ensures Valid()
      ensures r.Ok? <==> IsBeat(beat)
      ensures r.Ok? ==> (r.value <==> Contains(old(beatMatrix)[beat], m))
      ensures r.Ok? ==> !Contains(beatMatrix[beat], m)
      ensures r.Ok? ==> beatMatrix == old(beatMatrix)[beat := Remove(old(beatMatrix)[beat], m)]
      ensures r.NullPointer? ==> beatMatrix == old(beatMatrix)
    {
      if beat !in beatMatrix {
        return NullPointer;
      }
      var present := Contains(beatMatrix[beat], m);
      beatMatrix := beatMatrix[beat := Remove(beatMatrix[beat], m)];
      r := Ok(present);
    }

    /** Plays a clip at once, restarting it if `playing` (the collaborator's
        answer to isPlaying) says it is still sounding. */
    method PlaySample(sound: Clip, playing: bool)
      modifies this`audio
      ensures audio == old(audio) + SampleAudio(sound, playing)
    {
      if playing {
        audio := audio + [Stop(sound)];
      }
      audio := audio + [Play(sound)];
    }

    /** Empties every beat's set; all beats stay present. */
    method ClearMatrix()
      requires Valid()
      modifies this`beatMatrix
      ensures Valid()
      ensures beatMatrix.Keys == old(beatMatrix).Keys
      ensures forall b :: b in beatMatrix ==> beatMatrix[b] == []
    {
      for b := 0 to BeatsInMeasure
        invariant Valid()
        invariant beatMatrix.Keys == old(beatMatrix).Keys
        invariant forall j :: 0 <= j < b ==> beatMatrix[j] == []
      {
        beatMatrix := beatMatrix[b := []];
      }
    }

    /** Restarts every clip scheduled on a beat, in the set's key order, at
        the current volume; faults on a beat the matrix lacks. */
    method PlayBeat(beat: int) returns (r: Result<()>)
      requires Valid()
      modifies this`audio
      ensures r.Ok? <==> IsBeat(beat)
      ensures r.Ok? ==> audio == old(audio) + BeatAudio(beatMatrix[beat], volume)
      ensures r.NullPointer? ==> audio == old(audio)
    {
      if beat !in beatMatrix {
        return NullPointer;
      }
      var beatToPlay := beatMatrix[beat];
      for i := 0 to |beatToPlay|
        invariant audio == old(audio) + BeatAudio(beatToPlay[..i], volume)
      {
        var sound := beatToPlay[i];
        audio := audio + [Stop(sound)];
        audio := audio + [SetVolume(sound, volume)];
        audio := audio + [Play(sound)];
        assert beatToPlay[..i + 1][..i] == beatToPlay[..i];
      }
      assert beatToPlay[..|beatToPlay|] == beatToPlay;
      r := Ok(());
    }

    /** Takes a slider value on a 0-100 scale and keeps it as a fraction. */
    method UpdateVolume(newVolume: real)
      modifies this`volume
      ensures volume * 100.0 == newVolume
    {
      volume := newVolume / 100.0;
    }
  }
}
