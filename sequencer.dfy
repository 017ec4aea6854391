/**
 * The controller: batch scheduling of one sound over a list of beats, and
 * the main loop that walks a cursor round the measure, plays each beat and
 * signals the visual counter on every fourth beat.
 */
module Sequencer {
  import opened Measure
  import opened Sounds
  import opened BeatSet
  import opened BeatModel

  // ---------------------------------------------------------------------
  // Batch scheduling

  /** How many leading beats of a batch the matrix has sets for: a batch is
      applied up to its first out-of-range beat, where it faults. */
  function InRangePrefix(beats: seq<int>): (n: nat)
    ensures n <= |beats|
    ensures forall i :: 0 <= i < n ==> IsBeat(beats[i])
    ensures n < |beats| ==> !IsBeat(beats[n])
  {
    if beats == [] || !IsBeat(beats[0]) then 0 else 1 + InRangePrefix(beats[1..])
  }

  ghost predicate AllBeats(beats: seq<int>)
  {
    forall i :: 0 <= i < |beats| ==> IsBeat(beats[i])
  }

  /** The matrix after adding c on each beat of the batch in turn. */
  function ScheduleAll(m: Matrix, beats: seq<int>, c: Clip): (r: Matrix)
    requires WellFormed(m) && AllBeats(beats)
    ensures WellFormed(r)
  {
    if beats == [] then m
    else
      var prev := ScheduleAll(m, beats[..|beats| - 1], c);
      var b := beats[|beats| - 1];
      prev[b := Add(prev[b], c)]
  }

  /** The matrix after removing c from each beat of the batch in turn. */
  function UnscheduleAll(m: Matrix, beats: seq<int>, c: Clip): (r: Matrix)
    requires WellFormed(m) && AllBeats(beats)
    ensures WellFormed(r)
  {
    if beats == [] then m
    else
      var prev := UnscheduleAll(m, beats[..|beats| - 1], c);
      var b := beats[|beats| - 1];
      prev[b := Remove(prev[b], c)]
  }

  /** A batch whose first i beats are in range and whose beat i (if any) is
      not, applies exactly i beats. */
  lemma {:induction false} InRangePrefixIs(beats: seq<int>, i: nat)
    requires i <= |beats| && AllBeats(beats[..i])
    requires i < |beats| ==> !IsBeat(beats[i])
    ensures InRangePrefix(beats) == i
  {
    if i > 0 {
      assert IsBeat(beats[..i][0]);
      assert beats[1..][..i - 1] == beats[..i][1..];
      InRangePrefixIs(beats[1..], i - 1);
    }
  }

  /** An in-range prefix grows by an in-range beat. */
  lemma AllBeatsStep(beats: seq<int>, i: nat)
    requires i < |beats| && AllBeats(beats[..i]) && IsBeat(beats[i])
    ensures AllBeats(beats[..i + 1])
  {
    assert forall j :: 0 <= j < i ==> beats[..i + 1][j] == beats[..i][j];
  }

  /** Extending a batch by one beat adds the sound on that beat. */
  lemma ScheduleAllStep(m: Matrix, beats: seq<int>, i: nat, c: Clip)
    requires WellFormed(m) && i < |beats| && AllBeats(beats[..i + 1])
    ensures AllBeats(beats[..i])
    ensures var prev := ScheduleAll(m, beats[..i], c);
      ScheduleAll(m, beats[..i + 1], c) == prev[beats[i] := Add(prev[beats[i]], c)]
  {
    assert beats[..i + 1][..i] == beats[..i];
  }

  /** Extending a batch by one beat removes the sound from that beat. */
  lemma UnscheduleAllStep(m: Matrix, beats: seq<int>, i: nat, c: Clip)
    requires WellFormed(m) && i < |beats| && AllBeats(beats[..i + 1])
    ensures AllBeats(beats[..i])
    ensures var prev := UnscheduleAll(m, beats[..i], c);
      UnscheduleAll(m, beats[..i + 1], c) == prev[beats[i] := Remove(prev[beats[i]], c)]
  {
    assert beats[..i + 1][..i] == beats[..i];
  }

  /** A batch add touches each listed beat as one add would, however often
      the beat is listed, and leaves every other beat as it was. */
  lemma {:induction false} ScheduleAllAt(m: Matrix, beats: seq<int>, c: Clip, b: int)
    requires WellFormed(m) && AllBeats(beats) && IsBeat(b)
    ensures ScheduleAll(m, beats, c)[b] == if b in beats then Add(m[b], c) else m[b]
  {
    if beats != [] {
      var init, last := beats[..|beats| - 1], beats[|beats| - 1];
      assert beats == init + [last];
      ScheduleAllAt(m, init, c, b);
      var prev := ScheduleAll(m, init, c);
      assert ScheduleAll(m, beats, c) == prev[last := Add(prev[last], c)];
      if b == last && b in init {
        assert Add(prev[b], c) == prev[b];
      }
    }
  }

  /** A batch remove touches each listed beat as one remove would, and leaves
      every other beat as it was. */
  lemma {:induction false} UnscheduleAllAt(m: Matrix, beats: seq<int>, c: Clip, b: int)
    requires WellFormed(m) && AllBeats(beats) && IsBeat(b)
    ensures UnscheduleAll(m, beats, c)[b] == if b in beats then Remove(m[b], c) else m[b]
  {
    if beats != [] {
      var init, last := beats[..|beats| - 1], beats[|beats| - 1];
      assert beats == init + [last];
      UnscheduleAllAt(m, init, c, b);
      var prev := UnscheduleAll(m, init, c);
      assert UnscheduleAll(m, beats, c) == prev[last := Remove(prev[last], c)];
      if b == last && b in init {
        assert Remove(prev[b], c) == prev[b];
      }
    }
  }

  /** After a batch add, c's key is held exactly once on every listed beat,
      and unlisted beats are unchanged. */
  lemma ScheduledOnEveryBeat(m: Matrix, beats: seq<int>, c: Clip)
    requires WellFormed(m) && AllBeats(beats)
    ensures forall b :: b in beats ==>
      Contains(ScheduleAll(m, beats, c)[b], c) && Occurrences(ScheduleAll(m, beats, c)[b], Key(c)) == 1
    ensures forall b :: IsBeat(b) && b !in beats ==> ScheduleAll(m, beats, c)[b] == m[b]
  {
    var r := ScheduleAll(m, beats, c);
    forall b | b in beats
      ensures Contains(r[b], c) && Occurrences(r[b], Key(c)) == 1
    {
      ScheduleAllAt(m, beats, c, b);
      AtMostOnce(r[b], Key(c));
    }
    forall b | IsBeat(b) && b !in beats
      ensures r[b] == m[b]
    {
      ScheduleAllAt(m, beats, c, b);
    }
  }

  /** After a batch remove, c's key is held on none of the listed beats, and
      unlisted beats are unchanged. */
  lemma UnscheduledFromEveryBeat(m: Matrix, beats: seq<int>, c: Clip)
    requires WellFormed(m) && AllBeats(beats)
    ensures forall b :: b in beats ==> !Contains(UnscheduleAll(m, beats, c)[b], c)
    ensures forall b :: IsBeat(b) && b !in beats ==> UnscheduleAll(m, beats, c)[b] == m[b]
  {
    var r := UnscheduleAll(m, beats, c);
    forall b | IsBeat(b)
      ensures b in beats ==> !Contains(r[b], c)
      ensures b !in beats ==> r[b] == m[b]
    {
      UnscheduleAllAt(m, beats, c, b);
    }
  }

  /** Toggling a sound on and then off over the same beats leaves it on none
      of them. */
  lemma AddThenRemove(m: Matrix, beats: seq<int>, c: Clip)
    requires WellFormed(m) && AllBeats(beats)
    ensures forall b :: b in beats ==> !Contains(UnscheduleAll(ScheduleAll(m, beats, c), beats, c)[b], c)
  {
    UnscheduledFromEveryBeat(ScheduleAll(m, beats, c), beats, c);
  }

  /** If the sound was on none of the beats, toggling it on and then off over
      them gives back the matrix as it was. */
  lemma AddThenRemoveRestores(m: Matrix, beats: seq<int>, c: Clip)
    requires WellFormed(m) && AllBeats(beats)
    requires forall b :: b in beats ==> !Contains(m[b], c)
    ensures UnscheduleAll(ScheduleAll(m, beats, c), beats, c) == m
  {
    var on := ScheduleAll(m, beats, c);
    var off := UnscheduleAll(on, beats, c);
    forall b | IsBeat(b)
      ensures off[b] == m[b]
    {
      ScheduleAllAt(m, beats, c, b);
      UnscheduleAllAt(on, beats, c, b);
      if b in beats {
        RemoveUndoesAdd(m[b], c);
      }
    }
    assert forall b :: b in off <==> b in m;
    assert forall b :: b in off ==> off[b] == m[b];
  }

  // ---------------------------------------------------------------------
  // The main loop

  /** What the loop finds when it asks whether the window is open: closed;
      open; or open, but the tick meets a null reference. */
  datatype Window = Open | Closed | TornDown

  /** The controller's calls, in order: playing a beat, and handing a beat to
      the visual counter. */
  datatype LoopEvent = PlayBeat(beat: int) | Notify(beat: int)

  /** How many ticks run: one per leading Open answer. */
  function OpenRun(polls: seq<Window>): (n: nat)
    ensures n <= |polls|
    ensures forall i :: 0 <= i < n ==> polls[i] == Open
    ensures n < |polls| ==> polls[n] != Open
  {
    if polls == [] || polls[0] != Open then 0 else 1 + OpenRun(polls[1..])
  }

  /** A tick that meets an Open answer was not the last of the run. */
  lemma OpenRunStep(polls: seq<Window>, t: nat)
    requires t <= OpenRun(polls) && t < |polls| && polls[t] == Open
    ensures t + 1 <= OpenRun(polls)
  {
  }

  /** The calls of one tick at cursor b. */
  function TickEvents(b: int): seq<LoopEvent>
  {
    [PlayBeat(b)] + if b % 4 == 0 then [Notify(b)] else []
  }

  /** The calls of the first k ticks from cursor 0. */
  function LoopTrace(k: nat): seq<LoopEvent>
  {
    if k == 0 then [] else LoopTrace(k - 1) + TickEvents((k - 1) % BeatsInMeasure)
  }

  /** The audio calls of the first k ticks from cursor 0 on an unchanging
      matrix and volume. */
  function LoopAudio(m: Matrix, level: real, k: nat): seq<AudioEvent>
    requires WellFormed(m)
  {
    if k == 0 then [] else LoopAudio(m, level, k - 1) + BeatAudio(m[(k - 1) % BeatsInMeasure], level)
  }

  /** The beats played, in order. */
  function Played(events: seq<LoopEvent>): seq<int>
  {
    if events == [] then []
    else
      var last := events[|events| - 1];
      Played(events[..|events| - 1]) + (if last.PlayBeat? then [last.beat] else [])
  }

  /** The beats handed to the counter, in order. */
  function Notified(events: seq<LoopEvent>): seq<int>
  {
    if events == [] then []
    else
      var last := events[|events| - 1];
      Notified(events[..|events| - 1]) + (if last.Notify? then [last.beat] else [])
  }

  lemma {:induction false} PlayedAppend(a: seq<LoopEvent>, b: seq<LoopEvent>)
    ensures Played(a + b) == Played(a) + Played(b)
  {
    if b != [] {
      var init := b[..|b| - 1];
      PlayedAppend(a, init);
      assert (a + b)[..|a + b| - 1] == a + init;
      assert (a + b)[|a + b| - 1] == b[|b| - 1];
      assert Played(a + b) == Played(a + init) + Played([b[|b| - 1]]);
      assert Played(b) == Played(init) + Played([b[|b| - 1]]);
    } else {
      assert a + b == a;
    }
  }

  lemma {:induction false} NotifiedAppend(a: seq<LoopEvent>, b: seq<LoopEvent>)
    ensures Notified(a + b) == Notified(a) + Notified(b)
  {
    if b != [] {
      var init := b[..|b| - 1];
      NotifiedAppend(a, init);
      assert (a + b)[..|a + b| - 1] == a + init;
      assert (a + b)[|a + b| - 1] == b[|b| - 1];
      assert Notified(a + b) == Notified(a + init) + Notified([b[|b| - 1]]);
      assert Notified(b) == Notified(init) + Notified([b[|b| - 1]]);
    } else {
      assert a + b == a;
    }
  }

  /** A tick plays its beat once, and notifies it only when it is a multiple of 4. */
  lemma TickCalls(b: int)
    ensures Played(TickEvents(b)) == [b]
    ensures Notified(TickEvents(b)) == if b % 4 == 0 then [b] else []
  {
    var tail: seq<LoopEvent> := if b % 4 == 0 then [Notify(b)] else [];
    PlayedAppend([PlayBeat(b)], tail);
    NotifiedAppend([PlayBeat(b)], tail);
    assert [PlayBeat(b)][..0] == [];
    if tail != [] {
      assert tail[..0] == [];
    }
  }

  /** The cursor positions of the first k ticks: 0, 1, ..., 15, 0, 1, ... */
  function Cursors(k: nat): seq<int>
  {
    if k == 0 then [] else Cursors(k - 1) + [(k - 1) % BeatsInMeasure]
  }

  /** The beats notified in the first k ticks: the cursor of every tick that
      is a multiple of 4. */
  function Quarters(k: nat): seq<int>
  {
    if k == 0 then []
    else Quarters(k - 1) + if (k - 1) % 4 == 0 then [(k - 1) % BeatsInMeasure] else []
  }

  /** Tick t adds exactly one play, of beat t mod 16. */
  lemma PlayedStep(t: nat)
    ensures Played(LoopTrace(t + 1)) == Played(LoopTrace(t)) + [t % BeatsInMeasure]
  {
    var b := t % BeatsInMeasure;
    assert LoopTrace(t + 1) == LoopTrace(t) + TickEvents(b);
    PlayedAppend(LoopTrace(t), TickEvents(b));
    TickCalls(b);
  }

  /** Tick t notifies beat t mod 16 when t is a multiple of 4, and nothing
      otherwise. */
  lemma NotifiedStep(t: nat)
    ensures Notified(LoopTrace(t + 1)) == Notified(LoopTrace(t)) + if t % 4 == 0 then [t % BeatsInMeasure] else []
  {
    var b := t % BeatsInMeasure;
    assert LoopTrace(t + 1) == LoopTrace(t) + TickEvents(b);
    NotifiedAppend(LoopTrace(t), TickEvents(b));
    TickCalls(b);
    QuarterStep(t);
  }

  lemma {:induction false} PlayedIsCursors(k: nat)
    ensures Played(LoopTrace(k)) == Cursors(k)
  {
    if k > 0 {
      var t := k - 1;
      PlayedIsCursors(t);
      PlayedStep(t);
      assert Cursors(t + 1) == Cursors(t) + [t % BeatsInMeasure];
    }
  }

  lemma {:induction false} NotifiedIsQuarters(k: nat)
    ensures Notified(LoopTrace(k)) == Quarters(k)
  {
    if k > 0 {
      var t := k - 1;
      NotifiedIsQuarters(t);
      NotifiedStep(t);
      assert Quarters(t + 1) == Quarters(t) + if t % 4 == 0 then [t % BeatsInMeasure] else [];
    }
  }

  /** Appending the cursor of tick k to the cursors of ticks 0..k-1. */
  lemma CursorsExtend(prev: seq<int>, k: nat)
    requires |prev| == k && forall t :: 0 <= t < k ==> prev[t] == t % BeatsInMeasure
    ensures forall t :: 0 <= t < k + 1 ==> (prev + [k % BeatsInMeasure])[t] == t % BeatsInMeasure
  {
    var now := prev + [k % BeatsInMeasure];
    forall t | 0 <= t < k + 1
      ensures now[t] == t % BeatsInMeasure
    {
      if t < k {
        assert now[t] == prev[t];
      }
    }
  }

  lemma {:induction false} CursorsAt(k: nat)
    ensures |Cursors(k)| == k
    ensures forall t :: 0 <= t < k ==> Cursors(k)[t] == t % BeatsInMeasure
  {
    if k > 0 {
      CursorsAt(k - 1);
      CursorsExtend(Cursors(k - 1), k - 1);
    }
  }

  /** Appending the beat of the next quarter-measure to the first n notified
      beats. */
  lemma QuartersExtend(prev: seq<int>, n: nat, b: int)
    requires |prev| == n && forall i :: 0 <= i < n ==> prev[i] == 4 * i % BeatsInMeasure
    requires b == 4 * n % BeatsInMeasure
    ensures forall i :: 0 <= i < n + 1 ==> (prev + [b])[i] == 4 * i % BeatsInMeasure
  {
    var now := prev + [b];
    forall i | 0 <= i < n + 1
      ensures now[i] == 4 * i % BeatsInMeasure
    {
      if i < n {
        assert now[i] == prev[i];
      }
    }
  }

  lemma {:induction false} QuartersAt(k: nat)
    ensures |Quarters(k)| == (k + 3) / 4
    ensures forall i :: 0 <= i < |Quarters(k)| ==> Quarters(k)[i] == 4 * i % BeatsInMeasure
  {
    if k > 0 {
      QuartersAt(k - 1);
      QuarterStep(k - 1);
      if (k - 1) % 4 == 0 {
        QuartersExtend(Quarters(k - 1), (k + 2) / 4, (k - 1) % BeatsInMeasure);
      }
    }
  }

  /** Tick t plays beat t mod 16: the cursor starts at 0, moves on by one
      each tick and wraps after the last beat. */
  lemma PlayedBeats(k: nat)
    ensures |Played(LoopTrace(k))| == k
    ensures forall t :: 0 <= t < k ==> Played(LoopTrace(k))[t] == t % BeatsInMeasure
  {
    PlayedIsCursors(k);
    CursorsAt(k);
  }

  /** Arithmetic of one tick at step t: the cursor t mod 16 is a multiple of
      4 exactly when t is, and then it is the next multiple of 4 round the
      measure. */
  lemma QuarterStep(t: nat)
    ensures (t % BeatsInMeasure) % 4 == 0 <==> t % 4 == 0
    ensures t % 4 == 0 ==> (t + 4) / 4 == (t + 3) / 4 + 1 && 4 * ((t + 3) / 4) % BeatsInMeasure == t % BeatsInMeasure
    ensures t % 4 != 0 ==> (t + 4) / 4 == (t + 3) / 4
  {
    var a := t / 16;
    var r := t % 16;
    var b, e := r / 4, r % 4;
    assert t == 16 * a + 4 * b + e && 0 <= b < 4 && 0 <= e < 4;
    assert t % BeatsInMeasure == 4 * b + e;
    assert t % 4 == e;
    assert (t + 4) / 4 == 4 * a + b + 1;
    if e == 0 {
      assert (t + 3) / 4 == 4 * a + b;
      assert 4 * (4 * a + b) == 16 * a + 4 * b;
    } else {
      assert (t + 3) / 4 == 4 * a + b + 1;
    }
  }

  /** Advancing the cursor b = t mod 16 by one and wrapping gives (t + 1) mod 16. */
  lemma CursorStep(t: nat, b: int)
    requires b == t % BeatsInMeasure
    ensures (b + 1) % BeatsInMeasure == (t + 1) % BeatsInMeasure
  {
    var a, r := t / 16, t % 16;
    assert t == 16 * a + r && 0 <= r < 16;
    if r == 15 {
      assert t + 1 == 16 * (a + 1);
    } else {
      assert t + 1 == 16 * a + (r + 1);
    }
  }

  /** The counter hears of every fourth tick only: after k ticks it has been
      told beats 0, 4, 8, 12, 0, 4, ... one per started quarter-measure. */
  lemma NotifiedBeats(k: nat)
    ensures |Notified(LoopTrace(k))| == (k + 3) / 4
    ensures forall i :: 0 <= i < |Notified(LoopTrace(k))| ==> Notified(LoopTrace(k))[i] == 4 * i % BeatsInMeasure
  {
    NotifiedIsQuarters(k);
    QuartersAt(k);
  }

  /** One full measure notifies the counter at 0, 4, 8 and 12, in that order. */
  lemma OneMeasureNotifies()
    ensures Notified(LoopTrace(BeatsInMeasure)) == [0, 4, 8, 12]
  {
    NotifiedBeats(BeatsInMeasure);
  }

  /** Within a tick, the beat is played before the counter is notified, and
      only beats divisible by 4 are notified. */
  lemma {:induction false} NotifyFollowsPlay(k: nat, j: nat)
    requires j < |LoopTrace(k)| && LoopTrace(k)[j].Notify?
    ensures 0 < j && LoopTrace(k)[j - 1] == PlayBeat(LoopTrace(k)[j].beat)
    ensures LoopTrace(k)[j].beat % 4 == 0
  {
    var prev := LoopTrace(k - 1);
    if j < |prev| {
      NotifyFollowsPlay(k - 1, j);
    }
  }

  /** One more tick at cursor b = t mod 16 extends both traces, after
      whatever came before them, by that beat's calls, and moves the cursor
      to (t + 1) mod 16. */
  lemma TickStep(m: Matrix, level: real, t: nat, b: int, heard: seq<AudioEvent>, told: seq<LoopEvent>)
    requires WellFormed(m) && b == t % BeatsInMeasure
    ensures IsBeat(b) && (b + 1) % BeatsInMeasure == (t + 1) % BeatsInMeasure
    ensures (told + LoopTrace(t)) + TickEvents(b) == told + LoopTrace(t + 1)
    ensures (heard + LoopAudio(m, level, t)) + BeatAudio(m[b], level) == heard + LoopAudio(m, level, t + 1)
  {
    CursorStep(t, b);
    assert LoopTrace(t + 1) == LoopTrace(t) + TickEvents(b);
    assert LoopAudio(m, level, t + 1) == LoopAudio(m, level, t) + BeatAudio(m[b], level);
  }

  class Controller {
    const model: Model
    /** Calls made by the main loop, oldest first. */
    var events: seq<LoopEvent>

    constructor (model: Model)
      ensures this.model == model && events == []
    {
      this.model := model;
      events := [];
    }

    /** Schedules the sound on each listed beat in turn; a beat outside the
        measure faults, leaving the earlier beats scheduled. */
    method AddSoundToModel(beatToPlayOn: seq<int>, sound: Clip) returns (r: Result<()>)
      requires model.Valid()
      modifies model
      ensures model.Valid()
      ensures r.Ok? <==> InRangePrefix(beatToPlayOn) == |beatToPlayOn|
      ensures model.beatMatrix ==
        ScheduleAll(old(model.beatMatrix), beatToPlayOn[..InRangePrefix(beatToPlayOn)], sound)
      ensures model.volume == old(model.volume) && model.audio == old(model.audio)
    {
      for i := 0 to |beatToPlayOn|
        invariant model.Valid()
        invariant AllBeats(beatToPlayOn[..i])
        invariant model.beatMatrix == ScheduleAll(old(model.beatMatrix), beatToPlayOn[..i], sound)
        invariant model.volume == old(model.volume) && model.audio == old(model.audio)
      {
        var added := model.AddAudioClipToMatrix(beatToPlayOn[i], sound);
        if added.NullPointer? {
          InRangePrefixIs(beatToPlayOn, i);
          return NullPointer;
        }
        AllBeatsStep(beatToPlayOn, i);
        ScheduleAllStep(old(model.beatMatrix), beatToPlayOn, i, sound);
      }
      assert beatToPlayOn[..|beatToPlayOn|] == beatToPlayOn;
      InRangePrefixIs(beatToPlayOn, |beatToPlayOn|);
      r := Ok(());
    }

    /** Unschedules the sound from each listed beat in turn; a beat outside
        the measure faults, leaving the earlier beats unscheduled. */
    method RemoveSoundFromModel(beatWasPlayedOn: seq<int>, sound: Clip) returns (r: Result<()>)
      requires model.Valid()
      modifies model
      ensures model.Valid()
      ensures r.Ok? <==> InRangePrefix(beatWasPlayedOn) == |beatWasPlayedOn|
      ensures model.beatMatrix ==
        UnscheduleAll(old(model.beatMatrix), beatWasPlayedOn[..InRangePrefix(beatWasPlayedOn)], sound)
      ensures model.volume == old(model.volume) && model.audio == old(model.audio)
    {
      for i := 0 to |beatWasPlayedOn|
        invariant model.Valid()
        invariant AllBeats(beatWasPlayedOn[..i])
        invariant model.beatMatrix == UnscheduleAll(old(model.beatMatrix), beatWasPlayedOn[..i], sound)
        invariant model.volume == old(model.volume) && model.audio == old(model.audio)
      {
        var removed := model.RemoveAudioClipFromMatrix(beatWasPlayedOn[i], sound);
        if removed.NullPointer? {
          InRangePrefixIs(beatWasPlayedOn, i);
          return NullPointer;
        }
        AllBeatsStep(beatWasPlayedOn, i);
        UnscheduleAllStep(old(model.beatMatrix), beatWasPlayedOn, i, sound);
      }
      assert beatWasPlayedOn[..|beatWasPlayedOn|] == beatWasPlayedOn;
      InRangePrefixIs(beatWasPlayedOn, |beatWasPlayedOn|);
      r := Ok(());
    }

    /** Plays a sample pad's sound at once. */
    method TriggerSamplePlayback(sound: Clip, playing: bool)
      modifies model
      ensures model.audio == old(model.audio) + SampleAudio(sound, playing)
      ensures model.beatMatrix == old(model.beatMatrix) && model.volume == old(model.volume)
    {
      model.PlaySample(sound, playing);
    }

    /** Clears every beat of the model. */
    method RemoveAllSoundsFromModel()
      requires model.Valid()
      modifies model
      ensures model.Valid()
      ensures model.beatMatrix.Keys == old(model.beatMatrix).Keys
      ensures forall b :: b in model.beatMatrix ==> model.beatMatrix[b] == []
      ensures model.volume == old(model.volume) && model.audio == old(model.audio)
    {
      model.ClearMatrix();
    }

    /** Hands a slider value to the model unchanged. */
    method UpdateVolume(newVolume: real)
      modifies model
      ensures model.volume * 100.0 == newVolume
      ensures model.beatMatrix == old(model.beatMatrix) && model.audio == old(model.audio)
    {
      model.UpdateVolume(newVolume);
    }

    /** One tick of the main loop at cursor beat: play the beat, and hand it
        to the visual counter when it starts a quarter of the measure. */
    method Tick(beat: int)
      requires model.Valid() && IsBeat(beat)
      modifies this, model`audio
      ensures model.beatMatrix == old(model.beatMatrix) && model.volume == old(model.volume)
      ensures events == old(events) + TickEvents(beat)
      ensures model.audio == old(model.audio) + BeatAudio(model.beatMatrix[beat], model.volume)
    {
      var played := model.PlayBeat(beat);
      events := events + [PlayBeat(beat)];
      if beat % 4 == 0 {
        events := events + [Notify(beat)];
      }
    }

    /** Runs ticks while the window answers Open: each tick plays the beat at
        the cursor, notifies the counter when the cursor is a multiple of 4,
        and advances the cursor modulo the measure. A Closed answer ends the
        loop before the tick; a tick that meets a null reference ends it
        without a fault. */
    method MainLoop(polls: seq<Window>) returns (ticks: nat, cursor: int)
      requires model.Valid()
      modifies this, model
      ensures ticks == OpenRun(polls)
      ensures 0 <= cursor < BeatsInMeasure && cursor == ticks % BeatsInMeasure
      ensures model.Valid()
      ensures events == old(events) + LoopTrace(ticks)
      ensures model.audio == old(model.audio) + LoopAudio(model.beatMatrix, model.volume, ticks)
      ensures model.beatMatrix == old(model.beatMatrix) && model.volume == old(model.volume)
    {
      ghost var m, level, heard, told := model.beatMatrix, model.volume, model.audio, events;
      var beat := 0;
      ticks := 0;
      while ticks < |polls| && polls[ticks] != Closed
        invariant ticks <= |polls|
        invariant ticks <= OpenRun(polls)
        invariant 0 <= beat < BeatsInMeasure && beat == ticks % BeatsInMeasure
        invariant model.Valid() && model.beatMatrix == m && model.volume == level
        invariant events == told + LoopTrace(ticks)
        invariant model.audio == heard + LoopAudio(m, level, ticks)
        decreases |polls| - ticks
      {
        if polls[ticks] == TornDown {
          break;
        }
        OpenRunStep(polls, ticks);
        TickStep(m, level, ticks, beat, heard, told);
        Tick(beat);
        beat := beat + 1;
        beat := beat % BeatsInMeasure;
        ticks := ticks + 1;
      }
      cursor := beat;
    }
  }
}
