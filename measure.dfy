/**
 * The fixed shape of the sequencer's cycle, declared on the controller in the
 * source and shared by the model.
 */
module Measure {

  /** Number of beats in one cycle; the beat matrix has exactly these keys. */
  const BeatsInMeasure: nat := 16

  /** Milliseconds slept after each tick (one measure lasts 16 * 250 ms = 4 s).
      Wall-clock time is not modelled: one loop iteration stands for one tick. */
  const TimeBetweenBeats: nat := 250

  /** A beat index the matrix holds a set for. */
  predicate IsBeat(b: int)
  {
    0 <= b < BeatsInMeasure
  }
}
