/**
  The preventive-maintenance cycle engine: which step of the 2000-hour, eight-step
  cycle a raw hour-meter reading calls for, how a completed PM advances the cycle,
  and how an elapsed time in milliseconds is rendered for the usage history.
 */
module PmCycle {
  import opened Records
  import opened Constants
  import Js

  const CycleHours: int := 2000
  const StepHours: int := 250
  /** A milestone counts as reached this many hours before it. */
  const Tolerance: int := 25

  /** The cumulative hours of the eight steps of one cycle. */
  const Milestones: seq<int> := [250, 500, 750, 1000, 1250, 1500, 1750, 2000]

  lemma MilestonesAreSteps()
    ensures |Milestones| == |PmSequence|
    ensures forall i :: 0 <= i < |Milestones| ==> Milestones[i] == StepHours * (i + 1)
    ensures Milestones[|Milestones| - 1] == CycleHours
  {
  }

  /** The reading within the current cycle, with JavaScript's `%` (negative for a negative reading). */
  function RelativeHm(currentHm: int): (r: int)
    ensures currentHm >= 0 ==> 0 <= r < CycleHours
    ensures currentHm < 0 ==> r <= 0
    ensures currentHm >= 0 ==> r == currentHm % CycleHours
    ensures (currentHm - r) % CycleHours == 0
  {
    Js.Rem(currentHm, CycleHours)
  }

  /** Milestone i (0-based) is counted as done once the relative reading is within the tolerance of it. */
  predicate Reached(relativeHm: int, i: int)
  {
    relativeHm >= StepHours * (i + 1) - Tolerance
  }

  /**
    The recommended step in closed form: the number of milestones reached, wrapped
    back to the first step once all eight are.
   */
  function RecommendedIndex(currentHm: int): (r: int)
    ensures 0 <= r < |PmSequence|
  {
    var rel := RelativeHm(currentHm);
    if rel < 0 then 0 else ((rel + Tolerance) / StepHours) % 8
  }

  /**
    The scan over the milestones: the loop stops at the first milestone not reached
    and recommends it; past the last one it wraps to step 0.
   */
  method GetRecommendedSequenceIndex(currentHm: int) returns (r: int)
    ensures r == RecommendedIndex(currentHm)
  {
    MilestonesAreSteps();
    var relativeHm := Js.Rem(currentHm, CycleHours);
    var nextIndex := 0;
    var i := 0;
    while i < |Milestones|
      invariant 0 <= i <= |Milestones|
      invariant nextIndex == i
      invariant forall j :: 0 <= j < i ==> Reached(relativeHm, j)
    {
      var threshold := Milestones[i] - Tolerance;
      if relativeHm >= threshold {
        nextIndex := i + 1;
      } else {
        nextIndex := i;
        break;
      }
      i := i + 1;
    }
    if 0 < nextIndex {
      assert Reached(relativeHm, nextIndex - 1);
    }
    r := nextIndex % 8;
  }

  /**
    The recommendation is the first milestone of the cycle not yet reached, every
    earlier one being reached; it is step 0 when all are reached (from 1975 h into
    the cycle on), and step 0 for a negative reading.
   */
  lemma RecommendedIsFirstUnreached(currentHm: int)
    ensures var rel := RelativeHm(currentHm);
      var r := RecommendedIndex(currentHm);
      (rel >= CycleHours - Tolerance ==> r == 0)
      && (rel < CycleHours - Tolerance ==>
            !Reached(rel, r) && forall j :: 0 <= j < r ==> Reached(rel, j))
    ensures currentHm < 0 ==> RecommendedIndex(currentHm) == 0
  {
    var rel := RelativeHm(currentHm);
    if rel >= 0 {
      var k := (rel + Tolerance) / StepHours;
      assert StepHours * k <= rel + Tolerance < StepHours * (k + 1);
    }
  }

  /** Only the reading modulo 2000 matters: a reading a whole number of cycles later gets the same step. */
  lemma {:induction false} RecommendedPeriodic(currentHm: int, cycles: nat)
    requires currentHm >= 0
    ensures RecommendedIndex(currentHm + CycleHours * cycles) == RecommendedIndex(currentHm)
  {
    if cycles > 0 {
      RecommendedPeriodic(currentHm, cycles - 1);
      var prev := currentHm + CycleHours * (cycles - 1);
      assert currentHm + CycleHours * cycles == prev + CycleHours;
      RelativeOneCycleLater(prev);
    }
  }

  lemma RelativeOneCycleLater(currentHm: int)
    requires currentHm >= 0
    ensures RelativeHm(currentHm + CycleHours) == RelativeHm(currentHm)
  {
    assert (currentHm + 2000) % 2000 == currentHm % 2000;
  }

  /** The worked examples beside the scan: 230 h calls for step 1, 210 h for step 0; 225 h is the first reading counted for the 250 h milestone. */
  lemma RecommendedExamples()
    ensures RecommendedIndex(230) == 1
    ensures RecommendedIndex(210) == 0
    ensures RecommendedIndex(224) == 0
    ensures RecommendedIndex(225) == 1
    ensures RecommendedIndex(0) == 0
    ensures RecommendedIndex(1975) == 0
    ensures RecommendedIndex(1974) == 7
  {
  }

  /** The fields a completed PM writes on its machine. */
  datatype PmStep = PmStep(nextPmType: PmType, nextPmDueHm: int, nextSequenceIndex: int)

  /** The step after index `currentSequenceIndex`, due 250 h after the reading the PM was done at. */
  function NextPmStep(currentHmDone: int, currentSequenceIndex: int): (r: PmStep)
    requires 0 <= currentSequenceIndex
    ensures 0 <= r.nextSequenceIndex < |PmSequence|
    ensures currentSequenceIndex < 7 ==> r.nextSequenceIndex == currentSequenceIndex + 1
    ensures currentSequenceIndex == 7 ==> r.nextSequenceIndex == 0
    ensures r.nextPmType == PmSequence[r.nextSequenceIndex]
    ensures r.nextPmDueHm == currentHmDone + StepHours
  {
    var nextSequenceIndex := (currentSequenceIndex + 1) % 8;
    PmStep(PmSequence[nextSequenceIndex], currentHmDone + StepHours, nextSequenceIndex)
  }

  /** The index reached from `i` after PMs completed at the readings `readings`, in order. */
  function AdvanceIndex(i: int, readings: seq<int>): (r: int)
    requires 0 <= i < 8
    ensures 0 <= r < 8
    decreases |readings|
  {
    if readings == [] then i else AdvanceIndex(NextPmStep(readings[0], i).nextSequenceIndex, readings[1..])
  }

  /** Each completed PM moves the cycle on by exactly one step, whatever the readings. */
  lemma {:induction false} AdvanceIndexShifts(i: int, readings: seq<int>)
    requires 0 <= i < 8
    ensures AdvanceIndex(i, readings) == (i + |readings|) % 8
    decreases |readings|
  {
    if readings != [] {
      var j := NextPmStep(readings[0], i).nextSequenceIndex;
      AdvanceIndexShifts(j, readings[1..]);
      assert j == (i + 1) % 8;
    }
  }

  /** Eight completed PMs bring the cycle back to the step it started from. */
  lemma FullCycleReturns(i: int, readings: seq<int>)
    requires 0 <= i < 8
    requires |readings| == |PmSequence|
    ensures AdvanceIndex(i, readings) == i
  {
    AdvanceIndexShifts(i, readings);
  }

  /**
    Completing step i around its own milestone agrees with the recommendation: when
    the reading falls between the tolerance point of milestone i and that of the
    next one, the recommended step for it is the step the cycle advanced to.
   */
  lemma AdvanceMatchesRecommendation(currentHmDone: int, i: int)
    requires 0 <= currentHmDone && 0 <= i < 8
    requires Reached(RelativeHm(currentHmDone), i) && !Reached(RelativeHm(currentHmDone), i + 1)
    ensures RecommendedIndex(currentHmDone) == NextPmStep(currentHmDone, i).nextSequenceIndex
  {
    var rel := RelativeHm(currentHmDone);
    assert StepHours * (i + 1) <= rel + Tolerance < StepHours * (i + 2);
    assert (rel + Tolerance) / StepHours == i + 1;
  }

  /** The elapsed time of a job, as the usage history shows it: "M min" under an hour, "Hh Mm" from one hour on. */
  function FormatDuration(ms: int): (r: string)
    ensures ms < 3600000 ==> r == Js.IntToString(ms / 60000) + " min"
    ensures ms >= 3600000 ==> r == Js.NatToString(ms / 3600000) + "h " + Js.NatToString(ms / 60000 % 60) + "m"
  {
    var minutes := ms / 60000;  // Math.floor: Dafny's division rounds down for a positive divisor
    var hours := minutes / 60;
    var remainingMinutes := Js.Rem(minutes, 60);
    if hours > 0 then Js.IntToString(hours) + "h " + Js.IntToString(remainingMinutes) + "m"
    else Js.IntToString(minutes) + " min"
  }

  /** A non-negative time of m whole minutes (and under an hour) is rendered "m min". */
  lemma FormatDurationMinutes(ms: int, m: int)
    requires 0 <= m < 60
    requires 60000 * m <= ms < 60000 * (m + 1)
    ensures FormatDuration(ms) == Js.NatToString(m) + " min"
  {
    assert ms / 60000 == m;
  }

  /** A time of h hours and m minutes, h at least one, is rendered "hh mm". */
  lemma FormatDurationHours(ms: int, h: int, m: int)
    requires h >= 1 && 0 <= m < 60
    requires 60000 * (60 * h + m) <= ms < 60000 * (60 * h + m + 1)
    ensures FormatDuration(ms) == Js.NatToString(h) + "h " + Js.NatToString(m) + "m"
  {
    var minutes := 60 * h + m;
    assert ms / 60000 == minutes;
    assert minutes / 60 == h;
    assert minutes % 60 == m;
  }

  /** A negative time (a clock that went back) is rendered as a negative number of minutes. */
  lemma FormatDurationNegative(ms: int)
    requires ms < 0
    ensures FormatDuration(ms) == "-" + Js.NatToString(-(ms / 60000)) + " min"
  {
  }

  /** A machine's stored cycle fields agree with each other: its index, when present, names its next PM type. */
  predicate CycleConsistent(m: Machine)
  {
    m.seqIndex.Some? ==> 0 <= m.seqIndex.value < |PmSequence| && m.nextPmType == PmSequence[m.seqIndex.value]
  }
}
