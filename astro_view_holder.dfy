/** The sun-and-moon card of the main screen
    (app/.../main/adapters/main/holder/AstroViewHolder.kt): the time slots
    its path animations run over, their durations, and the release of its
    animators. Slot 0 is the sun, slot 1 the moon. The clock and the moon
    illumination library are parameters; `Long` overflow is not modelled. */
module AstroViewHolders {
  import opened Wrappers
  import opened Numeric
  import opened Locations

  /** An Android `AnimatorSet`, reduced to whether it is running. */
  class AnimatorSet {
    var isRunning: bool

    constructor(running: bool)
      ensures isRunning == running
    {
      isRunning := running;
    }

    /** `cancel()`: stops the animation. */
    method Cancel()
      modifies this
      ensures !isRunning
    {
      isRunning := false;
    }
  }

  /** The interval `ensureTime` first picks for a body described by
      `astro` at `now`: the previous day's interval while it is still
      running, today's otherwise, and (now+1, now+1) when today's rise or
      set time is missing. */
  function ChosenTimes(astro: Option<Astro>, now: int): (int, int) {
    if astro.Some? && astro.value.riseDate.Some? && astro.value.setDate.Some? then
      var a := astro.value;
      if a.riseDatePre.Some? && a.setDatePre.Some? && now < a.setDatePre.value then
        (a.riseDatePre.value, a.setDatePre.value)
      else
        (a.riseDate.value, a.setDate.value)
    else
      (now + 1, now + 1)
  }

  /** The (start, end) of one slot once an interval that has already ended
      is replaced by (now+1, now+1). */
  function SlotTimes(astro: Option<Astro>, now: int): (int, int) {
    var chosen := ChosenTimes(astro, now);
    if now > chosen.1 then (now + 1, now + 1) else chosen
  }

  /** A slot never ends before `now`. */
  lemma SlotEndsAfterNow(astro: Option<Astro>, now: int)
    ensures SlotTimes(astro, now).1 >= now
  {
  }

  /** Without today's rise and set the slot is the empty interval right
      after `now`. */
  lemma SlotWithoutTimes(astro: Option<Astro>, now: int)
    requires astro.None? || astro.value.riseDate.None? || astro.value.setDate.None?
    ensures SlotTimes(astro, now) == (now + 1, now + 1)
  {
  }

  /** With today's times present, the previous day's interval is used
      exactly when both of its times are known and it has not yet ended;
      otherwise today's interval is used unless it has already ended. */
  lemma SlotChoice(a: Astro, now: int)
    requires a.riseDate.Some? && a.setDate.Some?
    ensures a.riseDatePre.Some? && a.setDatePre.Some? && now < a.setDatePre.value ==>
      SlotTimes(Some(a), now) == (a.riseDatePre.value, a.setDatePre.value)
    ensures !(a.riseDatePre.Some? && a.setDatePre.Some? && now < a.setDatePre.value) && now <= a.setDate.value ==>
      SlotTimes(Some(a), now) == (a.riseDate.value, a.setDate.value)
    ensures !(a.riseDatePre.Some? && a.setDatePre.Some? && now < a.setDatePre.value) && now > a.setDate.value ==>
      SlotTimes(Some(a), now) == (now + 1, now + 1)
  {
  }

  /** `getPathAnimatorDuration`: 1000 ms plus 3000 ms times the elapsed
      fraction of the slot, floored at 0 and capped at 4000. An empty slot
      divides by zero: a positive numerator gives +infinity (capped to
      4000), a negative one -infinity (floored to 0), and zero over zero
      NaN, which `max` propagates and `toLong` turns into 0. */
  function PathDuration(current: int, start: int, end: int): (r: int)
    ensures 0 <= r <= 4000
  {
    if end == start then
      if current > start then 4000 else 0
    else
      var d := 1000.0 + 3000.0 * (current - start) as real / (end - start) as real;
      var clamped := if d > 0.0 then d else 0.0;
      var t := TruncateNonNegative(clamped);
      if t < 4000 then t else 4000
  }

  lemma FractionBounds(x: real, w: real)
    requires 0.0 <= x <= w && w > 0.0
    ensures 0.0 <= 3000.0 * x / w <= 3000.0
  {
    assert 3000.0 * x <= 3000.0 * w;
  }

  /** Inside a non-empty slot the duration grows with the elapsed part:
      1000 ms at the start, 4000 ms at the end, and in between. */
  lemma PathDurationWithinSlot(current: int, start: int, end: int)
    requires start < end && start <= current <= end
    ensures 1000 <= PathDuration(current, start, end) <= 4000
    ensures current == start ==> PathDuration(current, start, end) == 1000
    ensures current == end ==> PathDuration(current, start, end) == 4000
  {
    FractionBounds((current - start) as real, (end - start) as real);
    if current == end {
      assert 3000.0 * (current - start) as real / (end - start) as real == 3000.0;
    }
  }

  /** `phaseAnimatorDuration`: 1000 ms plus 1000 ms per full turn of the
      phase angle, floored at 0 and capped at 2000. */
  function PhaseDuration(phaseAngle: real): (r: int)
    ensures 0 <= r <= 2000
  {
    var d := phaseAngle / 360.0 * 1000.0 + 1000.0;
    var t := TruncateNonNegative(if d > 0.0 then d else 0.0);
    if t < 2000 then t else 2000
  }

  /** For an angle of a phase plus 180 degrees, that is in [0, 360], the
      duration lies in [1000, 2000]. */
  lemma PhaseDurationOfPhase(phaseAngle: real)
    requires 0.0 <= phaseAngle <= 360.0
    ensures 1000 <= PhaseDuration(phaseAngle) <= 2000
  {
  }

  /** The branches `ensureTime` runs for one body, before clamping. */
  method PickTimes(astro: Option<Astro>, now: int) returns (start: int, end: int)
    ensures (start, end) == ChosenTimes(astro, now)
  {
    if astro.Some? && astro.value.riseDate.Some? && astro.value.setDate.Some? {
      var a := astro.value;
      if a.riseDatePre.Some? && a.setDatePre.Some? && now < a.setDatePre.value {
        start, end := a.riseDatePre.value, a.setDatePre.value;
      } else {
        start, end := a.riseDate.value, a.setDate.value;
      }
    } else {
      start, end := now + 1, now + 1;
    }
  }

  class AstroViewHolder {
    var startTimes: array<int>
    var endTimes: array<int>
    var currentTimes: array<int>
    var animCurrentTimes: array<int>
    var phaseAngle: real
    const attachAnimatorSets: array<Option<AnimatorSet>>

    /** Two slots per time array, three animator slots. */
    ghost predicate Valid()
      reads this
    {
      startTimes.Length == 2 && endTimes.Length == 2 && currentTimes.Length == 2
      && animCurrentTimes.Length == 2 && attachAnimatorSets.Length == 3
    }

    constructor()
      ensures Valid()
      ensures startTimes[..] == endTimes[..] == currentTimes[..] == animCurrentTimes[..] == [0, 0]
      ensures phaseAngle == 0.0
      ensures attachAnimatorSets[..] == [None, None, None]
    {
      startTimes := new int[2](_ => 0);
      endTimes := new int[2](_ => 0);
      currentTimes := new int[2](_ => 0);
      animCurrentTimes := new int[2](_ => 0);
      phaseAngle := 0.0;
      attachAnimatorSets := new Option<AnimatorSet>[3](_ => None);
    }

    /** `ensureTime`: fresh arrays with both current times at `now`, each
      slot's interval as `SlotTimes` gives it, and the animated current
      times a separate copy of the current times. */
    method EnsureTime(sun: Option<Astro>, moon: Option<Astro>, now: int)
      requires Valid()
      modifies this
      ensures Valid()
      ensures fresh(startTimes) && fresh(endTimes) && fresh(currentTimes) && fresh(animCurrentTimes)
      ensures currentTimes[..] == [now, now]
      ensures animCurrentTimes[..] == currentTimes[..] && animCurrentTimes != currentTimes
      ensures (startTimes[0], endTimes[0]) == SlotTimes(sun, now)
      ensures (startTimes[1], endTimes[1]) == SlotTimes(moon, now)
      ensures currentTimes[0] <= endTimes[0] && currentTimes[1] <= endTimes[1]
      ensures phaseAngle == old(phaseAngle)
    {
      var sunStart, sunEnd := PickTimes(sun, now);
      var moonStart, moonEnd := PickTimes(moon, now);
      // an interval that has already ended is replaced by an empty one
      if now > sunEnd {
        sunStart, sunEnd := now + 1, now + 1;
      }
      if now > moonEnd {
        moonStart, moonEnd := now + 1, now + 1;
      }
      startTimes := new int[] [sunStart, moonStart];
      endTimes := new int[] [sunEnd, moonEnd];
      currentTimes := new int[] [now, now];
      animCurrentTimes := new int[] [now, now];
    }

    /** `ensurePhaseAngle`, with the illumination phase (in degrees, from
      -180 to 180) as a parameter. */
    method EnsurePhaseAngle(phase: real)
      modifies this
      ensures phaseAngle == phase + 180.0
      ensures startTimes == old(startTimes) && endTimes == old(endTimes)
      ensures currentTimes == old(currentTimes) && animCurrentTimes == old(animCurrentTimes)
    {
      phaseAngle := phase + 180.0;
    }

    /** The path animation duration of a slot. */
    function PathAnimatorDuration(index: int): (r: int)
      requires Valid() && 0 <= index < 2
      reads this, currentTimes, startTimes, endTimes
      ensures 0 <= r <= 4000
    {
      PathDuration(currentTimes[index], startTimes[index], endTimes[index])
    }

    /** The phase animation duration. */
    function PhaseAnimatorDuration(): (r: int)
      reads this
      ensures 0 <= r <= 2000
    {
      PhaseDuration(phaseAngle)
    }

    /** `onRecycleView`: every running animator is cancelled and every slot
      is emptied. */
    method OnRecycleView()
      requires Valid()
      modifies attachAnimatorSets
      modifies set i | 0 <= i < attachAnimatorSets.Length && attachAnimatorSets[i].Some? :: attachAnimatorSets[i].value
      ensures Valid()
      ensures forall i :: 0 <= i < attachAnimatorSets.Length ==> attachAnimatorSets[i].None?
      ensures forall i :: 0 <= i < attachAnimatorSets.Length && old(attachAnimatorSets[i]).Some? ==>
        !old(attachAnimatorSets[i]).value.isRunning
    {
      var n := attachAnimatorSets.Length;
      for i := 0 to n
        invariant forall j :: 0 <= j < i ==> attachAnimatorSets[j].None?
        invariant forall j :: i <= j < n ==> attachAnimatorSets[j] == old(attachAnimatorSets[j])
        invariant forall j :: 0 <= j < i && old(attachAnimatorSets[j]).Some? ==> !old(attachAnimatorSets[j]).value.isRunning
      {
        var slot := attachAnimatorSets[i];
        if slot.Some? {
          if slot.value.isRunning {
            slot.value.Cancel();
          }
        }
        attachAnimatorSets[i] := None;
      }
    }
  }
}
