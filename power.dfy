/** The sleep button of power.cpp.

    `powerUpdate` is polled from the main loop with the button's level
    (HIGH when released, the pin has a pull-up). Holding the button LOW for
    BUTTON_LONG_PRESS_MS enters light sleep; a press wakes the device and
    `powerEnterLightSleep` returns once the button is released again.
    Entering sleep is one event here: what it does to the other components
    (stopping the workout, the display, the IMU, the sounds) is not part
    of this module, only what it leaves in power.cpp's own statics. */
module Power {

  import opened Config

  /** The statics of power.cpp: lastButtonState (true for HIGH),
      buttonPressStart, longPressHandled and justWokeFromSleep. */
  datatype Button = Button(lastHigh: bool, pressStart: Millis, handled: bool, justWoke: bool)

  /** The button state after one poll, and whether that poll slept. */
  datatype PollResult = PollResult(next: Button, slept: bool)

  /** The state at boot. */
  const Boot: Button := Button(true, 0, false, false)

  /** A HIGH to LOW edge. */
  predicate PressBegins(s: Button, high: bool)
  {
    !high && s.lastHigh
  }

  /** buttonPressStart once the edge check has run. */
  function PressStartAfter(s: Button, high: bool, now: Millis): Millis
  {
    if PressBegins(s, high) then now else s.pressStart
  }

  /** longPressHandled once the edge check has run. */
  predicate HandledAfterEdge(s: Button, high: bool)
  {
    !PressBegins(s, high) && s.handled
  }

  /** The long press is due: the button is down, this press has not slept
      yet, and it has been down for at least `longPressMs`. */
  predicate SleepDue(s: Button, high: bool, now: Millis, longPressMs: nat)
  {
    && !high
    && !HandledAfterEdge(s, high)
    && Since(now, PressStartAfter(s, high, now)) >= longPressMs
  }

  /** What `powerEnterLightSleep` leaves in these statics when it returns:
      the wake flag set, and the button taken as released and unhandled. */
  function Woken(b: Button): (w: Button)
    ensures w.lastHigh && !w.handled && w.justWoke && w.pressStart == b.pressStart
  {
    b.(lastHigh := true, handled := false, justWoke := true)
  }

  /** `powerUpdate` as written: after a sleep the final assignment of
      lastButtonState stores the LOW read before sleeping, over the HIGH
      that `powerEnterLightSleep` wrote. */
  function PollAsWritten(s: Button, high: bool, now: Millis, longPressMs: nat): (r: PollResult)
    ensures r.slept == Poll(s, high, now, longPressMs).slept
    // the only difference from the corrected poll: the level stored at the end
    ensures r.next == Poll(s, high, now, longPressMs).next.(lastHigh := high)
    ensures r.slept ==> !r.next.lastHigh && !r.next.handled
  {
    var start := PressStartAfter(s, high, now);
    if SleepDue(s, high, now, longPressMs) then
      var asleep := Woken(Button(s.lastHigh, start, true, s.justWoke));
      PollResult(asleep.(lastHigh := high), true)
    else
      PollResult(Button(high, start, HandledAfterEdge(s, high), s.justWoke), false)
  }

  /** `powerUpdate` with the button state reset by the wake left in place,
      as the comment at power.cpp:127 intends. */
  function Poll(s: Button, high: bool, now: Millis, longPressMs: nat): (r: PollResult)
    ensures r.slept <==> SleepDue(s, high, now, longPressMs)
    // a released button changes nothing but the stored level
    ensures high ==> !r.slept && r.next == s.(lastHigh := true)
    // a press begins: its start time is recorded and it is not yet handled
    ensures PressBegins(s, high) && longPressMs > 0 ==>
      !r.slept && r.next == s.(lastHigh := false, pressStart := now, handled := false)
    // a held press that is not yet due changes nothing
    ensures !high && !s.lastHigh && !r.slept ==> r.next == s
    // the guard at power.cpp:43; no state reached from boot has `handled` set (HandledNeverSet)
    ensures !high && !s.lastHigh && s.handled ==> r == PollResult(s, false)
    // only a sleep sets the flag, and the wake clears it again
    ensures !s.handled ==> !r.next.handled
    // a sleep leaves the button released, unhandled and the wake flag set
    ensures r.slept ==> r.next == Woken(s.(pressStart := PressStartAfter(s, high, now)))
    ensures !r.slept ==> r.next.lastHigh == high && r.next.justWoke == s.justWoke
  {
    var start := PressStartAfter(s, high, now);
    if SleepDue(s, high, now, longPressMs) then
      PollResult(Woken(Button(s.lastHigh, start, true, s.justWoke)), true)
    else
      PollResult(Button(high, start, HandledAfterEdge(s, high), s.justWoke), false)
  }

  /** The reset after waking prevents retriggering: the poll right after a
      sleep never sleeps again, whatever it reads and whenever it runs. */
  lemma NoSleepRightAfterWaking(s: Button, high: bool, now: Millis, high2: bool, now2: Millis, longPressMs: nat)
    requires longPressMs > 0
    requires Poll(s, high, now, longPressMs).slept
    ensures !Poll(Poll(s, high, now, longPressMs).next, high2, now2, longPressMs).slept
  {
  }

  /** As written, a LOW read by the poll right after a sleep is not a new
      press: the stale press start is still in place, so the device goes
      back to sleep at once if that press began long enough ago. */
  lemma AsWrittenResleepsAfterWaking(s: Button, now: Millis, now2: Millis, longPressMs: nat)
    requires PollAsWritten(s, false, now, longPressMs).slept
    requires Since(now2, PressStartAfter(s, false, now)) >= longPressMs
    ensures PollAsWritten(PollAsWritten(s, false, now, longPressMs).next, false, now2, longPressMs).slept
  {
  }

  /** A press from boot at 0 ms sleeps at 2000 ms; a press caught by the
      next poll at 5000 ms sleeps again at once as written, but starts a
      fresh press with the wake's reset kept. */
  lemma AsWrittenCounterexample()
    ensures var r1 := PollAsWritten(Boot, false, 0, 2000);
      var r2 := PollAsWritten(r1.next, false, 2000, 2000);
      var r3 := PollAsWritten(r2.next, false, 5000, 2000);
      !r1.slept && r2.slept && r3.slept
    ensures var r1 := Poll(Boot, false, 0, 2000);
      var r2 := Poll(r1.next, false, 2000, 2000);
      var r3 := Poll(r2.next, false, 5000, 2000);
      !r1.slept && r2.slept && !r3.slept && r3.next.pressStart == 5000
  {
  }

  // ---- sequences of polls ----

  datatype Reading = Reading(high: bool, at: Millis)

  /** How many of the polls `rs` enter sleep. */
  function Sleeps(s: Button, rs: seq<Reading>, longPressMs: nat): nat
    decreases |rs|
  {
    if rs == [] then 0
    else
      var r := Poll(s, rs[0].high, rs[0].at, longPressMs);
      (if r.slept then 1 else 0) + Sleeps(r.next, rs[1..], longPressMs)
  }

  /** No two polls in a row enter sleep, so at most every other one does. */
  lemma {:induction false} AtMostEveryOtherPollSleeps(s: Button, rs: seq<Reading>, longPressMs: nat)
    requires longPressMs > 0
    ensures 2 * Sleeps(s, rs, longPressMs) <= |rs| + (if s.lastHigh then 0 else 1)
    decreases |rs|
  {
    if rs != [] {
      AtMostEveryOtherPollSleeps(Poll(s, rs[0].high, rs[0].at, longPressMs).next, rs[1..], longPressMs);
    }
  }

  /** The state after the polls `rs`, with the corrected poll and as written. */
  function After(s: Button, rs: seq<Reading>, longPressMs: nat): Button
    decreases |rs|
  {
    if rs == [] then s
    else After(Poll(s, rs[0].high, rs[0].at, longPressMs).next, rs[1..], longPressMs)
  }

  function AfterAsWritten(s: Button, rs: seq<Reading>, longPressMs: nat): Button
    decreases |rs|
  {
    if rs == [] then s
    else AfterAsWritten(PollAsWritten(s, rs[0].high, rs[0].at, longPressMs).next, rs[1..], longPressMs)
  }

  /** `longPressHandled` is set only just before `powerEnterLightSleep`,
      which clears it again, so no state reached from boot has it set, and
      the test of it at power.cpp:43 never fails. */
  lemma {:induction false} HandledNeverSet(s: Button, rs: seq<Reading>, longPressMs: nat)
    requires !s.handled
    ensures !After(s, rs, longPressMs).handled
    ensures !AfterAsWritten(s, rs, longPressMs).handled
    decreases |rs|
  {
    if rs != [] {
      HandledNeverSet(Poll(s, rs[0].high, rs[0].at, longPressMs).next, rs[1..], longPressMs);
      HandledNeverSet(PollAsWritten(s, rs[0].high, rs[0].at, longPressMs).next, rs[1..], longPressMs);
    }
  }

  /** The index of the first poll in `rs` that sleeps, or |rs| when none does. */
  function FirstSleep(s: Button, rs: seq<Reading>, longPressMs: nat): (j: nat)
    ensures j <= |rs|
    decreases |rs|
  {
    if rs == [] then 0
    else
      var r := Poll(s, rs[0].high, rs[0].at, longPressMs);
      if r.slept then 0 else 1 + FirstSleep(r.next, rs[1..], longPressMs)
  }

  /** The button read LOW at every poll from i to j, and poll j came at
      least `longPressMs` after poll i. */
  predicate HeldFor(rs: seq<Reading>, i: int, j: int, longPressMs: nat)
  {
    && 0 <= i <= j < |rs|
    && (forall k :: i <= k <= j ==> !rs[k].high)
    && Since(rs[j].at, rs[i].at) >= longPressMs
  }

  /** Poll i of `rs` saw a HIGH to LOW edge: the level before it was HIGH. */
  predicate EdgeBefore(s: Button, rs: seq<Reading>, i: int)
  {
    (i == 0 && s.lastHigh) || (0 < i <= |rs| && rs[i - 1].high)
  }

  /** The first sleep of a run either ends the press already under way
      when the run began, or a hold that began with an edge inside it. */
  lemma {:induction false} FirstSleepEndsAHold(s: Button, rs: seq<Reading>, longPressMs: nat)
    requires longPressMs > 0 && !s.handled
    requires FirstSleep(s, rs, longPressMs) < |rs|
    ensures var j := FirstSleep(s, rs, longPressMs);
      || (&& !s.lastHigh
          && (forall k :: 0 <= k <= j ==> !rs[k].high)
          && Since(rs[j].at, s.pressStart) >= longPressMs)
      || (exists i :: HeldFor(rs, i, j, longPressMs) && EdgeBefore(s, rs, i))
    decreases |rs|
  {
    var j := FirstSleep(s, rs, longPressMs);
    var r := Poll(s, rs[0].high, rs[0].at, longPressMs);
    if r.slept {
      assert j == 0;
      assert Since(rs[0].at, rs[0].at) == 0;
    } else {
      var rest := rs[1..];
      var j' := FirstSleep(r.next, rest, longPressMs);
      assert j == j' + 1;
      FirstSleepEndsAHold(r.next, rest, longPressMs);
      if exists i' :: HeldFor(rest, i', j', longPressMs) && EdgeBefore(r.next, rest, i') {
        var i' :| HeldFor(rest, i', j', longPressMs) && EdgeBefore(r.next, rest, i');
        assert rest[j'] == rs[j] && rest[i'] == rs[i' + 1];
        assert forall k :: i' + 1 <= k <= j ==> rs[k] == rest[k - 1];
        assert HeldFor(rs, i' + 1, j, longPressMs);
        assert EdgeBefore(s, rs, i' + 1);
      } else {
        assert !r.next.lastHigh && !rs[0].high;
        assert rest[j'] == rs[j];
        assert forall k :: 1 <= k <= j ==> rs[k] == rest[k - 1];
        if s.lastHigh {
          assert r.next.pressStart == rs[0].at;
          assert HeldFor(rs, 0, j, longPressMs);
        } else {
          assert r.next.pressStart == s.pressStart;
        }
      }
    }
  }

  /** From boot, or from the state a sleep leaves (both have the button
      released and unhandled), the corrected poll sleeps only at the end of
      a new press: a HIGH to LOW edge, then LOW at every poll for at least
      `longPressMs`. */
  lemma EverySleepNeedsAFreshPress(s: Button, rs: seq<Reading>, longPressMs: nat)
    requires longPressMs > 0 && s.lastHigh && !s.handled
    requires FirstSleep(s, rs, longPressMs) < |rs|
    ensures exists i :: HeldFor(rs, i, FirstSleep(s, rs, longPressMs), longPressMs) && EdgeBefore(s, rs, i)
  {
    FirstSleepEndsAHold(s, rs, longPressMs);
  }

  /** The statics of power.cpp, with the press threshold
      BUTTON_LONG_PRESS_MS, which config.h does not define, as a parameter. */
  class SleepButton {
    var lastButtonState: bool
    var buttonPressStart: Millis
    var longPressHandled: bool
    var justWokeFromSleep: bool
    const longPressMs: nat

    function Snapshot(): Button
      reads this
    {
      Button(lastButtonState, buttonPressStart, longPressHandled, justWokeFromSleep)
    }

    constructor (longPress: nat)
      ensures Snapshot() == Boot && longPressMs == longPress
    {
      lastButtonState := true;
      buttonPressStart := 0;
      longPressHandled := false;
      justWokeFromSleep := false;
      longPressMs := longPress;
    }

    /** `powerInit`: `wokeByButton` is whether the wake-up cause is the GPIO. */
    method Init(wokeByButton: bool)
      modifies this`justWokeFromSleep
      ensures justWokeFromSleep == (old(justWokeFromSleep) || wokeByButton)
    {
      if wokeByButton {
        justWokeFromSleep := true;
      }
    }

    /** `powerUpdate` reading level `high` at `now`, with the correction:
        a poll that slept keeps the state the wake left. */
    method Update(high: bool, now: Millis) returns (slept: bool)
      modifies this
      ensures PollResult(Snapshot(), slept) == Poll(old(Snapshot()), high, now, longPressMs)
    {
      if !high && lastButtonState {
        buttonPressStart := now;
        longPressHandled := false;
      }
      if !high && !longPressHandled {
        if Since(now, buttonPressStart) >= longPressMs {
          longPressHandled := true;
          EnterLightSleep();
          return true;
        }
      }
      lastButtonState := high;
      return false;
    }

    /** The part of `powerEnterLightSleep` that touches these statics. */
    method EnterLightSleep()
      modifies this
      ensures Snapshot() == Woken(old(Snapshot()))
    {
      justWokeFromSleep := true;
      lastButtonState := true;
      longPressHandled := false;
    }

    method JustWoke() returns (woke: bool)
      ensures woke == justWokeFromSleep
    {
      woke := justWokeFromSleep;
    }

    method ClearWokeFlag()
      modifies this`justWokeFromSleep
      ensures !justWokeFromSleep
    {
      justWokeFromSleep := false;
    }
  }

}
