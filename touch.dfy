/** The touch gesture recogniser of touch.cpp.

    `touchUpdate` is polled from the main loop. Each poll reads the
    controller's registers (the poll's outcome is an input here: `None`
    when the I2C transfer failed) and turns the sequence of touched and
    untouched polls into taps, swipes and long presses. */
module Touch {

  import opened Config
  import opened Wrappers

  datatype TouchEvent = TouchNone | TouchTap | TouchSwipeUp | TouchSwipeDown | TouchLongPress

  /** The five registers `cst816ReadTouch` uses after the gesture byte. */
  datatype RawTouch = RawTouch(points: bv8, xHigh: bv8, xLow: bv8, yHigh: bv8, yLow: bv8)

  datatype Point = Point(x: int, y: int)

  /** A 12-bit coordinate: the low nibble of the high register (its upper
      bits carry the event or the touch id) above the low register. */
  function DecodeCoordinate(high: bv8, low: bv8): (c: nat)
    ensures c < 4096
    ensures c / 256 == high as int % 16 && c % 256 == low as int
  {
    var hi := (high & 0x0F) as bv16;
    NibbleValue(high);
    WidenByte(low);
    ShiftOrValue(hi, low as bv16);
    ((hi << 8) | (low as bv16)) as int
  }

  lemma NibbleValue(b: bv8)
    ensures (b & 0x0F) as bv16 as int == b as int % 16 && (b & 0x0F) as bv16 < 16
  {
  }

  lemma WidenByte(b: bv8)
    ensures b as bv16 as int == b as int && b as bv16 < 256
  {
  }

  lemma ShiftOrValue(hi: bv16, lo: bv16)
    requires hi < 16 && lo < 256
    ensures ((hi << 8) | lo) as int == hi as int * 256 + lo as int
    ensures hi as int < 16 && lo as int < 256
  {
  }

  function Position(raw: RawTouch): (p: Point)
    ensures 0 <= p.x < 4096 && 0 <= p.y < 4096
  {
    Point(DecodeCoordinate(raw.xHigh, raw.xLow), DecodeCoordinate(raw.yHigh, raw.yLow))
  }

  /** A finger is on the panel: the read succeeded and reported a point. */
  predicate Touched(read: Option<RawTouch>)
  {
    read.Some? && read.value.points != 0
  }

  /** The statics of touch.cpp. */
  datatype Panel = Panel(
    lastTouchState: bool,
    touchStartTime: Millis,
    lastButtonPress: Millis,
    longPressHandled: bool,
    lastX: int,
    lastY: int,
    touchStartX: int,
    touchStartY: int)

  /** What one poll produces: the new state, the event and the coordinates
      written to the caller's `x`, `y` (None when they are left alone). */
  datatype Update = Update(next: Panel, event: TouchEvent, report: Option<Point>)

  /** The finger has just lifted from a touch that did not end in a long press. */
  predicate Released(s: Panel, read: Option<RawTouch>)
  {
    !Touched(read) && s.lastTouchState && !s.longPressHandled
  }

  predicate SwipesUp(s: Panel)
  {
    s.touchStartY > LcdHeight - SwipeBottomZone && s.touchStartY - s.lastY > SwipeMinDistance
  }

  predicate SwipesDown(s: Panel)
  {
    s.touchStartY < SwipeTopZone && s.touchStartY - s.lastY < -SwipeMinDistance
  }

  /** `touchUpdate` at time `now`, given the outcome of its register read. */
  function Step(s: Panel, read: Option<RawTouch>, now: Millis): (u: Update)
    // the touch state always follows the poll
    ensures u.next.lastTouchState == Touched(read)
    // every touched poll reports its position and remembers it
    ensures Touched(read) ==>
      var p := Position(read.value);
      u.report == Some(p) && u.next.lastX == p.x && u.next.lastY == p.y
    // the first touched poll records where and when the touch began, and emits nothing
    ensures Touched(read) && !s.lastTouchState ==>
      var p := Position(read.value);
      && u.event == TouchNone
      && u.next.touchStartTime == now && u.next.touchStartX == p.x && u.next.touchStartY == p.y
      && !u.next.longPressHandled
    // a long press fires once, while the finger has stayed down more than LONG_PRESS_MS
    ensures u.event == TouchLongPress <==>
      Touched(read) && s.lastTouchState && !s.longPressHandled && Since(now, s.touchStartTime) > LongPressMs
    ensures Touched(read) && s.lastTouchState ==>
      u.next.longPressHandled == (s.longPressHandled || u.event == TouchLongPress)
    // a held touch keeps the time and place where it began
    ensures Touched(read) && s.lastTouchState ==>
      && u.next.touchStartTime == s.touchStartTime
      && u.next.touchStartX == s.touchStartX && u.next.touchStartY == s.touchStartY
    // a release after a long press, and an untouched poll after another, emit nothing
    ensures !Touched(read) && !Released(s, read) ==> u.event == TouchNone && u.report == None
    // release classification: swipe up, else swipe down, else a debounced tap
    ensures u.event == TouchSwipeUp <==> Released(s, read) && SwipesUp(s)
    ensures u.event == TouchSwipeDown <==> Released(s, read) && !SwipesUp(s) && SwipesDown(s)
    ensures u.event == TouchTap <==>
      Released(s, read) && !SwipesUp(s) && !SwipesDown(s) && Since(now, s.lastButtonPress) > DebounceMs
    // a tap reports the last touched position and restarts the debounce
    ensures u.event == TouchTap ==> u.report == Some(Point(s.lastX, s.lastY)) && u.next.lastButtonPress == now
    ensures u.event != TouchTap ==> u.next.lastButtonPress == s.lastButtonPress
    // only a tap writes the caller's coordinates on an untouched poll
    ensures !Touched(read) && u.event != TouchTap ==> u.report == None
    // an untouched poll changes nothing but the touch state and the debounce time
    ensures !Touched(read) ==>
      u.next == s.(lastTouchState := false, lastButtonPress := u.next.lastButtonPress)
  {
    if Touched(read) then
      var p := Position(read.value);
      var s1 := s.(lastX := p.x, lastY := p.y);
      if !s.lastTouchState then
        Update(s1.(touchStartTime := now, touchStartX := p.x, touchStartY := p.y,
                   longPressHandled := false, lastTouchState := true),
               TouchNone, Some(p))
      else if !s.longPressHandled && Since(now, s.touchStartTime) > LongPressMs then
        Update(s1.(longPressHandled := true, lastTouchState := true), TouchLongPress, Some(p))
      else
        Update(s1.(lastTouchState := true), TouchNone, Some(p))
    else
      var s1 := s.(lastTouchState := false);
      if s.lastTouchState && !s.longPressHandled then
        var deltaY := s.touchStartY - s.lastY;
        var startedAtBottom := s.touchStartY > LcdHeight - SwipeBottomZone;
        var startedAtTop := s.touchStartY < SwipeTopZone;
        if startedAtBottom && deltaY > SwipeMinDistance then
          Update(s1, TouchSwipeUp, None)
        else if startedAtTop && deltaY < -SwipeMinDistance then
          Update(s1, TouchSwipeDown, None)
        else if Since(now, s.lastButtonPress) > DebounceMs then
          Update(s1.(lastButtonPress := now), TouchTap, Some(Point(s.lastX, s.lastY)))
        else
          Update(s1, TouchNone, None)
      else
        Update(s1, TouchNone, None)
  }

  /** What `touchReset` leaves behind. */
  function AfterReset(s: Panel): Panel
  {
    s.(lastTouchState := true, longPressHandled := false, touchStartTime := 0)
  }

  /** After `touchReset` the panel believes a finger is down. The next poll
      without a finger therefore runs the release branch with the
      coordinates of the touch before the reset, and reports a tap there
      once the debounce has passed and the stored positions are no swipe. */
  lemma ResetThenLiftTaps(s: Panel, read: Option<RawTouch>, now: Millis)
    requires !Touched(read) && !SwipesUp(s) && !SwipesDown(s)
    requires Since(now, s.lastButtonPress) > DebounceMs
    ensures Step(AfterReset(s), read, now).event == TouchTap
    ensures Step(AfterReset(s), read, now).report == Some(Point(s.lastX, s.lastY))
  {
  }

  /** With a finger still down after `touchReset`, the touch counts as
      having begun at time 0, so the first touched poll more than
      LONG_PRESS_MS after boot is a long press. */
  lemma ResetThenHoldLongPresses(s: Panel, read: Option<RawTouch>, now: Millis)
    requires Touched(read) && now > LongPressMs
    ensures Step(AfterReset(s), read, now).event == TouchLongPress
  {
  }

  /** A reset that does prevent a re-trigger after waking: it also marks the
      touch believed to be down as handled. */
  function AfterIntendedReset(s: Panel): (r: Panel)
    ensures r.lastTouchState && r.longPressHandled
  {
    s.(lastTouchState := true, longPressHandled := true, touchStartTime := 0)
  }

  /** The finger that is down stays down, except perhaps at the last poll. */
  predicate HeldUntilLast(polls: seq<Poll>)
  {
    forall i :: 0 <= i < |polls| - 1 ==> Touched(polls[i].read)
  }

  /** A touch that is down and handled emits nothing while it is held or
      when it lifts. */
  lemma {:induction false} HandledTouchStaysSilent(s: Panel, polls: seq<Poll>)
    requires s.lastTouchState && s.longPressHandled
    requires HeldUntilLast(polls)
    ensures forall i :: 0 <= i < |Events(s, polls)| ==> Events(s, polls)[i] == TouchNone
    decreases |polls|
  {
    if polls != [] {
      var u := Step(s, polls[0].read, polls[0].at);
      if |polls| > 1 {
        assert Touched(polls[0].read);
        assert HeldUntilLast(polls[1..]) by {
          forall i | 0 <= i < |polls[1..]| - 1 ensures Touched(polls[1..][i].read) {
            assert polls[1..][i] == polls[i + 1];
          }
        }
        HandledTouchStaysSilent(u.next, polls[1..]);
      }
    }
  }

  /** After the intended reset, neither holding the finger down nor
      lifting it reports anything. */
  lemma IntendedResetNeverTriggers(s: Panel, polls: seq<Poll>)
    requires HeldUntilLast(polls)
    ensures forall i :: 0 <= i < |Events(AfterIntendedReset(s), polls)| ==>
      Events(AfterIntendedReset(s), polls)[i] == TouchNone
  {
    HandledTouchStaysSilent(AfterIntendedReset(s), polls);
  }

  // ---- sequences of polls ----

  datatype Poll = Poll(read: Option<RawTouch>, at: Millis)

  /** The events of feeding `polls` to `touchUpdate` in order. */
  function Events(s: Panel, polls: seq<Poll>): seq<TouchEvent>
    decreases |polls|
  {
    if polls == [] then []
    else
      var u := Step(s, polls[0].read, polls[0].at);
      [u.event] + Events(u.next, polls[1..])
  }

  function Occurrences(events: seq<TouchEvent>, e: TouchEvent): nat
    decreases |events|
  {
    if events == [] then 0
    else (if events[0] == e then 1 else 0) + Occurrences(events[1..], e)
  }

  /** However long a finger stays down, it produces at most one long
      press, and none when its long press was already reported. */
  lemma {:induction false} OneLongPressPerTouch(s: Panel, polls: seq<Poll>)
    requires forall i :: 0 <= i < |polls| ==> Touched(polls[i].read)
    ensures Occurrences(Events(s, polls), TouchLongPress)
            <= if s.lastTouchState && s.longPressHandled then 0 else 1
    decreases |polls|
  {
    if polls != [] {
      var u := Step(s, polls[0].read, polls[0].at);
      OneLongPressPerTouch(u.next, polls[1..]);
    }
  }

  /** While the finger stays down only long presses can be reported. */
  lemma {:induction false} HoldingNeverTaps(s: Panel, polls: seq<Poll>)
    requires forall i :: 0 <= i < |polls| ==> Touched(polls[i].read)
    ensures forall i :: 0 <= i < |Events(s, polls)| ==>
      Events(s, polls)[i] in {TouchNone, TouchLongPress}
    decreases |polls|
  {
    if polls != [] {
      var u := Step(s, polls[0].read, polls[0].at);
      HoldingNeverTaps(u.next, polls[1..]);
    }
  }

  /** `touchInButton`: the start/stop button with its edges. */
  function InButton(x: int, y: int): (inside: bool)
    ensures inside <==> 60 <= x <= 180 && 40 <= y <= 100
  {
    x >= BtnX && x <= BtnX + BtnWidth && y >= BtnY && y <= BtnY + BtnHeight
  }

  /** The statics of touch.cpp, updated in place. */
  class TouchPanel {
    var lastTouchState: bool
    var touchStartTime: Millis
    var lastButtonPress: Millis
    var longPressHandled: bool
    var lastX: int
    var lastY: int
    var touchStartX: int
    var touchStartY: int

    function Snapshot(): Panel
      reads this
    {
      Panel(lastTouchState, touchStartTime, lastButtonPress, longPressHandled,
            lastX, lastY, touchStartX, touchStartY)
    }

    constructor ()
      ensures Snapshot() == Panel(false, 0, 0, false, 0, 0, 0, 0)
    {
      lastTouchState, touchStartTime, lastButtonPress, longPressHandled := false, 0, 0, false;
      lastX, lastY, touchStartX, touchStartY := 0, 0, 0, 0;
    }

    /** `touchUpdate(x, y)`: `x` and `y` are the caller's variables, which
        the poll may overwrite. */
    method Update(read: Option<RawTouch>, now: Millis, x: int, y: int)
      returns (event: TouchEvent, xOut: int, yOut: int)
      modifies this
      ensures var u := Step(old(Snapshot()), read, now);
        && Snapshot() == u.next
        && event == u.event
        && (u.report.Some? ==> Point(xOut, yOut) == u.report.value)
        && (u.report.None? ==> xOut == x && yOut == y)
    {
      event := TouchNone;
      xOut, yOut := x, y;
      var currentlyTouched := Touched(read);
      if currentlyTouched {
        var p := Position(read.value);
        lastX, lastY := p.x, p.y;
        xOut, yOut := p.x, p.y;
        if !lastTouchState {
          touchStartTime := now;
          touchStartX, touchStartY := p.x, p.y;
          longPressHandled := false;
        } else if !longPressHandled && Since(now, touchStartTime) > LongPressMs {
          longPressHandled := true;
          event := TouchLongPress;
        }
      } else {
        if lastTouchState && !longPressHandled {
          var deltaY := touchStartY - lastY;
          var startedAtBottom := touchStartY > LcdHeight - SwipeBottomZone;
          var startedAtTop := touchStartY < SwipeTopZone;
          if startedAtBottom && deltaY > SwipeMinDistance {
            event := TouchSwipeUp;
          } else if startedAtTop && deltaY < -SwipeMinDistance {
            event := TouchSwipeDown;
          } else if Since(now, lastButtonPress) > DebounceMs {
            lastButtonPress := now;
            xOut, yOut := lastX, lastY;
            event := TouchTap;
          }
        }
      }
      lastTouchState := currentlyTouched;
    }

    /** `touchReset`, called after waking from sleep. */
    method Reset()
      modifies this
      ensures Snapshot() == AfterReset(old(Snapshot()))
    {
      lastTouchState := true;
      longPressHandled := false;
      touchStartTime := 0;
    }
  }

}
