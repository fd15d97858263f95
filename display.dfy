/** The decisions of display.cpp: the panel's sleep state, the battery
    icon, the START/STOP button face, the clamped counters and the settings
    screen with its two sliders. The drawing calls themselves are not part
    of this model; what reaches the panel controller is recorded as a list
    of `PanelOp`s. */
module Display {

  import opened Config
  import opened Wrappers
  import Slider

  /** What is sent to the panel: a backlight PWM level, or an ST7789 command. */
  datatype PanelOp = Backlight(level: int) | Command(code: bv8)

  /** Backlight off, DISPOFF, SLPIN. */
  const SleepOps: seq<PanelOp> := [Backlight(0), Command(0x28), Command(0x10)]
  /** SLPOUT, DISPON, backlight at BRIGHTNESS. */
  const WakeOps: seq<PanelOp> := [Command(0x11), Command(0x29), Backlight(Brightness)]

  /** `displaySetBacklight` takes a `uint8_t`. */
  function ToUint8(v: int): (b: int)
    ensures 0 <= b < 256
    ensures 0 <= v < 256 ==> b == v
  {
    v % 256
  }

  // ---- battery icon ----

  /** The inner width of the battery body that the fill can cover. */
  const InnerWidth: int := 20

  datatype BatteryIcon = BatteryIcon(fillWidth: int, fillColor: nat)

  /** `displayUpdateBattery(percent)`: the fill's width and colour. The
      fill is drawn only when its width is positive. */
  function BatteryIconFor(percent: int): (icon: BatteryIcon)
    ensures var p := Constrain(percent, 0, 100);
      && 0 <= icon.fillWidth <= InnerWidth
      && icon.fillWidth * 100 <= InnerWidth * p < (icon.fillWidth + 1) * 100
      && (icon.fillWidth == 0 <==> p < 5)
      && (icon.fillWidth == InnerWidth <==> p == 100)
    ensures var p := Constrain(percent, 0, 100);
      icon.fillColor == if p > 60 then ColorGreen else if p < 20 then ColorRed else ColorYellow
  {
    var p := Constrain(percent, 0, 100);
    var color := if p > 60 then ColorGreen else if p < 20 then ColorRed else ColorYellow;
    BatteryIcon((InnerWidth * p) / 100, color)
  }

  /** Green above yellow above red. */
  function ColorRank(color: nat): nat
  {
    if color == ColorGreen then 2 else if color == ColorYellow then 1 else 0
  }

  /** A fuller battery never shows a shorter fill or a more alarming colour. */
  lemma BatteryIconMonotone(p: int, q: int)
    requires p <= q
    ensures BatteryIconFor(p).fillWidth <= BatteryIconFor(q).fillWidth
    ensures ColorRank(BatteryIconFor(p).fillColor) <= ColorRank(BatteryIconFor(q).fillColor)
  {
    var cp, cq := Constrain(p, 0, 100), Constrain(q, 0, 100);
    var fp, fq := BatteryIconFor(p).fillWidth, BatteryIconFor(q).fillWidth;
    assert InnerWidth * cp <= InnerWidth * cq;
    assert fp * 100 < (fq + 1) * 100;
  }

  // ---- the main screen ----

  /** The counter text: reps and seconds are printed clamped to three digits. */
  function ShownCount(value: int): (shown: int)
    ensures 0 <= shown <= 999
    ensures 0 <= value <= 999 ==> shown == value
    ensures value < 0 ==> shown == 0
    ensures value > 999 ==> shown == 999
  {
    Constrain(value, 0, 999)
  }

  /** What `displayDrawButton` puts on the START/STOP button. */
  datatype ButtonFace = ButtonFace(caption: string, fill: nat, textColor: nat, textX: int, textY: int)

  /** Characters of text size 2 are 12 by 16 pixels. */
  const CharWidth: int := 12
  const CharHeight: int := 16

  function FaceFor(isRunning: bool): (face: ButtonFace)
    // a running workout offers STOP on red, a stopped one START on green
    ensures isRunning ==> face.caption == "STOP" && face.fill == ColorRed && face.textColor == ColorWhite
    ensures !isRunning ==> face.caption == "START" && face.fill == ColorGreen && face.textColor == ColorBlack
    // the caption is centred on the button, in both directions
    ensures 2 * face.textX + |face.caption| * CharWidth == 2 * BtnX + BtnWidth
    ensures 2 * face.textY + CharHeight == 2 * BtnY + BtnHeight
    ensures BtnX <= face.textX && face.textX + |face.caption| * CharWidth <= BtnX + BtnWidth
  {
    var caption := if isRunning then "STOP" else "START";
    var textWidth := |caption| * CharWidth;
    ButtonFace(caption,
               if isRunning then ColorRed else ColorGreen,
               if isRunning then ColorWhite else ColorBlack,
               BtnX + CDiv(BtnWidth - textWidth, 2),
               BtnY + CDiv(BtnHeight - CharHeight, 2))
  }

  // ---- the settings screen ----

  /** `displayInSettingsBackButton`: the back button's rectangle, edges included. */
  predicate InSettingsBackButton(x: int, y: int)
  {
    InRect(x, y, SettingsBackX, SettingsBackY, SettingsBackW, SettingsBackH)
  }

  /** The back button lies at [10, 70] by [10, 40]. */
  lemma BackButtonBounds(x: int, y: int)
    ensures InSettingsBackButton(x, y) <==> 10 <= x <= 70 && 10 <= y <= 40
  {
  }

  /** The statics of display.cpp that the model keeps. */
  class Display {
    var isOn: bool
    const brightness: Slider.Slider
    const sensitivity: Slider.Slider

    /** The two sliders are separate objects. */
    predicate Valid()
      reads this
    {
      brightness != sensitivity
    }

    /** The panel starts on; the sliders are zero-initialised statics. */
    constructor ()
      ensures isOn && Valid()
      ensures fresh(brightness) && fresh(sensitivity)
      ensures brightness.value == 0 && sensitivity.value == 0
    {
      isOn := true;
      brightness := new Slider.Slider();
      sensitivity := new Slider.Slider();
    }

    /** `displaySleep`: only a panel that is on is put to sleep. */
    method Sleep() returns (ops: seq<PanelOp>)
      modifies this`isOn
      ensures !isOn
      ensures ops == if old(isOn) then SleepOps else []
    {
      if !isOn {
        return [];
      }
      ops := [Backlight(0)];
      ops := ops + [Command(0x28), Command(0x10)];
      isOn := false;
    }

    /** `displayWake`: only a sleeping panel is woken. */
    method Wake() returns (ops: seq<PanelOp>)
      modifies this`isOn
      ensures isOn
      ensures ops == if old(isOn) then [] else WakeOps
    {
      if isOn {
        return [];
      }
      ops := [Command(0x11)];
      ops := ops + [Command(0x29)];
      ops := ops + [Backlight(Brightness)];
      isOn := true;
    }

    method IsOn() returns (on: bool)
      ensures on == isOn
    {
      on := isOn;
    }

    /** `displayShowSettings`: lays out both sliders. */
    method ShowSettings()
      requires Valid()
      modifies brightness, sensitivity
      ensures brightness.y == 60 && brightness.minVal == 25 && brightness.maxVal == 255
      ensures brightness.step == 5 && brightness.value == Brightness
      ensures sensitivity.y == 140 && sensitivity.minVal == 25 && sensitivity.maxVal == 100
      ensures sensitivity.step == 25 && sensitivity.value == 75
      ensures brightness.Valid() && sensitivity.Valid()
      // the back button is out of both sliders' reach
      ensures forall x, y :: InSettingsBackButton(x, y) ==>
        !brightness.Reaches(x, y) && !sensitivity.Reaches(x, y)
    {
      brightness.Init(60, 25, 255, 5, Brightness);
      sensitivity.Init(140, 25, 100, 25, 75);
    }

    /** `displaySettingsHandleTouch(x, y)`. The brightness slider sees the
        touch first; the sensitivity slider only when brightness did not
        change. Returns the backlight level applied and the sensitivity
        handed to `workoutSetSensitivity`, when they are. */
    method SettingsHandleTouch(x: int, y: int) returns (handled: bool, backlight: Option<int>, sensitivityValue: Option<int>)
      requires Valid()
      modifies brightness`value, sensitivity`value
      ensures handled <==> old(brightness.Accepts(x, y)) || old(sensitivity.Accepts(x, y))
      ensures old(brightness.Accepts(x, y)) ==>
        && brightness.value == Slider.Nudge(old(brightness.value), brightness.minVal, brightness.maxVal,
                                            brightness.step, x < brightness.MidX())
        && sensitivity.value == old(sensitivity.value)
        && backlight == Some(ToUint8(brightness.value)) && sensitivityValue == None
      ensures !old(brightness.Accepts(x, y)) ==>
        && brightness.value == old(brightness.value) && backlight == None
        && (sensitivityValue.Some? <==> old(sensitivity.Accepts(x, y)))
        && (sensitivityValue.Some? ==>
              sensitivity.value == Slider.Nudge(old(sensitivity.value), sensitivity.minVal, sensitivity.maxVal,
                                                sensitivity.step, x < sensitivity.MidX())
              && sensitivityValue.value == sensitivity.value)
        && (sensitivityValue.None? ==> sensitivity.value == old(sensitivity.value))
    {
      var changed := brightness.HandleTouch(x, y);
      if changed {
        var level := brightness.GetValue();
        return true, Some(ToUint8(level)), None;
      }
      changed := sensitivity.HandleTouch(x, y);
      if changed {
        var v := sensitivity.GetValue();
        return true, None, Some(v);
      }
      return false, None, None;
    }
  }

}
