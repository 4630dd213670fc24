/**
 * The sweep-to-wake gesture engine of drivers/input/touchscreen/sweep2wake.c,
 * as values: the recognizer state, the coalescer of single-axis events, the
 * configuration switches and their parsers, and whole traces of actions.
 * Module Sweep2WakeDriver holds the same state as mutable fields and proves
 * each of its methods against the functions here.
 */
module Sweep2Wake {
  import opened Wrappers

  // Fixed screen geometry and trigger bands (sweep2wake.c:42-47).
  const Y_MAX := 854
  const Y_MIN := 0
  const X_MAX := 480
  const X_MIN := 0
  const X_B1 := 60
  const X_B2 := 420

  // Boot values of the two switches (sweep2wake.c:38-39).
  const S2W_DEFAULT := 1
  const S2W_S2SONLY_DEFAULT := 1

  // Linux input event codes the coalescer looks at.
  const ABS_MT_SLOT: nat := 0x2f
  const ABS_MT_POSITION_X: nat := 0x35
  const ABS_MT_POSITION_Y: nat := 0x36
  const ABS_MT_TRACKING_ID: nat := 0x39
  /** The contact-lift code some panels send instead of a tracking id of -1. */
  const LIFT_CODE_330: nat := 330

  /** A synthetic power-key press: PowerOn wakes ("ON"), PowerOff sleeps ("OFF"). */
  datatype Trigger = PowerOn | PowerOff

  /**
   * The recognizer globals: barrier[0], barrier[1], exec_count (true while a
   * trigger is still allowed) and scr_on_touch (written, never read).
   */
  datatype Recognizer = Recognizer(barrier0: bool, barrier1: bool, execCount: bool, scrOnTouch: bool)

  /** s2w_switch, s2w_s2sonly and s2w_scr_suspended. */
  datatype Config = Config(s2wSwitch: int, s2sOnly: int, scrSuspended: bool)

  /** touch_x, touch_y and their two ready flags. */
  datatype Touch = Touch(x: int, y: int, xCalled: bool, yCalled: bool)

  /** Every global of the gesture engine. */
  datatype DriverState = DriverState(cfg: Config, rec: Recognizer, touch: Touch)

  /** One evaluation of the recognizer: its new state and the trigger it fired, if any. */
  datatype Step = Step(rec: Recognizer, fired: Option<Trigger>)

  /** An input event as the handler receives it: type, code, value. */
  datatype Event = Event(evType: nat, code: nat, value: int)

  /** A complete (x, y) sample handed to the recognizer. */
  datatype Sample = Sample(x: int, y: int)

  /** One input event handled: the new globals, the sample it completed and the trigger fired. */
  datatype EventStep = EventStep(next: DriverState, sample: Option<Sample>, fired: Option<Trigger>)

  /** The state sweep2wake_reset leaves behind. */
  const Cleared := Recognizer(false, false, true, false)

  /** The globals at module load. */
  const Boot := DriverState(Config(S2W_DEFAULT, S2W_S2SONLY_DEFAULT, false), Cleared, Touch(0, 0, false, false))

  /** The order invariant: the second band is never passed before the first. */
  predicate Ordered(r: Recognizer) {
    r.barrier1 ==> r.barrier0
  }

  /** The vertical bound, exclusive on both sides. */
  predicate InY(y: int) {
    Y_MIN < y < Y_MAX
  }

  /** Left-to-right (wake) sweeps are looked for. */
  predicate WakeMode(c: Config, singleTouch: bool) {
    singleTouch && c.scrSuspended && c.s2wSwitch > 0 && c.s2sOnly == 0
  }

  /** Right-to-left (sleep) sweeps are looked for. */
  predicate SleepMode(c: Config, singleTouch: bool) {
    singleTouch && !c.scrSuspended && c.s2wSwitch > 0
  }

  function Emitted(t: Option<Trigger>): seq<Trigger> {
    if t.Some? then [t.value] else []
  }

  /**
   * Progress of one sweep direction, given whether the sample lies in the
   * first band, in the second band and in the trigger zone (each test
   * already including the y bound).
   */
  function Walk(r: Recognizer, inFirst: bool, inSecond: bool, inZone: bool, t: Trigger): Step {
    if r.barrier0 || inFirst then
      if r.barrier1 || inSecond then
        if inZone && r.execCount then
          Step(r.(barrier0 := true, barrier1 := true, execCount := false), Some(t))
        else
          Step(r.(barrier0 := true, barrier1 := true), None)
      else
        Step(r.(barrier0 := true), None)
    else
      Step(r, None)
  }

  /**
   * detect_sweep2wake: one sample evaluated against the recognizer state.
   * The contract describes the new state band by band: because the bands
   * are disjoint, barrier[1] is only set by a sample in the middle band once
   * barrier[0] was already set, and a trigger only fires on a sample in the
   * trigger zone once both barriers were already set.
   */
  function Evaluate(r: Recognizer, c: Config, x: int, y: int, singleTouch: bool): (s: Step)
    ensures s.rec.barrier0 == (r.barrier0
                               || (WakeMode(c, singleTouch) && X_MIN < x < X_B1 && InY(y))
                               || (SleepMode(c, singleTouch) && X_B2 < x < X_MAX && InY(y)))
    ensures s.rec.barrier1 == (r.barrier1
                               || ((WakeMode(c, singleTouch) || SleepMode(c, singleTouch))
                                   && r.barrier0 && X_B1 < x < X_B2 && InY(y)))
    ensures s.fired == Some(PowerOn) <==>
              WakeMode(c, singleTouch) && r.execCount && r.barrier0 && r.barrier1 && x > X_B2 && InY(y)
    ensures s.fired == Some(PowerOff) <==>
              SleepMode(c, singleTouch) && r.execCount && r.barrier0 && r.barrier1 && x < X_B1 && InY(y)
    ensures s.rec.execCount == (r.execCount && s.fired.None?)
    ensures s.rec.scrOnTouch == (r.scrOnTouch || SleepMode(c, singleTouch))
    // the order of the barriers is kept
    ensures Ordered(r) ==> Ordered(s.rec)
    // a sample outside the vertical bound neither advances nor clears progress
    ensures !InY(y) ==> s.rec.(scrOnTouch := r.scrOnTouch) == r && s.fired == None
    // with the feature off, or wake-only while the screen is on, nothing changes
    ensures !WakeMode(c, singleTouch) && !SleepMode(c, singleTouch) ==> s == Step(r, None)
  {
    if WakeMode(c, singleTouch) then
      Walk(r,
           X_MIN < x < X_B1 && InY(y),
           X_B1 < x < X_B2 && InY(y),
           x > X_B2 && InY(y),
           PowerOn)
    else if SleepMode(c, singleTouch) then
      Walk(r.(scrOnTouch := true),
           X_B2 < x < X_MAX && InY(y),
           X_B1 < x < X_B2 && InY(y),
           x < X_B1 && InY(y),
           PowerOff)
    else
      Step(r, None)
  }

  /** The three contact-lifted signals that reset the recognizer. */
  predicate IsLift(code: nat, value: int) {
    code == ABS_MT_SLOT
    || (code == ABS_MT_TRACKING_ID && value == -1)
    || (code == LIFT_CODE_330 && value == 0)
  }

  /** At most one axis is pending between events. */
  predicate Settled(t: Touch) {
    !(t.xCalled && t.yCalled)
  }

  /**
   * s2w_input_event followed, when it completes a sample, by the queued
   * callback, which evaluates (touch_x, touch_y) with single_touch set.
   */
  function Coalesce(d: DriverState, e: Event): (s: EventStep)
    ensures s.next.cfg == d.cfg
    // a lift resets the recognizer and leaves the coordinates and ready flags alone
    ensures IsLift(e.code, e.value) ==>
              s.next.rec == Cleared && s.next.touch == d.touch && s.sample == None && s.fired == None
    // a sample is emitted exactly on the event that leaves both axes ready
    ensures s.sample.Some? <==>
              !IsLift(e.code, e.value)
              && (d.touch.xCalled || e.code == ABS_MT_POSITION_X)
              && (d.touch.yCalled || e.code == ABS_MT_POSITION_Y)
    ensures s.sample.Some? ==>
              s.sample.value == Sample(s.next.touch.x, s.next.touch.y)
              && !s.next.touch.xCalled && !s.next.touch.yCalled
              && Evaluate(d.rec, d.cfg, s.next.touch.x, s.next.touch.y, true) == Step(s.next.rec, s.fired)
    ensures s.sample.None? && !IsLift(e.code, e.value) ==> s.next.rec == d.rec && s.fired == None
    // without a sample, an axis update marks that axis ready and the other flag is kept
    ensures s.sample.None? && !IsLift(e.code, e.value) ==>
              s.next.touch.xCalled == (d.touch.xCalled || e.code == ABS_MT_POSITION_X)
              && s.next.touch.yCalled == (d.touch.yCalled || e.code == ABS_MT_POSITION_Y)
    // only the matching axis code moves a coordinate
    ensures s.next.touch.x == (if e.code == ABS_MT_POSITION_X && !IsLift(e.code, e.value) then e.value else d.touch.x)
    ensures s.next.touch.y == (if e.code == ABS_MT_POSITION_Y && !IsLift(e.code, e.value) then e.value else d.touch.y)
    ensures !IsLift(e.code, e.value) ==> Settled(s.next.touch)
  {
    if IsLift(e.code, e.value) then
      EventStep(d.(rec := Cleared), None, None)
    else
      var t1 := if e.code == ABS_MT_POSITION_X then d.touch.(x := e.value, xCalled := true) else d.touch;
      var t2 := if e.code == ABS_MT_POSITION_Y then t1.(y := e.value, yCalled := true) else t1;
      if t2.xCalled && t2.yCalled then
        var st := Evaluate(d.rec, d.cfg, t2.x, t2.y, true);
        EventStep(DriverState(d.cfg, st.rec, t2.(xCalled := false, yCalled := false)),
                  Some(Sample(t2.x, t2.y)), st.fired)
      else
        EventStep(d.(touch := t2), None, None)
  }

  /** The event type is never looked at: only the code and the value matter. */
  lemma EventTypeIgnored(d: DriverState, t1: nat, t2: nat, code: nat, value: int)
    ensures Coalesce(d, Event(t1, code, value)) == Coalesce(d, Event(t2, code, value))
  {
  }

  /**
   * The value a sysfs switch store parses: '0' or '1' followed by a newline.
   * A write shorter than two characters cannot have a newline at index 1.
   */
  function SysfsDigit(buf: string): (r: Option<int>)
    ensures r.Some? ==> (r.value == 0 || r.value == 1)
                        && |buf| >= 2 && buf[1] == '\n' && buf[0] == DigitChar(r.value)
    ensures r.None? ==> |buf| < 2 || buf[1] != '\n' || (buf[0] != '0' && buf[0] != '1')
  {
    if |buf| >= 2 && buf[1] == '\n' then
      if buf[0] == '0' then Some(0)
      else if buf[0] == '1' then Some(1)
      else None
    else
      None
  }

  function DigitChar(v: int): char {
    if v == 0 then '0' else '1'
  }

  /**
   * The value read_s2w_cmdline parses from the "s2w=" boot argument:
   * only the exact strings "0" and "1" are accepted.
   */
  function CmdlineDigit(s: string): (r: Option<int>)
  {
    if s == "1" then Some(1)
    else if s == "0" then Some(0)
    else None
  }

  /** The sysfs store and the boot argument accept the same digits. */
  lemma SysfsAgreesWithCmdline(c: char, rest: string)
    ensures SysfsDigit([c, '\n'] + rest) == CmdlineDigit([c])
  {
  }

  /** The boot argument is accepted only when it is "0" or "1", and then sets that value. */
  lemma CmdlineExact(s: string)
    ensures CmdlineDigit(s).Some? <==> s == "0" || s == "1"
    ensures s == "0" ==> CmdlineDigit(s) == Some(0)
    ensures s == "1" ==> CmdlineDigit(s) == Some(1)
  {
  }

  // ----- input_dev_filter -----

  /** `needle` occurs in `hay` starting at index i. */
  ghost predicate OccursAt(hay: string, needle: string, i: int) {
    0 <= i && i + |needle| <= |hay| && hay[i..i + |needle|] == needle
  }

  /** strstr(hay, needle) != NULL, by scanning start positions left to right. */
  function Contains(hay: string, needle: string): bool
    decreases |hay|
  {
    if |hay| < |needle| then false
    else hay[..|needle|] == needle || Contains(hay[1..], needle)
  }

  lemma {:induction false} ContainsIffOccurs(hay: string, needle: string)
    ensures Contains(hay, needle) <==> exists i :: OccursAt(hay, needle, i)
    decreases |hay|
  {
    if |hay| < |needle| {
    } else if hay[..|needle|] == needle {
      assert OccursAt(hay, needle, 0);
    } else {
      ContainsIffOccurs(hay[1..], needle);
      if exists i :: OccursAt(hay[1..], needle, i) {
        var i :| OccursAt(hay[1..], needle, i);
        assert hay[1..][i..i + |needle|] == hay[i + 1..i + 1 + |needle|];
        assert OccursAt(hay, needle, i + 1);
      }
      if exists i :: OccursAt(hay, needle, i) {
        var i :| OccursAt(hay, needle, i);
        assert i != 0;
        assert hay[1..][i - 1..i - 1 + |needle|] == hay[i..i + |needle|];
        assert OccursAt(hay[1..], needle, i - 1);
      }
    }
  }

  /** input_dev_filter: 0 (keep the device) exactly when its name mentions "touch" or "mtk-tpd". */
  function InputDevFilter(name: string): (r: int)
    ensures r == 0 || r == 1
    ensures r == 0 <==> (exists i :: OccursAt(name, "touch", i)) || (exists i :: OccursAt(name, "mtk-tpd", i))
  {
    ContainsIffOccurs(name, "touch");
    ContainsIffOccurs(name, "mtk-tpd");
    if Contains(name, "touch") || Contains(name, "mtk-tpd") then 0 else 1
  }

  // ----- traces -----

  /**
   * What can happen to the globals: an input event, a screen power change
   * written by the display side, or a write to one of the two sysfs switches.
   */
  datatype Action =
    | Input(e: Event)
    | ScreenSuspended(suspended: bool)
    | WriteSweep2Wake(buf: string)
    | WriteS2sOnly(buf: string)

  function Apply(d: DriverState, a: Action): (s: EventStep)
    ensures s.fired.Some? ==> d.rec.execCount && !s.next.rec.execCount
    ensures s.next.rec.execCount && !d.rec.execCount ==> a.Input? && IsLift(a.e.code, a.e.value)
    ensures Ordered(d.rec) ==> Ordered(s.next.rec)
    // changing the screen state or a switch never touches the recognizer or the pending sample
    ensures !a.Input? ==> s.next.rec == d.rec && s.next.touch == d.touch && s.fired == None
    // without a lift, progress is never undone
    ensures !(a.Input? && IsLift(a.e.code, a.e.value)) ==>
              (d.rec.barrier0 ==> s.next.rec.barrier0) && (d.rec.barrier1 ==> s.next.rec.barrier1)
  {
    match a
    case Input(e) => Coalesce(d, e)
    case ScreenSuspended(b) => EventStep(d.(cfg := d.cfg.(scrSuspended := b)), None, None)
    case WriteSweep2Wake(buf) =>
      EventStep(d.(cfg := d.cfg.(s2wSwitch := SysfsDigit(buf).GetOr(d.cfg.s2wSwitch))), None, None)
    case WriteS2sOnly(buf) =>
      EventStep(d.(cfg := d.cfg.(s2sOnly := SysfsDigit(buf).GetOr(d.cfg.s2sOnly))), None, None)
  }

  /** The final globals and every trigger fired along a trace. */
  datatype Trace = Trace(last: DriverState, fired: seq<Trigger>)

  function Run(d: DriverState, acts: seq<Action>): Trace
    decreases |acts|
  {
    if acts == [] then Trace(d, [])
    else
      var s := Apply(d, acts[0]);
      var t := Run(s.next, acts[1..]);
      Trace(t.last, Emitted(s.fired) + t.fired)
  }

  /** The number of contact-lift events in a trace. */
  function Lifts(acts: seq<Action>): nat
    decreases |acts|
  {
    if acts == [] then 0
    else (if acts[0].Input? && IsLift(acts[0].e.code, acts[0].e.value) then 1 else 0) + Lifts(acts[1..])
  }

  /**
   * At most one trigger per contact: along any trace, the triggers fired
   * number at most the lifts, plus one if a trigger was still allowed at the
   * start, whatever the screen and switch changes in between.
   */
  lemma {:induction false} TriggersBoundedByLifts(d: DriverState, acts: seq<Action>)
    ensures |Run(d, acts).fired| <= (if d.rec.execCount then 1 else 0) + Lifts(acts)
    decreases |acts|
  {
    if acts != [] {
      var s := Apply(d, acts[0]);
      TriggersBoundedByLifts(s.next, acts[1..]);
    }
  }

  /** Once a trigger has fired, none fires again before a contact lift. */
  lemma NoSecondTriggerBeforeLift(d: DriverState, acts: seq<Action>)
    requires !d.rec.execCount
    requires Lifts(acts) == 0
    ensures Run(d, acts).fired == []
  {
    TriggersBoundedByLifts(d, acts);
  }

  /** barrier[1] implies barrier[0] in every state reached from one where it holds. */
  lemma {:induction false} RunKeepsOrder(d: DriverState, acts: seq<Action>)
    requires Ordered(d.rec)
    ensures Ordered(Run(d, acts).last.rec)
    decreases |acts|
  {
    if acts != [] {
      RunKeepsOrder(Apply(d, acts[0]).next, acts[1..]);
    }
  }

  /**
   * Only a contact lift undoes progress: switching the feature off and on,
   * or the screen changing state, leaves the barriers set.
   */
  lemma {:induction false} ProgressKeptWithoutLift(d: DriverState, acts: seq<Action>)
    requires Lifts(acts) == 0
    ensures d.rec.barrier0 ==> Run(d, acts).last.rec.barrier0
    ensures d.rec.barrier1 ==> Run(d, acts).last.rec.barrier1
    decreases |acts|
  {
    if acts != [] {
      ProgressKeptWithoutLift(Apply(d, acts[0]).next, acts[1..]);
    }
  }

  // ----- gestures -----

  /** Wake sweep: (10,400), (70,400), (430,400) fire one PowerOn, on the third sample; (450,400) then fires nothing. */
  lemma WakeSweep(c: Config)
    requires WakeMode(c, true)
    ensures var s1 := Evaluate(Cleared, c, 10, 400, true);
            var s2 := Evaluate(s1.rec, c, 70, 400, true);
            var s3 := Evaluate(s2.rec, c, 430, 400, true);
            var s4 := Evaluate(s3.rec, c, 450, 400, true);
            s1.fired == None && s2.fired == None && s3.fired == Some(PowerOn) && s4.fired == None
  {
  }

  /** Sleep sweep: (470,400), (410,400), (50,400) fire one PowerOff, on the third sample. */
  lemma SleepSweep(c: Config)
    requires SleepMode(c, true)
    ensures var s1 := Evaluate(Cleared, c, 470, 400, true);
            var s2 := Evaluate(s1.rec, c, 410, 400, true);
            var s3 := Evaluate(s2.rec, c, 50, 400, true);
            s1.fired == None && s2.fired == None && s3.fired == Some(PowerOff) && !s3.rec.execCount
  {
  }

  /** No trigger can fire on the first two samples after a reset, whatever the configuration. */
  lemma NoTriggerWithinTwoSamples(c1: Config, c2: Config, p: Sample, q: Sample)
    ensures var s1 := Evaluate(Cleared, c1, p.x, p.y, true);
            var s2 := Evaluate(s1.rec, c2, q.x, q.y, true);
            s1.fired == None && s2.fired == None
  {
  }

  /** A sample out of the vertical bound is a hold: the gesture can still complete afterwards. */
  lemma HoldThenComplete(c: Config, r: Recognizer, yOut: int)
    requires WakeMode(c, true)
    requires r == Cleared.(barrier0 := true, barrier1 := true)
    requires !InY(yOut)
    ensures var s1 := Evaluate(r, c, 430, yOut, true);
            s1.fired == None && Evaluate(s1.rec, c, 430, 400, true).fired == Some(PowerOn)
  {
  }

  /** An X update and then a Y update, with nothing pending, deliver exactly the sample (x, y). */
  lemma PairDeliversSample(d: DriverState, x: int, y: int, tx: nat, ty: nat)
    requires !d.touch.xCalled && !d.touch.yCalled
    ensures var s1 := Coalesce(d, Event(tx, ABS_MT_POSITION_X, x));
            var s2 := Coalesce(s1.next, Event(ty, ABS_MT_POSITION_Y, y));
            s1.sample == None && s1.fired == None && s1.next.rec == d.rec
            && s2.sample == Some(Sample(x, y))
            && Step(s2.next.rec, s2.fired) == Evaluate(d.rec, d.cfg, x, y, true)
  {
  }

  /** A half-sample pending before a lift survives it: the next opposite-axis event completes it. */
  lemma PendingAxisSurvivesLift(d: DriverState, x: int, y: int)
    requires !d.touch.xCalled && !d.touch.yCalled
    ensures var s1 := Coalesce(d, Event(3, ABS_MT_POSITION_X, x));
            var s2 := Coalesce(s1.next, Event(3, ABS_MT_SLOT, 0));
            var s3 := Coalesce(s2.next, Event(3, ABS_MT_POSITION_Y, y));
            s2.next.rec == Cleared && s3.sample == Some(Sample(x, y))
  {
  }

  /** Wake sweeps are off at boot: s2w_s2sonly starts at 1. */
  lemma WakeOffAtBoot(singleTouch: bool)
    ensures !WakeMode(Boot.cfg, singleTouch)
    ensures SleepMode(Boot.cfg, singleTouch) == singleTouch
  {
  }
}
