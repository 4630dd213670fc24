/**
 * The module-level globals of drivers/input/touchscreen/sweep2wake.c as the
 * fields of one object, and the functions that update them in place as its
 * methods. Each method is proved against the function of module Sweep2Wake
 * that specifies it; a trigger appends to the ghost log `fired` in place of
 * scheduling the power-key work.
 */
module Sweep2WakeDriver {
  import opened Wrappers
  import opened Sweep2Wake

  class Driver {
    var s2wSwitch: int
    var s2sOnly: int
    /** Written by the display side, read by the recognizer. */
    var scrSuspended: bool
    var touchX: int
    var touchY: int
    var touchXCalled: bool
    var touchYCalled: bool
    var execCount: bool
    var scrOnTouch: bool
    const barrier: array<bool>
    /** Every power-key press requested so far, in order. */
    ghost var fired: seq<Trigger>

    ghost predicate Valid()
      reads this
    {
      barrier.Length == 2
    }

    /** The globals as a value. */
    function State(): DriverState
      reads this, barrier
      requires Valid()
    {
      DriverState(Config(s2wSwitch, s2sOnly, scrSuspended),
                  Recognizer(barrier[0], barrier[1], execCount, scrOnTouch),
                  Touch(touchX, touchY, touchXCalled, touchYCalled))
    }

    /** The static initialisers of the globals. */
    constructor ()
      ensures Valid() && fresh(barrier)
      ensures State() == Boot && fired == []
    {
      s2wSwitch, s2sOnly := S2W_DEFAULT, S2W_S2SONLY_DEFAULT;
      scrSuspended := false;
      touchX, touchY := 0, 0;
      touchXCalled, touchYCalled := false, false;
      execCount := true;
      scrOnTouch := false;
      barrier := new bool[2](_ => false);
      fired := [];
    }

    /** read_s2w_cmdline: only the exact strings "1" and "0" change the switch. */
    method ReadCmdline(s: string) returns (ret: int)
      modifies this`s2wSwitch
      ensures ret == 1
      ensures s2wSwitch == CmdlineDigit(s).GetOr(old(s2wSwitch))
    {
      if s == "1" {
        s2wSwitch := 1;
      } else if s == "0" {
        s2wSwitch := 0;
      }
      ret := 1;
    }

    /** sweep2wake_reset: the pending axes and coordinates are left alone. */
    method Sweep2WakeReset()
      requires Valid()
      modifies this`execCount, this`scrOnTouch, barrier
      ensures Valid()
      ensures State() == old(State()).(rec := Cleared)
    {
      execCount := true;
      barrier[0] := false;
      barrier[1] := false;
      scrOnTouch := false;
    }

    /** detect_sweep2wake. */
    method DetectSweep2Wake(x: int, y: int, st: bool)
      requires Valid()
      modifies this`execCount, this`scrOnTouch, this`fired, barrier
      ensures Valid()
      ensures var s := Evaluate(old(State()).rec, old(State()).cfg, x, y, st);
              State() == old(State()).(rec := s.rec) && fired == old(fired) + Emitted(s.fired)
    {
      var prevx, nextx := 0, 0;
      var singleTouch := st;
      if singleTouch && scrSuspended && s2wSwitch > 0 && s2sOnly == 0 {
        // left to right
        prevx, nextx := X_MIN, X_B1;
        if barrier[0] || (x > prevx && x < nextx && y > Y_MIN && y < Y_MAX) {
          prevx, nextx := nextx, X_B2;
          barrier[0] := true;
          if barrier[1] || (x > prevx && x < nextx && y > Y_MIN && y < Y_MAX) {
            prevx := nextx;
            barrier[1] := true;
            if x > prevx && y > Y_MIN && y < Y_MAX {
              if execCount {
                fired := fired + [PowerOn];
                execCount := false;
              }
            }
          }
        }
      } else if singleTouch && !scrSuspended && s2wSwitch > 0 {
        // right to left
        scrOnTouch := true;
        prevx, nextx := X_MAX, X_B2;
        if barrier[0] || (x < prevx && x > nextx && y > Y_MIN && y < Y_MAX) {
          prevx, nextx := nextx, X_B1;
          barrier[0] := true;
          if barrier[1] || (x < prevx && x > nextx && y > Y_MIN && y < Y_MAX) {
            prevx := nextx;
            barrier[1] := true;
            if x < prevx && y > Y_MIN && y < Y_MAX {
              if execCount {
                fired := fired + [PowerOff];
                execCount := false;
              }
            }
          }
        }
      }
    }

    /** s2w_input_callback: the queued work evaluates the latest coordinates as a single touch. */
    method InputCallback()
      requires Valid()
      modifies this`execCount, this`scrOnTouch, this`fired, barrier
      ensures Valid()
      ensures var s := Evaluate(old(State()).rec, old(State()).cfg, touchX, touchY, true);
              State() == old(State()).(rec := s.rec) && fired == old(fired) + Emitted(s.fired)
    {
      DetectSweep2Wake(touchX, touchY, true);
    }

    /** s2w_input_event, with the queued callback run at once. */
    method InputEvent(evType: nat, code: nat, value: int)
      requires Valid()
      modifies this`execCount, this`scrOnTouch, this`fired, barrier
      modifies this`touchX, this`touchY, this`touchXCalled, this`touchYCalled
      ensures Valid()
      ensures var s := Coalesce(old(State()), Event(evType, code, value));
              State() == s.next && fired == old(fired) + Emitted(s.fired)
    {
      if code == ABS_MT_SLOT {
        Sweep2WakeReset();
        return;
      }
      if (code == ABS_MT_TRACKING_ID && value == -1) || (code == LIFT_CODE_330 && value == 0) {
        Sweep2WakeReset();
        return;
      }
      if code == ABS_MT_POSITION_X {
        touchX := value;
        touchXCalled := true;
      }
      if code == ABS_MT_POSITION_Y {
        touchY := value;
        touchYCalled := true;
      }
      if touchXCalled && touchYCalled {
        touchXCalled := false;
        touchYCalled := false;
        InputCallback();
      }
    }

    /** s2w_sweep2wake_dump: the store behind the sweep2wake switch. */
    method Sweep2WakeDump(buf: string, count: nat) returns (n: nat)
      modifies this`s2wSwitch
      ensures n == count
      ensures s2wSwitch == SysfsDigit(buf).GetOr(old(s2wSwitch))
    {
      if |buf| >= 2 && buf[1] == '\n' {
        if buf[0] == '0' {
          s2wSwitch := 0;
        } else if buf[0] == '1' {
          s2wSwitch := 1;
        }
      }
      n := count;
    }

    /** s2w_s2w_s2sonly_dump: the store behind the s2w_s2sonly switch. */
    method S2sOnlyDump(buf: string, count: nat) returns (n: nat)
      modifies this`s2sOnly
      ensures n == count
      ensures s2sOnly == SysfsDigit(buf).GetOr(old(s2sOnly))
    {
      if |buf| >= 2 && buf[1] == '\n' {
        if buf[0] == '0' {
          s2sOnly := 0;
        } else if buf[0] == '1' {
          s2sOnly := 1;
        }
      }
      n := count;
    }
  }

  /**
   * A client: enable wake sweeps, suspend the screen and sweep left to right
   * as X/Y event pairs; one press is requested, and a further sample in the
   * trigger zone requests none until the contact is lifted.
   */
  method WakeSweepScenario() {
    var d := new Driver();
    var n := d.S2sOnlyDump("0\n", 2);
    d.scrSuspended := true;
    ghost var c := Config(S2W_DEFAULT, 0, true);
    assert d.State() == DriverState(c, Cleared, Touch(0, 0, false, false));
    d.InputEvent(3, ABS_MT_POSITION_X, 10);
    d.InputEvent(3, ABS_MT_POSITION_Y, 400);
    assert d.State() == DriverState(c, Cleared.(barrier0 := true), Touch(10, 400, false, false));
    d.InputEvent(3, ABS_MT_POSITION_X, 70);
    d.InputEvent(3, ABS_MT_POSITION_Y, 400);
    assert d.State() == DriverState(c, Cleared.(barrier0 := true, barrier1 := true), Touch(70, 400, false, false));
    assert d.fired == [];
    d.InputEvent(3, ABS_MT_POSITION_X, 430);
    d.InputEvent(3, ABS_MT_POSITION_Y, 400);
    assert d.State().rec == Recognizer(true, true, false, false);
    assert d.fired == [PowerOn];
    d.InputEvent(3, ABS_MT_POSITION_X, 450);
    d.InputEvent(3, ABS_MT_POSITION_Y, 400);
    assert d.fired == [PowerOn];
    d.InputEvent(3, ABS_MT_TRACKING_ID, -1);
    assert d.execCount && !d.barrier[0] && !d.barrier[1];
  }
}
