/**
 * ps_is_close of drivers/misc/nasa_proximity.c: a time-windowed cache over a
 * boolean proximity-sensor read, and the two sysfs setters of its switch and
 * its window. The clock (ktime_get in milliseconds) and what the sensor
 * would report are parameters; sscanf("%u") is an abstract parse result.
 */
module NasaProximity {
  import opened Wrappers

  newtype u32 = x: int | 0 <= x < 0x1_0000_0000

  /** nasa_proximity_timeout at boot, in milliseconds. */
  const DEFAULT_TIMEOUT: u32 := 600

  /**
   * The globals ps_is_close reads: nasa_proximity_switch, whether
   * sensor_check is set, is_screen_on, nasa_proximity_timeout, and the
   * cache read_time_pre / prev_res.
   */
  datatype Cache = Cache(enabled: u32, sensorPresent: bool, screenOn: int,
                         timeout: u32, readTimePre: nat, prevRes: int)

  /** One query: the new globals, the value returned, and whether the sensor was read. */
  datatype Answer = Answer(next: Cache, close: int, consulted: bool)

  /** The early returns of ps_is_close: disabled, no sensor, or screen on. */
  predicate Guarded(c: Cache) {
    c.enabled == 0 || !c.sensorPresent || c.screenOn != 0
  }

  /** The cached result is still fresh at time `now`. */
  predicate Fresh(c: Cache, now: nat)
    requires now >= c.readTimePre
  {
    c.timeout > 0 && now - c.readTimePre < c.timeout as int
  }

  /** The value ps_is_close reports for a sensor reading: 1 unless the sensor says 1. */
  function FromSensor(reading: int): int {
    if reading == 1 then 0 else 1
  }

  /**
   * ps_is_close. The clock is read twice: `now` (ms) is the reading the
   * window is compared with, `stored` the later reading saved as the new
   * read_time_pre. `reading` is what sensor_check() would return if called.
   * The clock never runs backwards, which keeps the unsigned subtraction
   * `now - read_time_pre` from wrapping.
   */
  function Query(c: Cache, now: nat, stored: nat, reading: int): (a: Answer)
    requires now >= c.readTimePre
    requires stored >= now
    // guard conditions: 0, nothing changes, the sensor is not read
    ensures Guarded(c) ==> a == Answer(c, 0, false)
    // cache hit: the previous result, nothing changes
    ensures !Guarded(c) && Fresh(c, now) ==> a == Answer(c, c.prevRes, false)
    // the sensor is read exactly when enabled, present, screen off and the cache is stale
    ensures a.consulted <==> !Guarded(c) && !Fresh(c, now)
    ensures !a.consulted ==> a.next == c
    // a fresh read: the result is the new prev_res, and the window restarts when there is one
    ensures a.consulted ==>
              a.close == FromSensor(reading)
              && a.next == c.(prevRes := a.close,
                              readTimePre := if c.timeout > 0 then stored else c.readTimePre)
    ensures a.next.readTimePre >= c.readTimePre && a.next.readTimePre <= stored
    ensures (c.prevRes == 0 || c.prevRes == 1) ==>
              (a.close == 0 || a.close == 1) && (a.next.prevRes == 0 || a.next.prevRes == 1)
  {
    if c.enabled == 0 then Answer(c, 0, false)
    else if !c.sensorPresent then Answer(c, 0, false)
    else if c.screenOn == 0 then
      if c.timeout > 0 && now - c.readTimePre < c.timeout as int then
        Answer(c, c.prevRes, false)
      else
        var c1 := if c.timeout > 0 then c.(readTimePre := stored) else c;
        if c1.enabled != 0 then
          if reading == 1 then Answer(c1.(prevRes := 0), 0, true)
          else Answer(c1.(prevRes := 1), 1, true)
        else
          Answer(c1, 0, false)
    else
      Answer(c, 0, false)
  }

  /**
   * Result and cache agree: right after a sensor read with a window, a
   * second query inside the window returns the same value without reading.
   */
  lemma RepeatWithinWindow(c: Cache, now: nat, stored: nat, later: nat, laterStored: nat, r1: int, r2: int)
    requires now >= c.readTimePre && stored >= now
    requires c.timeout > 0
    requires Query(c, now, stored, r1).consulted
    requires stored <= later < stored + c.timeout as int && laterStored >= later
    ensures var a := Query(c, now, stored, r1);
            Query(a.next, later, laterStored, r2) == Answer(a.next, a.close, false)
  {
  }

  /** With a zero window every screen-off query reads the sensor, and read_time_pre is never moved. */
  lemma ZeroTimeoutAlwaysReads(c: Cache, now: nat, stored: nat, reading: int)
    requires now >= c.readTimePre && stored >= now
    requires c.timeout == 0
    requires !Guarded(c)
    ensures Query(c, now, stored, reading).consulted
    ensures Query(c, now, stored, reading).next.readTimePre == c.readTimePre
  {
  }

  /**
   * nasa_proximity_set: the parse result is not checked and `val` starts at
   * 0, so an unparseable write disables; other values than 0 and 1 are ignored.
   */
  function StoreEnable(cur: u32, parsed: Option<u32>): (v: u32)
    ensures parsed.None? ==> v == 0
    ensures parsed.Some? && parsed.value <= 1 ==> v == parsed.value
    ensures parsed.Some? && parsed.value > 1 ==> v == cur
  {
    var val := parsed.GetOr(0);
    if val == 0 || val == 1 then val else cur
  }

  /** The switch stays 0 or 1 under every write. */
  lemma StoreEnableKeepsBoolean(cur: u32, parsed: Option<u32>)
    requires cur <= 1
    ensures StoreEnable(cur, parsed) <= 1
  {
  }

  /** nasa_proximity_timeout_set: a successful parse sets any unsigned window, a failed one changes nothing. */
  function StoreTimeout(cur: u32, parsed: Option<u32>): (v: u32)
    ensures parsed.Some? ==> v == parsed.value
    ensures parsed.None? ==> v == cur
  {
    parsed.GetOr(cur)
  }

  /** The module globals of nasa_proximity.c. */
  class Proximity {
    var enabled: u32
    var sensorPresent: bool
    /** Written by the display side. */
    var isScreenOn: int
    var timeout: u32
    var readTimePre: nat
    var prevRes: int
    /** How many times the sensor has been read. */
    ghost var sensorReads: nat

    /**
     * prev_res starts at 0 and is only ever set to 0 or 1, and the switch
     * starts at 0 or 1 and is only ever set to 0 or 1.
     */
    ghost predicate Valid()
      reads this
    {
      (prevRes == 0 || prevRes == 1) && enabled <= 1
    }

    function State(): Cache
      reads this
    {
      Cache(enabled, sensorPresent, isScreenOn, timeout, readTimePre, prevRes)
    }

    /**
     * The static initialisers; `enabledAtBoot` stands for the
     * CONFIG_NASA_PROXIMITY choice and `sensorAtBoot` for whether the
     * init call has installed the sensor check.
     */
    constructor (enabledAtBoot: bool, sensorAtBoot: bool)
      ensures State() == Cache(if enabledAtBoot then 1 else 0, sensorAtBoot, 0, DEFAULT_TIMEOUT, 0, 0)
      ensures sensorReads == 0
      ensures Valid()
    {
      enabled := if enabledAtBoot then 1 else 0;
      sensorPresent := sensorAtBoot;
      isScreenOn := 0;
      timeout := DEFAULT_TIMEOUT;
      readTimePre := 0;
      prevRes := 0;
      sensorReads := 0;
    }

    /**
     * ps_is_close: `now` is the clock reading compared with the window,
     * `stored` the second reading saved in read_time_pre.
     */
    method PsIsClose(now: nat, stored: nat, reading: int) returns (res: int)
      requires Valid()
      requires now >= readTimePre && stored >= now
      modifies this`readTimePre, this`prevRes, this`sensorReads
      ensures Valid()
      ensures res == 0 || res == 1
      ensures var a := Query(old(State()), now, stored, reading);
              res == a.close && State() == a.next
              && sensorReads == old(sensorReads) + (if a.consulted then 1 else 0)
    {
      if enabled == 0 {
        return 0;
      }
      if !sensorPresent {
        return 0;
      }
      if isScreenOn == 0 {
        if timeout > 0 {
          if now - readTimePre < timeout as int {
            return prevRes;
          }
          readTimePre := stored;
        }
        if enabled != 0 {
          sensorReads := sensorReads + 1;
          if reading == 1 {
            prevRes := 0;
            return 0;
          } else {
            prevRes := 1;
            return 1;
          }
        }
      }
      return 0;
    }

    /** nasa_proximity_set. */
    method NasaProximitySet(parsed: Option<u32>, size: nat) returns (n: nat)
      modifies this`enabled
      ensures old(Valid()) ==> Valid()
      ensures n == size
      ensures enabled == StoreEnable(old(enabled), parsed)
    {
      var val: u32 := 0;
      if parsed.Some? {
        val := parsed.value;
      }
      if val == 0 || val == 1 {
        enabled := val;
      }
      n := size;
    }

    /** nasa_proximity_timeout_set. */
    method NasaProximityTimeoutSet(parsed: Option<u32>, size: nat) returns (n: nat)
      modifies this`timeout
      ensures old(Valid()) ==> Valid()
      ensures n == size
      ensures timeout == StoreTimeout(old(timeout), parsed)
    {
      if parsed.Some? {
        timeout := parsed.value;
      }
      n := size;
    }
  }
}
