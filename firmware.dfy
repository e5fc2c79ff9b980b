/**
 * The ESP32 firmware's `loop()` (src/main.cpp): read gas, temperature and
 * humidity; skip the tick when the DHT22 returns NaN; otherwise light the
 * LED and sound the buzzer exactly when the reading is dangerous. The
 * drivers are left out: the readings are inputs, and the LED level and
 * the buzzer's PWM duty are the two fields the tick writes.
 */
module Firmware {

  import opened Wrappers

  const GasDanger: int := 2000
  const TempDanger: real := 40.0
  /** The PWM duty written to the 8-bit buzzer channel when sounding. */
  const BuzzerDuty: int := 128

  /** The firmware's danger rule; humidity plays no part in it. */
  predicate IsDanger(gasValue: int, temperature: real): (d: bool)
    ensures gasValue == GasDanger && temperature == TempDanger ==> !d
    ensures gasValue == GasDanger + 1 ==> d
  {
    gasValue > GasDanger || temperature > TempDanger
  }

  /** The two outputs: LED level (HIGH is true) and buzzer duty. */
  datatype Outputs = Outputs(led: bool, duty: int)

  /** LED and buzzer agree: the LED is lit exactly while the buzzer sounds. */
  predicate Agree(o: Outputs)
  {
    (o.led <==> o.duty != 0) && (o.duty == 0 || o.duty == BuzzerDuty)
  }

  /** One reading as the loop obtains it; `None` is a NaN from the DHT22. */
  datatype Reading = Reading(gasValue: int, temperature: Option<real>, humidity: Option<real>)

  predicate Usable(r: Reading)
  {
    r.temperature.Some? && r.humidity.Some?
  }

  /** The outputs after one pass of `loop()` from the outputs `prev`. */
  function Step(prev: Outputs, r: Reading): (o: Outputs)
    ensures !Usable(r) ==> o == prev
    ensures Usable(r) ==> Agree(o) && (o.led <==> IsDanger(r.gasValue, r.temperature.value))
  {
    if !Usable(r) then prev
    else if IsDanger(r.gasValue, r.temperature.value) then Outputs(true, BuzzerDuty)
    else Outputs(false, 0)
  }

  /**
   * The limits are strict: gas 2000 and 40.0 degrees exactly are normal,
   * one step above either is danger.
   */
  lemma DangerBoundaries(gasValue: int, temperature: real)
    ensures !IsDanger(2000, 40.0)
    ensures IsDanger(2001, temperature) && IsDanger(gasValue, 40.5)
    ensures gasValue <= 2000 && temperature <= 40.0 ==> !IsDanger(gasValue, temperature)
  {
  }

  /** Changing humidity alone never changes the outputs of a usable tick. */
  lemma HumidityIgnored(prev: Outputs, gasValue: int, temperature: real, h1: real, h2: real)
    ensures Step(prev, Reading(gasValue, Some(temperature), Some(h1))) ==
            Step(prev, Reading(gasValue, Some(temperature), Some(h2)))
  {
  }

  /**
   * The outputs after the readings `rs`, one pass of `loop()` each. A
   * usable final reading decides them whatever came before.
   */
  function Run(prev: Outputs, rs: seq<Reading>): (o: Outputs)
    ensures rs == [] ==> o == prev
    ensures rs != [] && Usable(rs[|rs| - 1]) ==> o == Step(prev, rs[|rs| - 1])
  {
    if rs == [] then prev else Step(Run(prev, rs[..|rs| - 1]), rs[|rs| - 1])
  }

  /** The most recent usable reading among `rs`, if any. */
  function LastUsable(rs: seq<Reading>): (r: Option<Reading>)
    ensures r.None? <==> forall i :: 0 <= i < |rs| ==> !Usable(rs[i])
    ensures r.Some? ==> Usable(r.value)
    ensures r.Some? ==>
      exists i :: 0 <= i < |rs| && rs[i] == r.value && forall j :: i < j < |rs| ==> !Usable(rs[j])
  {
    if rs == [] then None
    else if Usable(rs[|rs| - 1]) then Some(rs[|rs| - 1])
    else LastUsable(rs[..|rs| - 1])
  }

  /**
   * After any number of passes the outputs are those chosen for the most
   * recent usable reading, or the starting outputs when every read failed.
   */
  lemma {:induction false} RunFollowsLastUsable(prev: Outputs, rs: seq<Reading>)
    ensures LastUsable(rs).None? ==> Run(prev, rs) == prev
    ensures LastUsable(rs).Some? ==>
      Run(prev, rs) == Step(prev, LastUsable(rs).value)
  {
    if rs != [] {
      RunFollowsLastUsable(prev, rs[..|rs| - 1]);
    }
  }

  /** Agreement of LED and buzzer holds after any number of passes. */
  lemma {:induction false} RunKeepsAgreement(prev: Outputs, rs: seq<Reading>)
    requires Agree(prev)
    ensures Agree(Run(prev, rs))
  {
    if rs != [] {
      RunKeepsAgreement(prev, rs[..|rs| - 1]);
    }
  }

  /** The board: the LED pin level and the buzzer channel's duty. */
  class Board {
    var led: bool
    var duty: int

    function Snapshot(): Outputs
      reads this
    {
      Outputs(led, duty)
    }

    ghost predicate Valid()
      reads this
    {
      Agree(Snapshot())
    }

    /**
     * After `setup()`. It never writes either output: LED LOW and duty 0
     * are the reset state of the output pin and the PWM channel it
     * configures.
     */
    constructor ()
      ensures Valid()
      ensures !led && duty == 0
    {
      led := false;
      duty := 0;
    }

    /** One pass of `loop()` on the given reading. */
    method Loop(gasValue: int, temperature: Option<real>, humidity: Option<real>)
      requires Valid()
      modifies this
      ensures Valid()
      ensures temperature.None? || humidity.None? ==> led == old(led) && duty == old(duty)
      ensures temperature.Some? && humidity.Some? ==>
        led == IsDanger(gasValue, temperature.value) && duty == (if led then BuzzerDuty else 0)
      ensures Snapshot() == Step(old(Snapshot()), Reading(gasValue, temperature, humidity))
    {
      if temperature.None? || humidity.None? {
        return;
      }
      if gasValue > GasDanger || temperature.value > TempDanger {
        led := true;
        duty := BuzzerDuty;
      } else {
        led := false;
        duty := 0;
      }
    }
  }
}
