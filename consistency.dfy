/**
 * How the three variants' thresholds relate. The firmware raises its
 * alarm at gas 2000 while the simulator calls gas up to 3000 only a
 * warning, and the live dashboard colours temperatures red above 30
 * degrees while the firmware waits for above 40.
 */
module Consistency {

  import opened Display
  import Simulator
  import Firmware
  import LiveDashboard

  /**
   * Every reading the simulator calls critical sounds the firmware alarm,
   * and every reading that sounds it is at least a simulator warning.
   */
  lemma FirmwareBetweenWarningAndCritical(temp: real, humi: real, gas: int)
    ensures Simulator.Classify(temp, humi, gas) == Simulator.Critical ==> Firmware.IsDanger(gas, temp)
    ensures Firmware.IsDanger(gas, temp) ==> Simulator.Classify(temp, humi, gas) != Simulator.Normal
  {
  }

  /** Gas 2500 at room temperature: firmware danger, simulator warning only. */
  lemma GasWarningIsFirmwareDanger()
    ensures Firmware.IsDanger(2500, 25.0)
    ensures Simulator.Classify(25.0, 50.0, 2500) == Simulator.Warning
  {
  }

  /** A temperature that alarms the firmware always shows red on the live dashboard. */
  lemma FirmwareHeatShowsRed(temp: real)
    requires temp > Firmware.TempDanger
    ensures LiveDashboard.TempColour(temp) == Red
    ensures Simulator.TempColour(temp) == Red
  {
  }
}
