/** How each channel turns the raw sensor results of one loop step into the
    number that is displayed. The sensor drivers themselves are not modelled:
    their results arrive as a `Sensors` value. */
module Acquisition {
  import opened Channels
  import opened Paging

  /** Tuning factor of the temperature compensation. */
  const Factor: real := 2.25

  /** Length of the CPU temperature smoothing window. */
  const CpuWindow: nat := 5

  /** Proximity below which the light sensor is considered unobstructed. */
  const LightClear: int := 10

  /** Value reported for light while the sensor is obstructed. */
  const LightSentinel: real := 1.0

  /** The results of the sensor reads a loop step may make. */
  datatype Sensors = Sensors(
    temperature: real,  // BME280 temperature, degrees C
    pressure: real,     // BME280 pressure, hPa
    humidity: real,     // BME280 relative humidity, %
    lux: real,          // LTR559 ambient light
    oxidising: real,    // MICS6814 oxidising resistance, ohms
    reducing: real,     // MICS6814 reducing resistance, ohms
    nh3: real           // MICS6814 NH3 resistance, ohms
  )

  /** `raw - (avg - raw) / factor` for a positive tuning factor `f`: push the
      sensor reading away from the (warmer) CPU temperature that heats the
      board. */
  function CompensateWith(raw: real, avgCpu: real, f: real): (t: real)
    requires f > 0.0
    ensures avgCpu > raw ==> t < raw
    ensures avgCpu < raw ==> t > raw
    ensures avgCpu == raw ==> t == raw
  {
    raw - (avgCpu - raw) / f
  }

  /** The compensation with the script's factor. */
  function Compensate(raw: real, avgCpu: real): (t: real)
    ensures avgCpu > raw ==> t < raw
    ensures avgCpu < raw ==> t > raw
    ensures avgCpu == raw ==> t == raw
  {
    CompensateWith(raw, avgCpu, Factor)
  }

  /** While the CPU is warmer than the sensor, a smaller factor adjusts the
      temperature down and a larger one adjusts it up. */
  lemma FactorTunesWarm(raw: real, avgCpu: real, f1: real, f2: real)
    requires 0.0 < f1 < f2 && avgCpu > raw
    ensures CompensateWith(raw, avgCpu, f1) < CompensateWith(raw, avgCpu, f2)
  {
    assert (avgCpu - raw) / f2 < (avgCpu - raw) / f1;
  }

  /** While the CPU is cooler than the sensor the factor acts the other way:
      a smaller factor adjusts the temperature up. */
  lemma FactorTunesCool(raw: real, avgCpu: real, f1: real, f2: real)
    requires 0.0 < f1 < f2 && avgCpu < raw
    ensures CompensateWith(raw, avgCpu, f1) > CompensateWith(raw, avgCpu, f2)
  {
    assert (avgCpu - raw) / f1 < (avgCpu - raw) / f2;
  }

  /** The raw reading that compensates to `t` against `avgCpu`. */
  function Uncompensate(t: real, avgCpu: real): (raw: real)
  {
    (t * Factor + avgCpu) / (Factor + 1.0)
  }

  /** The compensation is invertible for a fixed CPU average, so it loses no
      information about the raw reading. */
  lemma CompensateRoundTrip(raw: real, t: real, avgCpu: real)
    ensures Uncompensate(Compensate(raw, avgCpu), avgCpu) == raw
    ensures Compensate(Uncompensate(t, avgCpu), avgCpu) == t
  {
  }

  /** Raw 22.0 against a CPU average of 32.25 compensates to 157/9 = 17.444... */
  lemma CompensateExample()
    ensures Compensate(22.0, 32.25) == 157.0 / 9.0
  {
  }

  /** The light rule: lux while nothing is near the sensor, the sentinel 1
      otherwise. */
  function LightReading(proximity: int, lux: real): (r: real)
    ensures proximity < LightClear ==> r == lux
    ensures proximity >= LightClear ==> r == LightSentinel
  {
    if proximity < LightClear then lux else LightSentinel
  }

  /** A hand close enough to page the display always hides the light sensor,
      so a tap step on the light channel reports the sentinel. */
  lemma TapHidesLight(proximity: int, lux: real)
    requires proximity > Threshold
    ensures LightReading(proximity, lux) == LightSentinel
  {
  }

  /** Ohms to kilo-ohms: `/ 1000`. */
  function KiloOhms(ohms: real): (k: real)
    ensures k * 1000.0 == ohms
  {
    ohms / 1000.0
  }

  /** The number a channel displays, given the sensor results of the step,
      the proximity read at its start, and the smoothed CPU temperature. */
  function Reading(c: Channel, s: Sensors, proximity: int, avgCpu: real): (r: real)
    ensures c == Temperature ==> r == Compensate(s.temperature, avgCpu)
    ensures c == Pressure ==> r == s.pressure
    ensures c == Humidity ==> r == s.humidity
    ensures c == Light ==> r == LightReading(proximity, s.lux)
    ensures c == Oxidised ==> r * 1000.0 == s.oxidising
    ensures c == Reduced ==> r * 1000.0 == s.reducing
    ensures c == Nh3 ==> r * 1000.0 == s.nh3
  {
    match c
    case Temperature => Compensate(s.temperature, avgCpu)
    case Pressure => s.pressure
    case Humidity => s.humidity
    case Light => LightReading(proximity, s.lux)
    case Oxidised => KiloOhms(s.oxidising)
    case Reduced => KiloOhms(s.reducing)
    case Nh3 => KiloOhms(s.nh3)
  }
}
