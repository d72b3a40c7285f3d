/** The oximeter step (client/src/patient/Services/oximeter.jsx) and the results page
    (client/src/patient/Services/results.jsx): the demo SpO2 and pulse values, their
    labels and the red flags. `Math.random()` is a parameter in [0, 1). */
module Vitals {
  import opened Wrappers

  const SpO2Normal := 95
  const PulseLow := 60
  const PulseHigh := 100

  /** The reading shown before the first measurement. */
  const InitialSpO2 := 98
  const InitialPulse := 72

  /** `Math.floor(random * 6) + 95`. */
  function GeneratedSpO2(random: real): (spo2: int)
    requires 0.0 <= random < 1.0
    ensures 95 <= spo2 <= 100
  {
    (random * 6.0).Floor + 95
  }

  /** `Math.floor(random * 40) + 60`: the largest value is 99, not the 100 the comment
      beside it names. */
  function GeneratedPulse(random: real): (pulse: int)
    requires 0.0 <= random < 1.0
    ensures 60 <= pulse <= 99
  {
    (random * 40.0).Floor + 60
  }

  /** Every value in the documented ranges is generated by some random number. */
  lemma GeneratedRangesAreCovered(spo2: int, pulse: int)
    requires 95 <= spo2 <= 100 && 60 <= pulse <= 99
    ensures GeneratedSpO2((spo2 - 95) as real / 6.0) == spo2
    ensures GeneratedPulse((pulse - 60) as real / 40.0) == pulse
  {
    assert ((spo2 - 95) as real / 6.0) * 6.0 == (spo2 - 95) as real;
    assert ((pulse - 60) as real / 40.0) * 40.0 == (pulse - 60) as real;
  }

  function SpO2Label(spo2: int): (text: string)
    ensures text == "Below Normal" <==> spo2 < SpO2Normal
    ensures text == "Normal" <==> spo2 >= SpO2Normal
  {
    if spo2 < SpO2Normal then "Below Normal" else "Normal"
  }

  function PulseLabel(pulse: int): (text: string)
    ensures text == "Low" <==> pulse < PulseLow
    ensures text == "High" <==> pulse > PulseHigh
    ensures text == "Normal" <==> PulseLow <= pulse <= PulseHigh
  {
    if pulse < PulseLow then "Low" else if pulse > PulseHigh then "High" else "Normal"
  }

  /** The colour class of each label on the oximeter page. */
  function SpO2LabelClass(spo2: int): string {
    if spo2 < SpO2Normal then "text-red-500" else "text-green-500"
  }

  function PulseLabelClass(pulse: int): string {
    if pulse < PulseLow || pulse > PulseHigh then "text-red-500" else "text-green-500"
  }

  /** A label is red exactly when it is not "Normal". */
  lemma RedIffNotNormal(spo2: int, pulse: int)
    ensures SpO2LabelClass(spo2) == "text-red-500" <==> SpO2Label(spo2) != "Normal"
    ensures PulseLabelClass(pulse) == "text-red-500" <==> PulseLabel(pulse) != "Normal"
  {
  }

  /** Generated readings, and the initial one, are labelled Normal on both counts; "High"
      in particular never appears. */
  lemma DemoReadingsAreNormal(r1: real, r2: real)
    requires 0.0 <= r1 < 1.0 && 0.0 <= r2 < 1.0
    ensures SpO2Label(GeneratedSpO2(r1)) == "Normal" && PulseLabel(GeneratedPulse(r2)) == "Normal"
    ensures SpO2Label(InitialSpO2) == "Normal" && PulseLabel(InitialPulse) == "Normal"
  {
  }

  /** The measurements the results page shows. */
  datatype Measurements = Measurements(
    heightCm: real, heightFeet: string, weightKg: real, celsius: real, fahrenheit: real,
    spo2: int, pulse: int)

  const Defaults := Measurements(175.0, "5'9\"", 68.0, 36.5, 97.7, 98, 72)

  /** `location.state || {...}`: the route state when there is one (any object is
      truthy), the sample values otherwise. */
  function Shown(state: Option<Measurements>): (m: Measurements)
    ensures state.None? ==> m == Defaults
    ensures state.Some? ==> m == state.value
  {
    if state.Some? then state.value else Defaults
  }

  /** The red flags on the results page. */
  predicate SpO2Flagged(spo2: int) {
    spo2 < 95
  }

  predicate PulseFlagged(pulse: int) {
    pulse < 60 || pulse > 100
  }

  /** The results page and the oximeter page agree: a value is flagged on one exactly
      when the other labels it other than "Normal". Without route state nothing is
      flagged. */
  lemma ResultsAgreeWithOximeter(spo2: int, pulse: int)
    ensures SpO2Flagged(spo2) <==> SpO2Label(spo2) != "Normal"
    ensures PulseFlagged(pulse) <==> PulseLabel(pulse) != "Normal"
    ensures !SpO2Flagged(Shown(None).spo2) && !PulseFlagged(Shown(None).pulse)
  {
  }
}
