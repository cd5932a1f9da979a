/**
  The steering angle multiplier set from the settings UI. The setter ignores a value
  equal to the stored one; otherwise it stores the value clamped to
  [0.01, slider maximum] and raises the change event with the value as given. The
  guard compares the raw value with the clamped store, so an out-of-range value
  raises the event again each time it is set.
 */
module AngleMultiplier {
  import opened Common

  const MinMultiplier := 0.01

  /** `current` is the stored multiplier, `maxValue` the slider's maximum. */
  datatype AngleMultiplier = AngleMultiplier(current: real, maxValue: real)

  /** The setter's outcome: the new store and the value the change event received, if raised. */
  datatype Set = Set(state: AngleMultiplier, event: Option<real>)

  function Init(maxValue: real): (a: AngleMultiplier)
    ensures a.current == 1.0 && a.maxValue == maxValue
  {
    AngleMultiplier(1.0, maxValue)
  }

  function SetCurrent(a: AngleMultiplier, value: real): (r: Set)
    ensures r.state.maxValue == a.maxValue
    ensures value == a.current ==> r == Set(a, None)
    ensures value != a.current ==> r.event == Some(value)
    ensures value != a.current ==> r.state.current == Clamp(value, MinMultiplier, a.maxValue)
    ensures value != a.current && MinMultiplier <= a.maxValue ==> MinMultiplier <= r.state.current <= a.maxValue
  {
    if a.current == value then Set(a, None)
    else Set(a.(current := Clamp(value, MinMultiplier, a.maxValue)), Some(value))
  }

  /** Setting an in-range value twice changes nothing the second time and raises no second event. */
  lemma InRangeSetIsIdempotent(a: AngleMultiplier, value: real)
    requires MinMultiplier <= value <= a.maxValue
    ensures SetCurrent(SetCurrent(a, value).state, value) == Set(SetCurrent(a, value).state, None)
  {
  }

  /** An out-of-range value is stored clamped, so setting it again raises the event again. */
  lemma OutOfRangeSetFiresAgain(a: AngleMultiplier, value: real)
    requires MinMultiplier <= a.maxValue
    requires value < MinMultiplier || value > a.maxValue
    requires value != a.current
    ensures SetCurrent(SetCurrent(a, value).state, value).event == Some(value)
    ensures SetCurrent(SetCurrent(a, value).state, value).state == SetCurrent(a, value).state
  {
  }
}
