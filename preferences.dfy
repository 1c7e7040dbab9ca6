/** The care-plan preferences record (Sources/CarePlanModel.swift, CarePlanPreferences). */
module Preferences {

  /** The comfort a person prefers; its string is the enum's raw value. */
  datatype ComfortType = Hug | Space | Distraction | Talk {
    function RawValue(): string {
      match this
      case Hug => "A warm hug"
      case Space => "Some quiet space"
      case Distraction => "A gentle distraction"
      case Talk => "Someone to talk to"
    }
  }

  datatype CarePlanPreferences = CarePlanPreferences(
    comfortPreference: ComfortType,
    topHelps: seq<string>,
    topAvoids: seq<string>,
    redFlags: seq<string>)
}
