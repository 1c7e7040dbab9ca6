/**
  The key-value store behind UserDefaults and @AppStorage, as far as the
  view models use it. Dates are day numbers. The care-plan preferences slot
  holds the decoded value, or None when nothing decodable is stored.
 */
module Defaults {
  import opened Wrappers
  import opened Preferences

  /** The key shared by the care-plan and readiness monthly resets. */
  const LastResetKey := "lastResetDate"

  class UserDefaults {
    var dates: map<string, int>
    var carePlanPreferences: Option<CarePlanPreferences>

    constructor(dates: map<string, int>, carePlanPreferences: Option<CarePlanPreferences>)
      ensures this.dates == dates && this.carePlanPreferences == carePlanPreferences
    {
      this.dates := dates;
      this.carePlanPreferences := carePlanPreferences;
    }
  }

  /** `object(forKey:) as? Date`: the stored date, if any. */
  function DateFor(dates: map<string, int>, key: string): (d: Option<int>)
    ensures d.Some? <==> key in dates
    ensures d.Some? ==> d.value == dates[key]
  {
    if key in dates then Some(dates[key]) else None
  }

  /**
    The test both monthly resets make: no reset date is stored, or it lies in
    another calendar month than `now`. `monthOf` stands for the calendar's
    month of a day number.
   */
  predicate NeedsMonthlyReset(dates: map<string, int>, now: int, monthOf: int -> int)
  {
    LastResetKey !in dates || monthOf(dates[LastResetKey]) != monthOf(now)
  }
}
