/**
  The readiness checklist of ReadinessCheckView.swift: seven fixed
  (name, icon, checked) rows, a tap that flips one row, and a monthly reset
  that shares the stored reset date with the care plan.
 */
module Readiness {
  import opened Wrappers
  import opened Defaults
  import CarePlan

  type Row = (string, string, bool)

  /** The rows the view model starts with. */
  function DefaultItems(): (items: seq<Row>)
    ensures |items| == 7
    ensures forall i :: 0 <= i < |items| ==> !items[i].2
  {
    [("Pills", "cross.case.fill", false),
     ("Heating Bag", "flame.fill", false),
     ("Warm Water", "drop.fill", false),
     ("Sanitary Products", "heart.circle.fill", false),
     ("Disposable Bags", "bag.fill", false),
     ("Comfort Snacks", "heart.fill", false),
     ("Warm Drinks", "cup.and.saucer.fill", false)]
  }

  /** The same rows with every flag cleared. */
  predicate IsClearedCopy(items: seq<Row>, before: seq<Row>)
  {
    && |items| == |before|
    && forall i :: 0 <= i < |items| ==> items[i] == (before[i].0, before[i].1, false)
  }

  class ReadinessViewModel {
    var items: seq<Row>

    /** `init()`: the default rows, then `resetIfNeeded`. */
    constructor(defaults: UserDefaults, now: int, monthOf: int -> int)
      modifies defaults`dates
      ensures items == DefaultItems()
      ensures !NeedsMonthlyReset(defaults.dates, now, monthOf)
      ensures old(NeedsMonthlyReset(defaults.dates, now, monthOf)) ==> defaults.dates == old(defaults.dates)[LastResetKey := now]
      ensures !old(NeedsMonthlyReset(defaults.dates, now, monthOf)) ==> defaults.dates == old(defaults.dates)
    {
      items := DefaultItems();
      new;
      ResetIfNeeded(defaults, now, monthOf);
      ClearingUncheckedIsIdentity(items, DefaultItems());
    }

    /** `resetIfNeeded`: reset when no reset date is stored or it lies in another month. */
    method ResetIfNeeded(defaults: UserDefaults, now: int, monthOf: int -> int)
      modifies this`items, defaults`dates
      ensures !NeedsMonthlyReset(defaults.dates, now, monthOf)
      ensures old(NeedsMonthlyReset(defaults.dates, now, monthOf)) ==>
        defaults.dates == old(defaults.dates)[LastResetKey := now] && IsClearedCopy(items, old(items))
      ensures !old(NeedsMonthlyReset(defaults.dates, now, monthOf)) ==>
        defaults.dates == old(defaults.dates) && items == old(items)
    {
      var last := DateFor(defaults.dates, LastResetKey);
      if last.Some? {
        if monthOf(last.value) != monthOf(now) {
          ResetChecklist(defaults, now);
        }
      } else {
        ResetChecklist(defaults, now);
      }
    }

    /** `resetChecklist`: clear every flag, keep names, icons and order; store `now`. */
    method ResetChecklist(defaults: UserDefaults, now: int)
      modifies this`items, defaults`dates
      ensures defaults.dates == old(defaults.dates)[LastResetKey := now]
      ensures IsClearedCopy(items, old(items))
    {
      items := seq(|items|, i requires 0 <= i < |items| reads this => (items[i].0, items[i].1, false));
      defaults.dates := defaults.dates[LastResetKey := now];
    }

    /** The tap on a `ChecklistItem`, bound to `items[index].2`. */
    method ToggleRow(index: int)
      requires 0 <= index < |items|
      modifies this`items
      ensures |items| == |old(items)|
      ensures items[index] == (old(items)[index].0, old(items)[index].1, !old(items)[index].2)
      ensures forall j :: 0 <= j < |items| && j != index ==> items[j] == old(items)[j]
    {
      items := items[index := (items[index].0, items[index].1, !items[index].2)];
    }
  }

  /** Clearing rows that are all unchecked changes nothing. */
  lemma ClearingUncheckedIsIdentity(items: seq<Row>, before: seq<Row>)
    requires IsClearedCopy(items, before)
    requires forall i :: 0 <= i < |before| ==> !before[i].2
    ensures items == before
  {
    assert forall i :: 0 <= i < |items| ==> items[i] == before[i];
  }

  /** Clearing twice is clearing once. */
  lemma ClearingIsIdempotent(once: seq<Row>, twice: seq<Row>, before: seq<Row>)
    requires IsClearedCopy(once, before)
    requires IsClearedCopy(twice, once)
    ensures twice == once
  {
    assert forall i :: 0 <= i < |twice| ==> twice[i] == once[i];
  }

  /**
    The reset date is shared: once either checklist has reset in a month, a
    later `resetIfNeeded` in that month resets neither of them.
   */
  lemma SharedResetDate(dates: map<string, int>, resetDay: int, now: int, monthOf: int -> int)
    requires monthOf(resetDay) == monthOf(now)
    ensures !NeedsMonthlyReset(dates[LastResetKey := resetDay], now, monthOf)
  {
  }

  /**
    The care plan's screen resets first; the readiness screen, opened later in
    the same month, then finds the shared date fresh and keeps its rows, and
    the store holds at most the care plan's one write.
   */
  method SharedMonthlyReset(cp: CarePlan.CarePlanViewModel, rv: ReadinessViewModel, defaults: UserDefaults,
                            now: int, later: int, monthOf: int -> int)
    requires monthOf(later) == monthOf(now)
    modifies cp`checklistItems, rv`items, defaults`dates
    ensures rv.items == old(rv.items)
    ensures old(NeedsMonthlyReset(defaults.dates, now, monthOf)) ==> defaults.dates == old(defaults.dates)[LastResetKey := now]
    ensures !old(NeedsMonthlyReset(defaults.dates, now, monthOf)) ==> defaults.dates == old(defaults.dates)
  {
    cp.ResetIfNeeded(defaults, now, monthOf);
    rv.ResetIfNeeded(defaults, later, monthOf);
  }
}
