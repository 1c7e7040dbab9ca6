/**
  The care-plan checklist of Sources/CarePlanModel.swift: a list of
  (text, checked) items built from the saved preferences, toggled in place and
  unchecked once a month.
 */
module CarePlan {
  import opened Wrappers
  import opened Preferences
  import opened Defaults

  type Item = (string, bool)

  const RememberLabel := "Remember: "
  const WatchLabel := "\U{26A0}\U{FE0F} Watch for: "
  /** `prefix(3)` on the helps and on the red flags. */
  const ShownPerList := 3

  /** Swift's `prefix(n)`: the first `n` elements, or all of them when there are fewer. */
  function Prefix(xs: seq<string>, n: nat): (p: seq<string>)
    ensures |p| == if |xs| <= n then |xs| else n
    ensures p == xs[..|p|]
  {
    if |xs| <= n then xs else xs[..n]
  }

  /**
    The unchecked items `lead + t` for the non-empty texts `t`, in their order
    (a loop `for t in texts where !t.isEmpty` appending `(lead + t, false)`).
   */
  function Entries(texts: seq<string>, lead: string): seq<Item>
  {
    if |texts| == 0 then []
    else
      var last := texts[|texts| - 1];
      Entries(texts[..|texts| - 1], lead) + (if last != "" then [(lead + last, false)] else [])
  }

  /** The checklist `generateChecklistItems` builds for the loaded preferences. */
  function Checklist(prefs: Option<CarePlanPreferences>): seq<Item>
  {
    match prefs
    case None => []
    case Some(p) =>
      [(RememberLabel + p.comfortPreference.RawValue(), false)]
      + Entries(Prefix(p.topHelps, ShownPerList), "")
      + Entries(Prefix(p.redFlags, ShownPerList), WatchLabel)
  }

  /** Toggling item `index`: only when the index is below the count. */
  function Toggled(items: seq<Item>, index: nat): (r: seq<Item>)
    ensures |r| == |items|
    ensures forall j :: 0 <= j < |r| && j != index ==> r[j] == items[j]
    ensures index < |items| ==> r[index] == (items[index].0, !items[index].1)
  {
    if index < |items| then items[index := (items[index].0, !items[index].1)] else items
  }

  /** One more text: its entry, if it is not empty, goes at the end. */
  lemma EntriesStep(texts: seq<string>, k: nat, lead: string)
    requires k < |texts|
    ensures Entries(texts[..k + 1], lead) ==
      Entries(texts[..k], lead) + (if texts[k] != "" then [(lead + texts[k], false)] else [])
  {
    assert texts[..k + 1][..k] == texts[..k];
  }

  class CarePlanViewModel {
    var preferences: Option<CarePlanPreferences>
    var checklistItems: seq<Item>

    /** `init()`: load the preferences, build the checklist, reset it if a new month began. */
    constructor(defaults: UserDefaults, now: int, monthOf: int -> int)
      modifies defaults`dates
      ensures preferences == defaults.carePlanPreferences
      ensures checklistItems == Checklist(preferences)
      ensures !NeedsMonthlyReset(defaults.dates, now, monthOf)
      ensures old(NeedsMonthlyReset(defaults.dates, now, monthOf)) ==> defaults.dates == old(defaults.dates)[LastResetKey := now]
      ensures !old(NeedsMonthlyReset(defaults.dates, now, monthOf)) ==> defaults.dates == old(defaults.dates)
    {
      preferences := defaults.carePlanPreferences;
      checklistItems := [];
      new;
      GenerateChecklistItems();
      ChecklistUnchecked(preferences);
      ResetIfNeeded(defaults, now, monthOf);
    }

    /** `generateChecklistItems`. */
    method GenerateChecklistItems()
      modifies this`checklistItems
      ensures checklistItems == Checklist(preferences)
    {
      if preferences.None? {
        checklistItems := [];
        return;
      }
      var prefs := preferences.value;
      var reminder := [(RememberLabel + prefs.comfortPreference.RawValue(), false)];
      var items: seq<Item> := reminder;
      var helps := Prefix(prefs.topHelps, ShownPerList);
      for k := 0 to |helps|
        invariant items == reminder + Entries(helps[..k], "")
      {
        EntriesStep(helps, k, "");
        if helps[k] != "" {
          items := items + [("" + helps[k], false)];
        }
      }
      assert helps[..|helps|] == helps;
      var head := items;
      var flags := Prefix(prefs.redFlags, ShownPerList);
      for k := 0 to |flags|
        invariant items == head + Entries(flags[..k], WatchLabel)
      {
        EntriesStep(flags, k, WatchLabel);
        if flags[k] != "" {
          items := items + [(WatchLabel + flags[k], false)];
        }
      }
      assert flags[..|flags|] == flags;
      checklistItems := items;
    }

    /** `savePreferences`: keep and store the new preferences, then rebuild the list. */
    method SavePreferences(newPreferences: CarePlanPreferences, defaults: UserDefaults)
      modifies this, defaults`carePlanPreferences
      ensures preferences == Some(newPreferences)
      ensures defaults.carePlanPreferences == Some(newPreferences)
      ensures checklistItems == Checklist(Some(newPreferences))
      ensures forall i :: 0 <= i < |checklistItems| ==> !checklistItems[i].1
    {
      preferences := Some(newPreferences);
      defaults.carePlanPreferences := Some(newPreferences);
      GenerateChecklistItems();
      ChecklistUnchecked(preferences);
    }

    /** `resetIfNeeded`: reset when no reset date is stored or it lies in another month. */
    method ResetIfNeeded(defaults: UserDefaults, now: int, monthOf: int -> int)
      modifies this`checklistItems, defaults`dates
      ensures !NeedsMonthlyReset(defaults.dates, now, monthOf)
      ensures old(NeedsMonthlyReset(defaults.dates, now, monthOf)) ==>
        && defaults.dates == old(defaults.dates)[LastResetKey := now]
        && |checklistItems| == |old(checklistItems)|
        && forall i :: 0 <= i < |checklistItems| ==> checklistItems[i] == (old(checklistItems)[i].0, false)
      ensures !old(NeedsMonthlyReset(defaults.dates, now, monthOf)) ==>
        defaults.dates == old(defaults.dates) && checklistItems == old(checklistItems)
    {
      var last := DateFor(defaults.dates, LastResetKey);
      if last.Some? {
        if monthOf(last.value) != monthOf(now) {
          ResetChecklist(defaults, now);
        }
      } else {
        ResetChecklist(defaults, now);
      }
    }

    /** `resetChecklist`: uncheck every item and store `now` as the reset date. */
    method ResetChecklist(defaults: UserDefaults, now: int)
      modifies this`checklistItems, defaults`dates
      ensures defaults.dates == old(defaults.dates)[LastResetKey := now]
      ensures |checklistItems| == |old(checklistItems)|
      ensures forall i :: 0 <= i < |checklistItems| ==> checklistItems[i] == (old(checklistItems)[i].0, false)
    {
      checklistItems := seq(|checklistItems|, i requires 0 <= i < |checklistItems| reads this => (checklistItems[i].0, false));
      defaults.dates := defaults.dates[LastResetKey := now];
    }

    /** `toggleItem(at:)`; a negative index would trap in Swift, so it is excluded. */
    method ToggleItem(index: int)
      requires index >= 0
      modifies this`checklistItems
      ensures checklistItems == Toggled(old(checklistItems), index)
    {
      if index < |checklistItems| {
        checklistItems := checklistItems[index := (checklistItems[index].0, !checklistItems[index].1)];
      }
    }
  }

  // ---------------------------------------------------------------------
  // Properties of the checklist
  // ---------------------------------------------------------------------

  /** There are at most as many entries as texts, and none is checked. */
  lemma {:induction false} EntriesShape(texts: seq<string>, lead: string)
    ensures |Entries(texts, lead)| <= |texts|
    ensures forall i :: 0 <= i < |Entries(texts, lead)| ==> !Entries(texts, lead)[i].1
  {
    if |texts| > 0 {
      EntriesShape(texts[..|texts| - 1], lead);
    }
  }

  /** Every entry is a labelled non-empty text of the list. */
  lemma {:induction false} EntriesComeFromTexts(texts: seq<string>, lead: string)
    ensures forall e :: e in Entries(texts, lead) ==>
      exists j :: 0 <= j < |texts| && texts[j] != "" && e == (lead + texts[j], false)
  {
    if |texts| > 0 {
      var init := texts[..|texts| - 1];
      EntriesComeFromTexts(init, lead);
      forall e | e in Entries(texts, lead)
        ensures exists j :: 0 <= j < |texts| && texts[j] != "" && e == (lead + texts[j], false)
      {
        if e in Entries(init, lead) {
          var j :| 0 <= j < |init| && init[j] != "" && e == (lead + init[j], false);
          assert texts[j] == init[j];
        } else {
          assert e == (lead + texts[|texts| - 1], false);
        }
      }
    }
  }

  /** Every non-empty text appears, labelled and unchecked. */
  lemma {:induction false} EntriesKeepNonEmpty(texts: seq<string>, lead: string)
    ensures forall j :: 0 <= j < |texts| && texts[j] != "" ==> (lead + texts[j], false) in Entries(texts, lead)
  {
    if |texts| > 0 {
      var init := texts[..|texts| - 1];
      EntriesKeepNonEmpty(init, lead);
      forall j | 0 <= j < |texts| && texts[j] != ""
        ensures (lead + texts[j], false) in Entries(texts, lead)
      {
        if j < |init| {
          assert init[j] == texts[j];
        }
      }
    }
  }

  /** The entries of two lists in a row are the entries of the first, then those of the second. */
  lemma {:induction false} EntriesKeepOrder(a: seq<string>, b: seq<string>, lead: string)
    ensures Entries(a + b, lead) == Entries(a, lead) + Entries(b, lead)
    decreases |b|
  {
    if |b| == 0 {
      assert a + b == a;
    } else {
      var b' := b[..|b| - 1];
      assert (a + b)[..|a + b| - 1] == a + b';
      EntriesKeepOrder(a, b', lead);
    }
  }

  /** With no preferences the checklist is empty. */
  lemma NoPreferencesNoChecklist()
    ensures Checklist(None) == []
  {
  }

  /**
    With preferences, the first item is the comfort reminder; then come up to
    three helps and up to three labelled red flags, so at most seven items,
    none checked.
   */
  lemma ChecklistShape(p: CarePlanPreferences)
    ensures |Checklist(Some(p))| >= 1
    ensures Checklist(Some(p))[0] == (RememberLabel + p.comfortPreference.RawValue(), false)
    ensures |Checklist(Some(p))| <= 1 + 2 * ShownPerList
    ensures forall i :: 0 <= i < |Checklist(Some(p))| ==> !Checklist(Some(p))[i].1
  {
    EntriesShape(Prefix(p.topHelps, ShownPerList), "");
    EntriesShape(Prefix(p.redFlags, ShownPerList), WatchLabel);
  }

  /** Every generated item is unchecked. */
  lemma ChecklistUnchecked(prefs: Option<CarePlanPreferences>)
    ensures forall i :: 0 <= i < |Checklist(prefs)| ==> !Checklist(prefs)[i].1
  {
    if prefs.Some? {
      ChecklistShape(prefs.value);
    }
  }

  /**
    The helps shown are exactly the non-empty texts among the first three: each
    shown help is one of them, and each of them is shown.
   */
  lemma HelpsAreFirstThreeNonEmpty(p: CarePlanPreferences)
    ensures var helps := Prefix(p.topHelps, ShownPerList);
      && (forall e :: e in Entries(helps, "") ==> exists j :: 0 <= j < |helps| && helps[j] != "" && e == ("" + helps[j], false))
      && (forall j :: 0 <= j < |helps| && helps[j] != "" ==> ("" + helps[j], false) in Checklist(Some(p)))
  {
    var helps := Prefix(p.topHelps, ShownPerList);
    EntriesComeFromTexts(helps, "");
    EntriesKeepNonEmpty(helps, "");
  }

  /**
    The red flags shown are exactly the labelled non-empty texts among the first
    three: each shown flag is one of them, and each of them is shown.
   */
  lemma RedFlagsAreFirstThreeNonEmpty(p: CarePlanPreferences)
    ensures var flags := Prefix(p.redFlags, ShownPerList);
      && (forall e :: e in Entries(flags, WatchLabel) ==> exists j :: 0 <= j < |flags| && flags[j] != "" && e == (WatchLabel + flags[j], false))
      && (forall j :: 0 <= j < |flags| && flags[j] != "" ==> (WatchLabel + flags[j], false) in Checklist(Some(p)))
  {
    var flags := Prefix(p.redFlags, ShownPerList);
    EntriesComeFromTexts(flags, WatchLabel);
    EntriesKeepNonEmpty(flags, WatchLabel);
  }

  /** The things to avoid never reach the checklist. */
  lemma AvoidsIgnored(p: CarePlanPreferences, avoids: seq<string>)
    ensures Checklist(Some(p.(topAvoids := avoids))) == Checklist(Some(p))
  {
  }

  /** Toggling the same item twice gives back the list. */
  lemma ToggleTwiceIsIdentity(items: seq<Item>, index: nat)
    ensures Toggled(Toggled(items, index), index) == items
  {
    if index < |items| {
      assert Toggled(Toggled(items, index), index)[index] == items[index];
    }
  }
}
