/**
  The completion button of Sources/QuestDayDetailView.swift: it undoes a
  completed day and marks an uncompleted one, through the shared manager.
 */
module QuestDayDetail {
  import opened QuestModel

  /** What one press does to the quest state; `now` is the clock reading a mark may record. */
  function Press(st: QuestState, dayId: int, now: int): (r: QuestState)
    // the day's membership flips and no other day changes
    ensures r.completedDays == (st.completedDays - {dayId}) + ({dayId} - st.completedDays)
    // only a completion on an unstarted quest starts the clock
    ensures r.questStartTimestamp ==
      if dayId !in st.completedDays && st.questStartTimestamp == 0 then now else st.questStartTimestamp
  {
    if dayId in st.completedDays then Undo(st, dayId) else Mark(st, dayId, now)
  }

  /** `isCompleted`: the manager's answer for this view's day. */
  function IsCompleted(q: QuestManager, day: QuestDay): (b: bool)
    reads q
    ensures b == q.IsDayCompleted(day.id)
    ensures b <==> day.id in q.completedDays
  {
    q.IsDayCompleted(day.id)
  }

  /** The button action. */
  method PressCompletionButton(day: QuestDay, q: QuestManager, now: int)
    modifies q
    ensures q.Valid()
    ensures q.State() == Press(old(q.State()), day.id, now)
  {
    if IsCompleted(q, day) {
      q.UndoDayCompletion(day.id);
    } else {
      q.MarkDayCompleted(day.id, now);
    }
  }

  /** A press flips whether the day is completed. */
  lemma PressFlipsCompletion(st: QuestState, dayId: int, now: int)
    ensures dayId in Press(st, dayId, now).completedDays <==> dayId !in st.completedDays
  {
  }

  /** A press leaves every other day as it was. */
  lemma PressTouchesOnlyThatDay(st: QuestState, dayId: int, now: int)
    ensures forall d :: d != dayId ==> (d in Press(st, dayId, now).completedDays <==> d in st.completedDays)
  {
  }

  /** Two presses restore the set of completed days. */
  lemma DoublePressRestoresDays(st: QuestState, dayId: int, now1: int, now2: int)
    ensures Press(Press(st, dayId, now1), dayId, now2).completedDays == st.completedDays
  {
    var mid := Press(st, dayId, now1);
    if dayId in st.completedDays {
      assert mid.completedDays == st.completedDays - {dayId};
      assert Press(mid, dayId, now2).completedDays == st.completedDays - {dayId} + {dayId};
    } else {
      assert mid.completedDays == st.completedDays + {dayId};
      assert Press(mid, dayId, now2).completedDays == st.completedDays + {dayId} - {dayId};
    }
  }

  /**
    Un-completing keeps the start timestamp; completing sets it only while it is
    0, so a press never clears a timestamp that an earlier completion set.
   */
  lemma PressKeepsStartedClock(st: QuestState, dayId: int, now: int)
    ensures st.questStartTimestamp != 0 ==> Press(st, dayId, now).questStartTimestamp == st.questStartTimestamp
    ensures dayId in st.completedDays ==> Press(st, dayId, now).questStartTimestamp == st.questStartTimestamp
  {
  }
}
