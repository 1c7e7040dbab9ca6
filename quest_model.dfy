/**
  The seven-day support quest of Sources/QuestModel.swift: the set of
  completed day ids, the quest start timestamp (0 while not started), and the
  persisted array copy of the set.
 */
module QuestModel {
  import opened Wrappers

  /** A quest day; its texts (title, action, conversation starter, myth, fact) are content only. */
  datatype QuestDay = QuestDay(id: int, isCompleted: bool)

  const QuestLength := 7

  /** The curated days: ids 1..7 in order, none completed. */
  function Days(): (days: seq<QuestDay>)
    ensures |days| == QuestLength
    ensures forall i :: 0 <= i < |days| ==> days[i].id == i + 1 && !days[i].isCompleted
  {
    [QuestDay(1, false), QuestDay(2, false), QuestDay(3, false), QuestDay(4, false),
     QuestDay(5, false), QuestDay(6, false), QuestDay(7, false)]
  }

  /** The state the actions change: the completed ids and the start timestamp. */
  datatype QuestState = QuestState(completedDays: set<int>, questStartTimestamp: int)

  /** `markDayCompleted`: start the quest clock if it reads 0, then insert the id. */
  function Mark(st: QuestState, dayId: int, now: int): QuestState
  {
    var ts := if st.questStartTimestamp == 0 then now else st.questStartTimestamp;
    QuestState(st.completedDays + {dayId}, ts)
  }

  /** `undoDayCompletion`: remove the id; the timestamp stays. */
  function Undo(st: QuestState, dayId: int): QuestState
  {
    QuestState(st.completedDays - {dayId}, st.questStartTimestamp)
  }

  /** `resetQuest`. */
  function Reset(st: QuestState): QuestState
  {
    QuestState({}, 0)
  }

  /** `questStartDate`: a date only for a positive timestamp. */
  function StartDate(timestamp: int): (d: Option<int>)
    ensures d.None? <==> timestamp <= 0
    ensures d.Some? ==> d.value == timestamp
  {
    if timestamp > 0 then Some(timestamp) else None
  }

  const NotStartedText := "Your quest hasn't started yet. Take your time — every small step matters."
  const FirstStepsText := "You've taken your first steps. Showing up is what counts most."
  const HabitText := "You're building a meaningful habit of care. That takes real intention."
  const CommitmentText := "Your commitment to understanding and supporting is making a difference."
  const CompletedText := "You completed the full quest. This kind of empathy and effort is rare and deeply valued."

  /** The reflection text for a number of completed days; counts above 7 get "". */
  function Reflection(count: nat): (text: string)
    ensures count == 0 ==> text == NotStartedText
    ensures 1 <= count <= 2 ==> text == FirstStepsText
    ensures 3 <= count <= 4 ==> text == HabitText
    ensures 5 <= count <= 6 ==> text == CommitmentText
    ensures count == QuestLength ==> text == CompletedText
    ensures |text| == 0 <==> count > QuestLength
  {
    if count == 0 then NotStartedText
    else if count <= 2 then FirstStepsText
    else if count <= 4 then HabitText
    else if count <= 6 then CommitmentText
    else if count == QuestLength then CompletedText
    else ""
  }

  /** `Set(decoded)`: the ids of a decoded array. */
  function Decode(data: seq<int>): (s: set<int>)
    ensures forall x :: x in s <==> x in data
  {
    set x | x in data
  }

  /** What a fresh manager loads: nothing when no array decodes. */
  function Loaded(data: Option<seq<int>>): (s: set<int>)
    ensures data.None? ==> s == {}
    ensures data.Some? ==> forall x :: x in s <==> x in data.value
  {
    if data.Some? then Decode(data.value) else {}
  }

  lemma NoMemberIsEmpty(s: set<int>)
    requires forall y :: y !in s
    ensures s == {}
  {
    assert forall y :: y in s <==> y in {};
  }

  /** `Array(completedDays)`: the set as an array without repeats, in some order. */
  method Encode(s: set<int>) returns (data: seq<int>)
    ensures Decode(data) == s
    ensures |data| == |s|
    ensures forall i, j :: 0 <= i < j < |data| ==> data[i] != data[j]
  {
    data := [];
    var rest := s;
    while rest != {}
      invariant rest <= s
      invariant forall x :: x in data <==> x in s - rest
      invariant |data| + |rest| == |s|
      invariant forall i, j :: 0 <= i < j < |data| ==> data[i] != data[j]
      decreases |rest|
    {
      if forall y :: y !in rest {
        NoMemberIsEmpty(rest);
        assert false;
      }
      var x :| x in rest;
      assert x !in data;
      data := data + [x];
      rest := rest - {x};
    }
    assert forall x :: x in Decode(data) <==> x in s;
  }

  class QuestManager {
    /** @AppStorage("questCompletedDaysData"); None while nothing decodable is stored. */
    var completedDaysData: Option<seq<int>>
    /** @AppStorage("questStartDate"); 0 while the quest has not started. */
    var questStartTimestamp: int
    var completedDays: set<int>

    /** Every change of `completedDays` is persisted: the stored array holds the same ids. */
    ghost predicate Valid()
      reads this
    {
      Loaded(completedDaysData) == completedDays
    }

    function State(): QuestState
      reads this
    {
      QuestState(completedDays, questStartTimestamp)
    }

    /** `init()`: load the stored array; re-assigning the set persists it again. */
    constructor(storedData: Option<seq<int>>, storedTimestamp: int)
      ensures Valid()
      ensures completedDays == Loaded(storedData)
      ensures questStartTimestamp == storedTimestamp
    {
      completedDaysData := storedData;
      questStartTimestamp := storedTimestamp;
      completedDays := {};
      new;
      if storedData.Some? {
        completedDays := Decode(storedData.value);
        PersistCompletedDays();
      }
    }

    /** The `didSet` of `completedDays`. */
    method PersistCompletedDays()
      modifies this`completedDaysData
      ensures Valid()
    {
      var data := Encode(completedDays);
      completedDaysData := Some(data);
    }

    method MarkDayCompleted(dayId: int, now: int)
      modifies this
      ensures Valid()
      ensures State() == Mark(old(State()), dayId, now)
    {
      if questStartTimestamp == 0 {
        questStartTimestamp := now;
      }
      completedDays := completedDays + {dayId};
      PersistCompletedDays();
    }

    method UndoDayCompletion(dayId: int)
      modifies this
      ensures Valid()
      ensures State() == Undo(old(State()), dayId)
    {
      completedDays := completedDays - {dayId};
      PersistCompletedDays();
    }

    method ResetQuest()
      modifies this
      ensures Valid()
      ensures State() == Reset(old(State()))
    {
      completedDays := {};
      PersistCompletedDays();
      questStartTimestamp := 0;
    }

    function IsDayCompleted(dayId: int): (b: bool)
      reads this
      ensures b <==> dayId in completedDays
    {
      dayId in completedDays
    }

    function QuestStartDate(): (d: Option<int>)
      reads this
      ensures d.None? <==> questStartTimestamp <= 0
      ensures d.Some? ==> d.value == questStartTimestamp
    {
      StartDate(questStartTimestamp)
    }

    function SupportScore(): (n: nat)
      reads this
      ensures n == |completedDays|
    {
      |completedDays|
    }

    /** The reflection for the current score: one text per band, empty only past seven days. */
    function SupportReflection(): (text: string)
      reads this
      ensures completedDays == {} ==> text == NotStartedText
      ensures 1 <= SupportScore() <= 2 ==> text == FirstStepsText
      ensures 3 <= SupportScore() <= 4 ==> text == HabitText
      ensures 5 <= SupportScore() <= 6 ==> text == CommitmentText
      ensures IsQuestComplete() ==> text == CompletedText
      ensures text == "" <==> SupportScore() > QuestLength
    {
      Reflection(|completedDays|)
    }

    function IsQuestComplete(): (b: bool)
      reads this
      ensures b <==> SupportScore() == QuestLength
    {
      |completedDays| == QuestLength
    }
  }

  // ---------------------------------------------------------------------
  // Properties
  // ---------------------------------------------------------------------

  /** After marking, the day counts as completed; the other days keep their status. */
  lemma MarkCompletes(st: QuestState, dayId: int, now: int)
    ensures dayId in Mark(st, dayId, now).completedDays
    ensures forall d :: d != dayId ==> (d in Mark(st, dayId, now).completedDays <==> d in st.completedDays)
  {
  }

  /**
    Marking twice is marking once, provided the first mark started the clock
    (a clock reading of exactly 0 leaves the quest unstarted).
   */
  lemma MarkIdempotent(st: QuestState, dayId: int, now1: int, now2: int)
    requires st.questStartTimestamp != 0 || now1 != 0
    ensures Mark(Mark(st, dayId, now1), dayId, now2) == Mark(st, dayId, now1)
  {
  }

  /** The timestamp is set only by a mark while it reads 0; later marks keep it. */
  lemma StartTimestampSetOnce(st: QuestState, dayId: int, now: int)
    ensures st.questStartTimestamp == 0 ==> Mark(st, dayId, now).questStartTimestamp == now
    ensures st.questStartTimestamp != 0 ==> Mark(st, dayId, now).questStartTimestamp == st.questStartTimestamp
  {
  }

  /** Undo removes only that day and never touches the start timestamp. */
  lemma UndoRemovesOnlyThatDay(st: QuestState, dayId: int)
    ensures dayId !in Undo(st, dayId).completedDays
    ensures Undo(st, dayId).completedDays + {dayId} >= st.completedDays
    ensures Undo(st, dayId).completedDays <= st.completedDays
    ensures Undo(st, dayId).questStartTimestamp == st.questStartTimestamp
  {
  }

  /** After a reset the score is 0, the reflection is the not-started text and there is no start date. */
  lemma ResetClearsQuest(st: QuestState)
    ensures |Reset(st).completedDays| == 0
    ensures StartDate(Reset(st).questStartTimestamp).None?
    ensures Reflection(|Reset(st).completedDays|) == NotStartedText
  {
  }

  /** Marking a day that is not completed yet raises the score by one. */
  lemma MarkAddsFreshDay(st: QuestState, dayId: int, now: int)
    requires dayId !in st.completedDays
    ensures |Mark(st, dayId, now).completedDays| == |st.completedDays| + 1
  {
  }

  /** Marking the seven quest days one after the other completes the quest. */
  lemma {:induction false} SevenMarksCompleteQuest(st: QuestState, now: int)
    requires st.completedDays == {}
    ensures var st7 := Mark(Mark(Mark(Mark(Mark(Mark(Mark(st, 1, now), 2, now), 3, now), 4, now), 5, now), 6, now), 7, now);
      |st7.completedDays| == QuestLength
  {
    var st1 := Mark(st, 1, now);
    var st2 := Mark(st1, 2, now);
    var st3 := Mark(st2, 3, now);
    var st4 := Mark(st3, 4, now);
    var st5 := Mark(st4, 5, now);
    var st6 := Mark(st5, 6, now);
    MarkAddsFreshDay(st, 1, now);
    MarkAddsFreshDay(st1, 2, now);
    MarkAddsFreshDay(st2, 3, now);
    MarkAddsFreshDay(st3, 4, now);
    MarkAddsFreshDay(st4, 5, now);
    MarkAddsFreshDay(st5, 6, now);
    MarkAddsFreshDay(st6, 7, now);
  }

  /**
    Mark accepts any id: marking a new id on a completed quest pushes the score
    past seven, where the reflection is empty.
   */
  lemma ReflectionBeyondSeven(st: QuestState, dayId: int, now: int)
    requires |st.completedDays| == QuestLength && dayId !in st.completedDays
    ensures Reflection(|Mark(st, dayId, now).completedDays|) == ""
  {
    MarkAddsFreshDay(st, dayId, now);
  }

  /** Persisting and loading gives back the same set, whatever order the array has. */
  method PersistThenLoad(s: set<int>) returns (loaded: set<int>)
    ensures loaded == s
  {
    var data := Encode(s);
    loaded := Loaded(Some(data));
  }
}
