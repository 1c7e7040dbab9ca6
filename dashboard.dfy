/**
  The dashboard classifications of ContentView.swift: the pain level from the
  days since the recorded start (in tenths, 0.9 is 9), its label and colour
  band, the mood shown for the cached phase, and which card sits below them.
 */
module Dashboard {
  import opened Wrappers
  import CC = CycleCalendar

  /**
    `calculatePainLevel`, in tenths; `today` is the day number of `Date()`.
    The bands by days since the recorded start: 0..1 severe (0.9), -3..-1 mild
    (0.7), 2..5 normal (0.4), anything else 0.1; no start gives 0.
   */
  function PainLevel(cycleStartDate: Option<int>, today: int): (level: int)
    ensures level == 0 <==> cycleStartDate.None?
    ensures level == 9 <==> cycleStartDate.Some? && 0 <= today - cycleStartDate.value <= 1
    ensures level == 7 <==> cycleStartDate.Some? && -3 <= today - cycleStartDate.value <= -1
    ensures level == 4 <==> cycleStartDate.Some? && 2 <= today - cycleStartDate.value <= 5
    ensures level == 1 <==>
      cycleStartDate.Some? && (today - cycleStartDate.value < -3 || today - cycleStartDate.value > 5)
  {
    if cycleStartDate.None? then 0
    else
      var days := today - cycleStartDate.value;
      if 0 <= days <= 1 then 9
      else if -3 <= days <= -1 then 7
      else if 2 <= days <= 5 then 4
      else 1
  }

  /** `getPainLevelText`: the label for the same bands; 2..5 days and every other day read alike. */
  function PainLevelText(cycleStartDate: Option<int>, today: int): (text: string)
    ensures text == "No Data" <==> cycleStartDate.None?
    ensures text == "Severe Pain" <==> cycleStartDate.Some? && 0 <= today - cycleStartDate.value <= 1
    ensures text == "Mild Pain" <==> cycleStartDate.Some? && -3 <= today - cycleStartDate.value <= -1
    ensures text == "Normal Pain" <==>
      cycleStartDate.Some? && (today - cycleStartDate.value < -3 || today - cycleStartDate.value > 1)
  {
    if cycleStartDate.None? then "No Data"
    else
      var days := today - cycleStartDate.value;
      if 0 <= days <= 1 then "Severe Pain"
      else if -3 <= days <= -1 then "Mild Pain"
      else if 2 <= days <= 5 then "Normal Pain"
      else "Normal Pain"
  }

  datatype PainColor = Green | Yellow | Orange | Red

  /**
    `painLevelColor` for a level in tenths: the bands 0..<0.25, 0.25..<0.5 and
    0.5..<0.75, everything else red (compared in hundredths).
   */
  function PainLevelColor(level: int): (c: PainColor)
    ensures c == Green <==> 0 <= level <= 2
    ensures c == Yellow <==> 3 <= level <= 4
    ensures c == Orange <==> 5 <= level <= 7
    ensures c == Red <==> level < 0 || level >= 8
  {
    var hundredths := 10 * level;
    if 0 <= hundredths < 25 then Green
    else if 25 <= hundredths < 50 then Yellow
    else if 50 <= hundredths < 75 then Orange
    else Red
  }

  /** What the mood card shows. */
  datatype Mood = SelectDatesPrompt | Happy | Cranky | Painful | Playful

  /** The mood card: a prompt without a start date, else the mood of the cached phase. */
  function MoodFor(cycleStartDate: Option<int>, currentPhase: CC.CyclePhase): (m: Mood)
    ensures m == SelectDatesPrompt <==> cycleStartDate.None?
  {
    if cycleStartDate.None? then SelectDatesPrompt
    else if currentPhase == CC.Follicular then Happy
    else if currentPhase == CC.Luteal then Cranky
    else if currentPhase == CC.Menstruating then Painful
    else Playful
  }

  /** The card below the mood and pain cards. */
  datatype DashboardCard = NoCard | ThingsToDo | ReadinessCheck

  function CardFor(cycleStartDate: Option<int>, currentPhase: CC.CyclePhase): (c: DashboardCard)
    ensures c == NoCard <==> cycleStartDate.None?
    ensures c == ThingsToDo <==> cycleStartDate.Some? && currentPhase == CC.Menstruating
    ensures c == ReadinessCheck <==> cycleStartDate.Some? && currentPhase != CC.Menstruating
  {
    if cycleStartDate.None? then NoCard
    else if currentPhase == CC.Menstruating then ThingsToDo
    else ReadinessCheck
  }

  // ---------------------------------------------------------------------
  // Properties
  // ---------------------------------------------------------------------

  /** The label each pain level carries. */
  function LabelOfLevel(level: int): string
  {
    if level == 0 then "No Data"
    else if level == 9 then "Severe Pain"
    else if level == 7 then "Mild Pain"
    else "Normal Pain"
  }

  /** The label always agrees with the level: one is determined by the other. */
  lemma TextAgreesWithLevel(cycleStartDate: Option<int>, today: int)
    ensures PainLevelText(cycleStartDate, today) == LabelOfLevel(PainLevel(cycleStartDate, today))
  {
  }

  /** The level takes only the values 0, 0.1, 0.4, 0.7 and 0.9, and 0 exactly without a start date. */
  lemma PainLevelValues(cycleStartDate: Option<int>, today: int)
    ensures PainLevel(cycleStartDate, today) in {0, 1, 4, 7, 9}
    ensures PainLevel(cycleStartDate, today) == 0 <==> cycleStartDate.None?
  {
  }

  /** Severe pain is the highest level, reached exactly on the start day and the day after. */
  lemma SeverePainIsMaximal(cycleStartDate: Option<int>, today: int)
    ensures PainLevel(cycleStartDate, today) <= 9
    ensures PainLevel(cycleStartDate, today) == 9 <==>
      cycleStartDate.Some? && 0 <= today - cycleStartDate.value <= 1
    ensures PainLevel(cycleStartDate, today) == 7 <==>
      cycleStartDate.Some? && -3 <= today - cycleStartDate.value <= -1
  {
  }

  /** The two lowest bands: 0.4 for 2..5 days after the start, 0.1 on every other day. */
  lemma ModerateAndLowPainBands(cycleStartDate: Option<int>, today: int)
    requires cycleStartDate.Some?
    ensures PainLevel(cycleStartDate, today) == 4 <==> 2 <= today - cycleStartDate.value <= 5
    ensures PainLevel(cycleStartDate, today) == 1 <==> !(-3 <= today - cycleStartDate.value <= 5)
    ensures PainLevelText(cycleStartDate, today) == "Normal Pain" <==>
      PainLevel(cycleStartDate, today) == 4 || PainLevel(cycleStartDate, today) == 1
  {
  }

  /** The colour of every level the pain card can show. */
  lemma ColourOfEachLevel()
    ensures PainLevelColor(9) == Red
    ensures PainLevelColor(7) == Orange
    ensures PainLevelColor(4) == Yellow
    ensures PainLevelColor(1) == Green && PainLevelColor(0) == Green
  {
  }

  /** Colour bands are ordered: a higher level never has a milder colour. */
  lemma ColourIsMonotone(a: int, b: int)
    requires 0 <= a <= b
    ensures Severity(PainLevelColor(a)) <= Severity(PainLevelColor(b))
  {
  }

  function Severity(c: PainColor): nat
  {
    match c
    case Green => 0
    case Yellow => 1
    case Orange => 2
    case Red => 3
  }

  /** The phase a mood stands for: the mood card loses no information about the phase. */
  function PhaseOfMood(m: Mood): Option<CC.CyclePhase>
  {
    match m
    case SelectDatesPrompt => None
    case Happy => Some(CC.Follicular)
    case Cranky => Some(CC.Luteal)
    case Painful => Some(CC.Menstruating)
    case Playful => Some(CC.Ovulatory)
  }

  lemma MoodDeterminesPhase(start: int, phase: CC.CyclePhase)
    ensures PhaseOfMood(MoodFor(Some(start), phase)) == Some(phase)
  {
  }

  /** The to-do card appears exactly when the mood card shows the painful mood. */
  lemma ThingsToDoWhenPainful(cycleStartDate: Option<int>, currentPhase: CC.CyclePhase)
    ensures CardFor(cycleStartDate, currentPhase) == ThingsToDo <==> MoodFor(cycleStartDate, currentPhase) == Painful
  {
  }
}
