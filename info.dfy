/**
  The learning screen of Sources/info.swift: a slideshow of nine cards with
  previous/next buttons, and two accordions (myths and facts, questions) in
  which at most one item is open.
 */
module Info {
  import opened Wrappers

  /** `cards.count`. */
  const CardCount := 9

  /** An item identity (`UUID`); only equality matters. */
  type Id = int

  /** The tap on an accordion item: close it when it is the open one, else open it. */
  function ToggleExpanded(expanded: Option<Id>, id: Id): (r: Option<Id>)
    ensures r == None <==> expanded == Some(id)
    ensures r != None ==> r == Some(id)
  {
    if expanded == Some(id) then None else Some(id)
  }

  /** `min(currentIndex + 1, cards.count - 1)`. */
  function NextIndex(i: int): (j: int)
    ensures j <= CardCount - 1
    ensures j == i + 1 || j == CardCount - 1
    ensures i < CardCount - 1 ==> j == i + 1
  {
    if i + 1 < CardCount - 1 then i + 1 else CardCount - 1
  }

  /** `max(currentIndex - 1, 0)`. */
  function PreviousIndex(i: int): (j: int)
    ensures j >= 0
    ensures j == i - 1 || j == 0
    ensures i > 0 ==> j == i - 1
  {
    if i - 1 > 0 then i - 1 else 0
  }

  class View2 {
    var currentIndex: int
    var expandedMythId: Option<Id>
    var expandedFaqId: Option<Id>

    /** `cards[currentIndex]` is always a valid subscript. */
    predicate Valid()
      reads this`currentIndex
    {
      0 <= currentIndex < CardCount
    }

    constructor()
      ensures Valid()
      ensures currentIndex == 0 && expandedMythId == None && expandedFaqId == None
    {
      currentIndex := 0;
      expandedMythId := None;
      expandedFaqId := None;
    }

    /** The previous button is enabled exactly off the first card. */
    function CanGoBack(): (b: bool)
      reads this`currentIndex
      ensures b <==> currentIndex != 0
      requires Valid()
    {
      currentIndex > 0
    }

    /** The next button is enabled exactly off the last card. */
    function CanGoForward(): (b: bool)
      reads this`currentIndex
      ensures b <==> currentIndex != CardCount - 1
      requires Valid()
    {
      currentIndex < CardCount - 1
    }

    method NextCard()
      requires Valid()
      modifies this`currentIndex
      ensures Valid()
      ensures currentIndex == NextIndex(old(currentIndex))
    {
      currentIndex := if currentIndex + 1 < CardCount - 1 then currentIndex + 1 else CardCount - 1;
    }

    method PreviousCard()
      requires Valid()
      modifies this`currentIndex
      ensures Valid()
      ensures currentIndex == PreviousIndex(old(currentIndex))
    {
      currentIndex := if currentIndex - 1 > 0 then currentIndex - 1 else 0;
    }

    method TapMyth(id: Id)
      modifies this`expandedMythId
      ensures expandedMythId == ToggleExpanded(old(expandedMythId), id)
    {
      expandedMythId := if expandedMythId == Some(id) then None else Some(id);
    }

    method TapFaq(id: Id)
      modifies this`expandedFaqId
      ensures expandedFaqId == ToggleExpanded(old(expandedFaqId), id)
    {
      expandedFaqId := if expandedFaqId == Some(id) then None else Some(id);
    }

    /** `isExpanded: expandedMythId == item.id`. */
    function IsMythExpanded(id: Id): (b: bool)
      reads this`expandedMythId
      ensures b <==> expandedMythId == Some(id)
    {
      expandedMythId == Some(id)
    }

    /** `isExpanded: expandedFaqId == item.id`. */
    function IsFaqExpanded(id: Id): (b: bool)
      reads this`expandedFaqId
      ensures b <==> expandedFaqId == Some(id)
    {
      expandedFaqId == Some(id)
    }
  }

  // ---------------------------------------------------------------------
  // Properties
  // ---------------------------------------------------------------------

  /** The buttons are no-ops where the view disables them. */
  lemma ClampedAtTheEnds()
    ensures NextIndex(CardCount - 1) == CardCount - 1
    ensures PreviousIndex(0) == 0
  {
  }

  /** Going forward and back again returns to the card, except from the last one. */
  lemma NextThenPrevious(i: int)
    requires 0 <= i < CardCount - 1
    ensures PreviousIndex(NextIndex(i)) == i
  {
  }

  /** Going back and forward again returns to the card, except from the first one. */
  lemma PreviousThenNext(i: int)
    requires 0 < i < CardCount
    ensures NextIndex(PreviousIndex(i)) == i
  {
  }

  /** Tapping the same item twice from the collapsed state leaves the accordion collapsed. */
  lemma TapTwiceCollapses(id: Id)
    ensures ToggleExpanded(ToggleExpanded(None, id), id) == None
  {
  }

  /** Tapping another item than the open one opens that item and closes the first. */
  lemma TapOtherSwitches(open: Id, other: Id)
    requires open != other
    ensures ToggleExpanded(Some(open), other) == Some(other)
  {
  }

  /**
    After a tap on `id`, the item shown expanded is `id` itself, and only when
    it was not the open one.
   */
  lemma TapExpandsOnlyTapped(expanded: Option<Id>, id: Id, x: Id)
    ensures ToggleExpanded(expanded, id) == Some(x) <==> x == id && expanded != Some(id)
  {
  }

  /** In each accordion at most one row is expanded: two expanded rows are the same row. */
  lemma AtMostOneOpen(v: View2, a: Id, b: Id)
    requires (v.IsMythExpanded(a) && v.IsMythExpanded(b)) || (v.IsFaqExpanded(a) && v.IsFaqExpanded(b))
    ensures a == b
  {
  }
}
