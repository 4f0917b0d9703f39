/**
 * The vocabulary cards: a cursor over the whole catalog moved by buttons or
 * by a horizontal swipe, a checkbox per related term of the card on screen,
 * and the persisted `checkedWords` map those checkboxes write to.
 * Screen width and drag displacement are real numbers (pixels).
 */
module Vocabulary {
  import opened Wrappers
  import opened Catalog
  import opened Storage

  /** A drag must move more than this many pixels before the card responds. */
  const GestureStart: real := 5.0
  /** A move shows a direction only beyond this many pixels. */
  const DeadZone: real := 10.0

  datatype Direction = Left | Right

  datatype ReleaseOutcome = CommitRight | CommitLeft | SpringBack

  function Abs(x: real): (r: real)
    ensures r >= 0.0 && (r == x || r == -x)
  {
    if x < 0.0 then -x else x
  }

  /** The commit distance: 15% of the screen width. */
  function Threshold(width: real): (t: real)
    ensures 100.0 * t == 15.0 * width
  {
    width * 0.15
  }

  /** `onMoveShouldSetPanResponder`: the card takes over the gesture past 5 px either way. */
  predicate TakesGesture(dx: real) {
    Abs(dx) > GestureStart
  }

  /** The overlay's strength during a drag: `min(|dx| / threshold, 1)`. */
  function Progress(dx: real, width: real): (p: real)
    requires width > 0.0
    ensures 0.0 <= p <= 1.0
    ensures p == 1.0 <==> Abs(dx) >= Threshold(width)
    ensures p < 1.0 ==> p * Threshold(width) == Abs(dx)
  {
    var ratio := Abs(dx) / Threshold(width);
    if ratio < 1.0 then ratio else 1.0
  }

  /** The direction shown after a move: it changes only past the dead zone, following the sign of dx. */
  function MoveDirection(dx: real, current: Option<Direction>): (d: Option<Direction>)
    ensures d != current ==> Abs(dx) > DeadZone
    ensures Abs(dx) > DeadZone ==> d == Some(if dx > 0.0 then Right else Left)
  {
    if dx > DeadZone then Some(Right)
    else if dx < -DeadZone then Some(Left)
    else current
  }

  /**
   * What releasing the card does: a drag strictly beyond 15% of the width
   * commits in its direction; anything up to and including the threshold
   * springs back.
   */
  function ClassifyRelease(dx: real, width: real): (o: ReleaseOutcome)
    requires width > 0.0
    ensures o == CommitRight <==> 100.0 * dx > 15.0 * width
    ensures o == CommitLeft <==> 100.0 * dx < -15.0 * width
    ensures o == SpringBack <==> 100.0 * Abs(dx) <= 15.0 * width
  {
    if dx > Threshold(width) then CommitRight
    else if dx < -Threshold(width) then CommitLeft
    else SpringBack
  }

  /**
   * The persisted map after a checkbox toggle on the card with this id:
   * checked sets the id to true, unchecked deletes it, every other key is
   * left as it was.
   */
  function Persisted(saved: map<int, bool>, id: int, nowChecked: bool): (m: map<int, bool>)
    ensures IsChecked(m, id) == nowChecked
    ensures !nowChecked ==> id !in m
    ensures forall k :: k != id ==> (k in m <==> k in saved) && (k in m ==> m[k] == saved[k])
  {
    if nowChecked then saved[id := true] else saved - {id}
  }

  class VocabularyDeck {
    const cards: seq<Item>
    const store: Store
    const screenWidth: real
    var index: nat
    /** Related-term index to checkbox state, for the card on screen only. */
    var checked: map<int, bool>
    var swipeDirection: Option<Direction>
    var swipeProgress: real
    /** Whether the card holds the current drag: its pan responder was granted and not yet released. */
    var granted: bool

    ghost predicate Valid()
      reads this
    {
      && index < |cards|
      && screenWidth > 0.0
      && 0.0 <= swipeProgress <= 1.0
      && (swipeDirection == None ==> swipeProgress == 0.0)
    }

    /** The screen reads the card at the cursor while rendering, so the catalog must not be empty. */
    constructor (catalog: seq<Item>, store: Store, screenWidth: real)
      requires |catalog| > 0 && screenWidth > 0.0
      ensures Valid()
      ensures cards == catalog && this.store == store && this.screenWidth == screenWidth
      ensures index == 0 && checked == map[] && swipeDirection == None && swipeProgress == 0.0
      ensures !granted
    {
      cards := catalog;
      this.store := store;
      this.screenWidth := screenWidth;
      index := 0;
      checked := map[];
      swipeDirection := None;
      swipeProgress := 0.0;
      granted := false;
    }

    /** A new cursor value, with the effect that runs on every index change: per-card state is cleared. */
    method MoveTo(i: nat)
      requires Valid() && i < |cards|
      modifies this`index, this`checked, this`swipeDirection, this`swipeProgress
      ensures Valid()
      ensures index == i && checked == map[] && swipeDirection == None && swipeProgress == 0.0
    {
      index := i;
      checked := map[];
      swipeDirection := None;
      swipeProgress := 0.0;
    }

    /** "Next": advances one card, or reports that every card is done and stays on the last one. */
    method GoNext() returns (allDone: bool)
      requires Valid()
      modifies this`index, this`checked, this`swipeDirection, this`swipeProgress
      ensures Valid()
      ensures allDone <==> old(index) == |cards| - 1
      ensures !allDone ==> index == old(index) + 1 && checked == map[]
                           && swipeDirection == None && swipeProgress == 0.0
      ensures allDone ==> unchanged(this)
    {
      if index < |cards| - 1 {
        MoveTo(index + 1);
        allDone := false;
      } else {
        allDone := true;
      }
    }

    /** "Previous": steps back one card, or does nothing on the first. */
    method GoPrevious()
      requires Valid()
      modifies this`index, this`checked, this`swipeDirection, this`swipeProgress
      ensures Valid()
      ensures old(index) > 0 ==> index == old(index) - 1 && checked == map[]
                                 && swipeDirection == None && swipeProgress == 0.0
      ensures old(index) == 0 ==> unchanged(this)
    {
      if index > 0 {
        MoveTo(index - 1);
      }
    }

    /**
     * `onPanResponderGrant`: the card takes a drag only once it has moved
     * more than 5 px, and the drag starts with no direction and no progress.
     */
    method OnGrant(dx: real)
      requires Valid() && !granted && TakesGesture(dx)
      modifies this`granted, this`swipeDirection, this`swipeProgress
      ensures Valid()
      ensures granted && swipeDirection == None && swipeProgress == 0.0
    {
      granted := true;
      swipeDirection := None;
      swipeProgress := 0.0;
    }

    /**
     * `onPanResponderMove`, delivered only while the card holds the drag:
     * past the dead zone, direction and progress follow the drag; inside it
     * nothing changes.
     */
    method OnMove(dx: real)
      requires Valid() && granted
      modifies this`swipeDirection, this`swipeProgress
      ensures Valid()
      ensures swipeDirection == MoveDirection(dx, old(swipeDirection))
      ensures Abs(dx) > DeadZone ==> swipeProgress == Progress(dx, screenWidth)
      ensures Abs(dx) <= DeadZone ==> swipeProgress == old(swipeProgress)
    {
      var progress := Progress(dx, screenWidth);
      if dx > DeadZone {
        swipeDirection := Some(Right);
        swipeProgress := progress;
      } else if dx < -DeadZone {
        swipeDirection := Some(Left);
        swipeProgress := progress;
      }
    }

    /**
     * `onPanResponderRelease`, delivered only to a card that holds the drag,
     * which it then gives up. Both committed directions end in the same
     * `goNext`; at the last card that only reports completion, so the
     * committed direction stays on screen at full progress.
     */
    method OnRelease(dx: real) returns (outcome: ReleaseOutcome, allDone: bool)
      requires Valid() && granted
      modifies this`index, this`checked, this`swipeDirection, this`swipeProgress, this`granted
      ensures Valid() && !granted
      ensures outcome == ClassifyRelease(dx, screenWidth)
      ensures outcome == SpringBack ==>
        && !allDone && index == old(index) && checked == old(checked)
        && swipeDirection == None && swipeProgress == 0.0
      ensures outcome != SpringBack && old(index) < |cards| - 1 ==>
        && !allDone && index == old(index) + 1 && checked == map[]
        && swipeDirection == None && swipeProgress == 0.0
      ensures outcome != SpringBack && old(index) == |cards| - 1 ==>
        && allDone && index == old(index) && checked == old(checked)
        && swipeDirection == Some(if outcome == CommitRight then Right else Left)
        && swipeProgress == 1.0
    {
      outcome := ClassifyRelease(dx, screenWidth);
      match outcome {
        case CommitRight =>
          swipeDirection := Some(Right);
          swipeProgress := 1.0;
          allDone := GoNext();
        case CommitLeft =>
          swipeDirection := Some(Left);
          swipeProgress := 1.0;
          allDone := GoNext();
        case SpringBack =>
          swipeDirection := None;
          swipeProgress := 0.0;
          allDone := false;
      }
      granted := false;
    }

    /**
     * A finger moving, as the pan responder routes it; dx is the gesture's
     * displacement, counted from the touch start until the card is granted
     * and from the grant point afterwards. While the card does not hold the
     * drag, `onMoveShouldSetPanResponder` decides: a drag of at most 5 px
     * reaches no handler and changes nothing; a longer one is granted, and
     * that move goes to the grant handler only. While the card holds the
     * drag, the move goes to the move handler.
     */
    method OnTouchMove(dx: real)
      requires Valid()
      modifies this`granted, this`swipeDirection, this`swipeProgress
      ensures Valid()
      ensures !old(granted) && !TakesGesture(dx) ==> unchanged(this)
      ensures !old(granted) && TakesGesture(dx) ==>
        granted && swipeDirection == None && swipeProgress == 0.0
      ensures old(granted) ==>
        && granted
        && swipeDirection == MoveDirection(dx, old(swipeDirection))
        && swipeProgress == if Abs(dx) > DeadZone then Progress(dx, screenWidth) else old(swipeProgress)
    {
      if !granted {
        if TakesGesture(dx) {
          OnGrant(dx);
        }
        return;
      }
      OnMove(dx);
    }

    /**
     * The finger lifting with displacement dx: a card that holds the drag
     * gets the release; a touch that never moved more than 5 px was never
     * granted, so it reaches no handler and changes nothing.
     */
    method OnTouchEnd(dx: real) returns (outcome: Option<ReleaseOutcome>, allDone: bool)
      requires Valid()
      modifies this`index, this`checked, this`swipeDirection, this`swipeProgress, this`granted
      ensures Valid() && !granted
      ensures !old(granted) ==> outcome == None && !allDone && unchanged(this)
      ensures old(granted) ==> outcome == Some(ClassifyRelease(dx, screenWidth))
      ensures outcome == Some(SpringBack) ==>
        && !allDone && index == old(index) && checked == old(checked)
        && swipeDirection == None && swipeProgress == 0.0
      ensures outcome.Some? && outcome != Some(SpringBack) && old(index) < |cards| - 1 ==>
        && !allDone && index == old(index) + 1 && checked == map[]
        && swipeDirection == None && swipeProgress == 0.0
      ensures outcome.Some? && outcome != Some(SpringBack) && old(index) == |cards| - 1 ==>
        && allDone && index == old(index) && checked == old(checked)
        && swipeDirection == Some(if outcome == Some(CommitRight) then Right else Left)
        && swipeProgress == 1.0
    {
      if granted {
        var o;
        o, allDone := OnRelease(dx);
        outcome := Some(o);
      } else {
        outcome := None;
        allDone := false;
      }
    }

    /**
     * A related-term checkbox: flips entry i of the card's local map, then
     * writes the card's id into the stored `checkedWords` (an absent key is
     * read as the empty map) according to the new state of that one entry.
     */
    method ToggleCheck(i: int)
      requires Valid()
      modifies this`checked, store`checkedWords
      ensures Valid()
      ensures checked == Flipped(old(checked), i)
      ensures store.checkedWords
        == Some(Persisted(old(store.checkedWords).GetOr(map[]), cards[index].id, IsChecked(checked, i)))
    {
      checked := Flipped(checked, i);
      var nowChecked := IsChecked(checked, i);
      var allCheckedWords := store.checkedWords.GetOr(map[]);
      if nowChecked {
        allCheckedWords := allCheckedWords[cards[index].id := true];
      } else {
        allCheckedWords := allCheckedWords - {cards[index].id};
      }
      store.checkedWords := Some(allCheckedWords);
    }
  }
}
