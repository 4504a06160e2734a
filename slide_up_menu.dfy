/**
 * The slide-up menu of the main screen: three resting states, moved by
 * vertical drags, and the offset of the menu for each state.
 */
module SlideUpMenu {
  datatype MenuState = Closed | HalfOpen | Open

  const MenuPartialHeight: real := 100.0
  const MenuHalfOpenHeight: real := 300.0
  const MenuFullHeightOffset: real := 60.0
  const DragThreshold: real := 200.0

  /** State after a drag update; an upward drag (negative amount) lifts a
      closed menu to half open. */
  function AfterDragChange(state: MenuState, dragAmount: real): (next: MenuState)
    ensures next != state <==> dragAmount < 0.0 && state == Closed
    ensures next != state ==> next == HalfOpen
  {
    if dragAmount < 0.0 && state == Closed then HalfOpen else state
  }

  /** State after a drag ends: beyond the threshold upwards the menu opens
      one step, beyond it downwards it closes (from open, one step). */
  function AfterDragEnd(state: MenuState, dragAmount: real): (next: MenuState)
    ensures -DragThreshold <= dragAmount <= DragThreshold ==> next == state
    ensures dragAmount < -DragThreshold ==> next == (if state == Closed then HalfOpen else Open)
    ensures dragAmount > DragThreshold ==> next == (if state == Open then HalfOpen else Closed)
  {
    if dragAmount < -DragThreshold then (if state == Closed then HalfOpen else Open)
    else if dragAmount > DragThreshold then (if state == Open then HalfOpen else Closed)
    else state
  }

  /** Vertical offset of the menu for a screen of the given height. */
  function Offset(state: MenuState, screenHeight: real): real {
    match state
    case Closed => screenHeight - MenuPartialHeight
    case HalfOpen => screenHeight - MenuHalfOpenHeight
    case Open => MenuFullHeightOffset
  }

  /** The numeric rank of a state, closed lowest. */
  function Openness(state: MenuState): nat {
    match state
    case Closed => 0
    case HalfOpen => 1
    case Open => 2
  }

  /** Two long upward drags open the menu from any state; an open menu
      stays open under more of them. */
  lemma TwoUpwardDragsOpen(state: MenuState, first: real, second: real)
    requires first < -DragThreshold && second < -DragThreshold
    ensures AfterDragEnd(AfterDragEnd(state, first), second) == Open
    ensures AfterDragEnd(Open, first) == Open
  {
  }

  /** An upward drag end never lowers the menu and a downward one never
      raises it. */
  lemma DragEndIsMonotone(state: MenuState, dragAmount: real)
    ensures dragAmount < 0.0 ==> Openness(AfterDragEnd(state, dragAmount)) >= Openness(state)
    ensures dragAmount > 0.0 ==> Openness(AfterDragEnd(state, dragAmount)) <= Openness(state)
  {
  }

  /** On a screen taller than 360 points, a more open menu sits higher
      (smaller offset). */
  lemma OffsetsOrdered(screenHeight: real)
    requires screenHeight > 360.0
    ensures Offset(Open, screenHeight) < Offset(HalfOpen, screenHeight) < Offset(Closed, screenHeight)
  {
  }

  class MenuController {
    var menuState: MenuState

    constructor()
      ensures menuState == Closed
    {
      menuState := Closed;
    }

    method HandleDragChange(dragAmount: real)
      modifies this
      ensures menuState == AfterDragChange(old(menuState), dragAmount)
    {
      if dragAmount < 0.0 && menuState == Closed {
        menuState := HalfOpen;
      }
    }

    /** The screen height is passed but not used. */
    method HandleDragEnd(dragAmount: real, screenHeight: real)
      modifies this
      ensures menuState == AfterDragEnd(old(menuState), dragAmount)
    {
      if dragAmount < -DragThreshold {
        menuState := if menuState == Closed then HalfOpen else Open;
      } else if dragAmount > DragThreshold {
        menuState := if menuState == Open then HalfOpen else Closed;
      }
    }

    /** `menuOffset(for:)`. */
    function MenuOffset(screenHeight: real): (offset: real)
      reads this
      ensures menuState == Closed ==> offset == screenHeight - 100.0
      ensures menuState == HalfOpen ==> offset == screenHeight - 300.0
      ensures menuState == Open ==> offset == 60.0
    {
      Offset(menuState, screenHeight)
    }
  }
}
