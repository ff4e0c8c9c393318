/**
  The swipeable bottom drawer: open/closed, a drag in progress, and the inline `translateY`
  the drag applies. The `open`/`active`/`dragging` classes on the drawer and the overlay
  follow the state.
 */
module SwipeDrawer {
  import opened Wrappers

  /** The distance in pixels a drag must exceed to change the state. */
  const Threshold := 100

  /** The inline `translateY` a move applies, if any: an open drawer follows only a downward
      drag; a closed drawer, pushed down by its own height, follows only an upward one. */
  function DragOffset(isOpen: bool, drawerHeight: int, deltaY: int): (r: Option<int>)
    ensures r.Some? <==> (isOpen && deltaY > 0) || (!isOpen && deltaY < 0)
    ensures r.Some? && isOpen ==> 0 < r.value == deltaY
    ensures r.Some? && !isOpen ==> r.value == drawerHeight + deltaY < drawerHeight
  {
    if isOpen then (if deltaY > 0 then Some(deltaY) else None)
    else if deltaY < 0 then Some(drawerHeight + deltaY)
    else None
  }

  /** Whether the drawer is open after a drag of `deltaY` pixels ends. */
  function OpenAfterDrag(isOpen: bool, deltaY: int): (r: bool)
    ensures r != isOpen <==> (isOpen && deltaY > Threshold) || (!isOpen && deltaY < -Threshold)
  {
    if isOpen then !(deltaY > Threshold) else deltaY < -Threshold
  }

  /** A drag of at most the threshold, either way, never changes the state; and
      the drawer ends open after a long upward drag and closed after a long downward one,
      whatever it was before. */
  lemma DragEndRule(isOpen: bool, deltaY: int)
    ensures -Threshold <= deltaY <= Threshold ==> OpenAfterDrag(isOpen, deltaY) == isOpen
    ensures deltaY < -Threshold ==> OpenAfterDrag(isOpen, deltaY)
    ensures deltaY > Threshold ==> !OpenAfterDrag(isOpen, deltaY)
  {
  }

  class Drawer {
    var isOpen: bool
    var isDragging: bool
    var startY: int
    var currentY: int
    var drawerHeight: int
    /** `drawer.style.transform`: None for '', Some(y) for `translateY(y px)`. */
    var transform: Option<int>
    /** The `open` class of the drawer, the `active` class of the overlay and the `dragging`
        class of the drawer. */
    var openClass: bool
    var overlayActive: bool
    var draggingClass: bool

    /** The classes on the page agree with the state. */
    predicate Valid()
      reads this
    {
      openClass == isOpen && overlayActive == isOpen && draggingClass == isDragging
    }

    /** The script's initial state: closed, not dragging, all positions 0. */
    constructor ()
      ensures Valid() && !isOpen && !isDragging
      ensures startY == 0 && currentY == 0 && drawerHeight == 0 && transform == None
    {
      isOpen := false;
      isDragging := false;
      startY := 0;
      currentY := 0;
      drawerHeight := 0;
      transform := None;
      openClass := false;
      overlayActive := false;
      draggingClass := false;
    }

    /** `openDrawer`; repeating it changes nothing more. */
    method OpenDrawer()
      requires Valid()
      modifies this`isOpen, this`openClass, this`overlayActive
      ensures Valid() && isOpen
    {
      isOpen := true;
      openClass := true;
      overlayActive := true;
    }

    /** `closeDrawer`; repeating it changes nothing more. */
    method CloseDrawer()
      requires Valid()
      modifies this`isOpen, this`openClass, this`overlayActive
      ensures Valid() && !isOpen
    {
      isOpen := false;
      openClass := false;
      overlayActive := false;
    }

    /** `handleDragStart` at `clientY`, reading `drawer.offsetHeight`. `currentY` keeps the
        value of the previous drag. */
    method HandleDragStart(clientY: int, offsetHeight: int)
      requires Valid()
      modifies this`startY, this`isDragging, this`drawerHeight, this`draggingClass
      ensures Valid() && isDragging
      ensures startY == clientY && drawerHeight == offsetHeight && currentY == old(currentY)
    {
      startY := clientY;
      isDragging := true;
      drawerHeight := offsetHeight;
      draggingClass := true;
    }

    /** `handleDragMove` at `clientY`: nothing unless a drag is in progress. */
    method HandleDragMove(clientY: int)
      requires Valid()
      modifies this`currentY, this`transform
      ensures Valid()
      ensures !isDragging ==> currentY == old(currentY) && transform == old(transform)
      ensures isDragging ==>
                currentY == clientY &&
                transform == (var o := DragOffset(isOpen, drawerHeight, clientY - startY);
                              if o.Some? then o else old(transform))
    {
      if !isDragging {
        return;
      }
      currentY := clientY;
      var deltaY := currentY - startY;
      if isOpen {
        if deltaY > 0 {
          transform := Some(deltaY);
        }
      } else {
        if deltaY < 0 {
          var newTranslateY := drawerHeight + deltaY;
          transform := Some(newTranslateY);
        }
      }
    }

    /** `handleDragEnd`: nothing unless a drag is in progress; then the drag ends and the
        threshold rule decides the state. When the state stays, the inline transform is
        cleared at once; the 300 ms timer that clears it in every case is not modelled. */
    method HandleDragEnd()
      requires Valid()
      modifies this`isDragging, this`draggingClass, this`isOpen, this`openClass,
               this`overlayActive, this`transform
      ensures Valid() && !isDragging
      ensures !old(isDragging) ==> isOpen == old(isOpen) && transform == old(transform)
      ensures old(isDragging) ==>
                isOpen == OpenAfterDrag(old(isOpen), currentY - startY) &&
                transform == (if isOpen == old(isOpen) then None else old(transform))
    {
      if !isDragging {
        return;
      }
      isDragging := false;
      draggingClass := false;
      var deltaY := currentY - startY;
      if isOpen {
        if deltaY > Threshold {
          CloseDrawer();
        } else {
          transform := None;
        }
      } else {
        if deltaY < -Threshold {
          OpenDrawer();
        } else {
          transform := None;
        }
      }
    }

    /** The `keydown` listener: Escape closes an open drawer; any other key, or a closed
        drawer, changes nothing. */
    method HandleKeyDown(key: string)
      requires Valid()
      modifies this`isOpen, this`openClass, this`overlayActive
      ensures Valid()
      ensures isOpen == (old(isOpen) && key != "Escape")
    {
      if key == "Escape" && isOpen {
        CloseDrawer();
      }
    }

    /** The drag start a tap needs: like `handleDragStart`, but the current position starts at
        the press, so a press and release without a move is a drag of zero. */
    method HandleDragStartFromPress(clientY: int, offsetHeight: int)
      requires Valid()
      modifies this`startY, this`currentY, this`isDragging, this`drawerHeight,
               this`draggingClass
      ensures Valid() && isDragging
      ensures startY == clientY && currentY == clientY && drawerHeight == offsetHeight
    {
      HandleDragStart(clientY, offsetHeight);
      currentY := clientY;
    }
  }

  /** As written: an upward drag from 500 to 300 opens the drawer; a tap on the handle at 150
      (press and release, no move) then closes it, because the release measures the distance
      from the stale `currentY` of the earlier drag (300 - 150 = 150 > 100). */
  method TapAfterDragAsWritten() returns (openAfterDrag: bool, openAfterTap: bool)
    ensures openAfterDrag && !openAfterTap
  {
    var d := new Drawer();
    d.HandleDragStart(500, 400);
    d.HandleDragMove(300);
    d.HandleDragEnd();
    openAfterDrag := d.isOpen;
    d.HandleDragStart(150, 400);
    d.HandleDragEnd();
    openAfterTap := d.isOpen;
  }

  /** With the press resetting the current position, a tap never changes the state: the same
      sequence leaves the drawer open. */
  method TapAfterDragFromPress() returns (openAfterDrag: bool, openAfterTap: bool)
    ensures openAfterDrag && openAfterTap
  {
    var d := new Drawer();
    d.HandleDragStartFromPress(500, 400);
    d.HandleDragMove(300);
    d.HandleDragEnd();
    openAfterDrag := d.isOpen;
    d.HandleDragStartFromPress(150, 400);
    d.HandleDragEnd();
    openAfterTap := d.isOpen;
  }

  /** For every state and every press position, a press and release without a move leaves
      the state as it was when the press resets the current position. */
  method TapKeepsState(d: Drawer, clientY: int, offsetHeight: int)
    requires d.Valid()
    modifies d
    ensures d.Valid() && !d.isDragging && d.isOpen == old(d.isOpen)
  {
    d.HandleDragStartFromPress(clientY, offsetHeight);
    d.HandleDragEnd();
  }
}
