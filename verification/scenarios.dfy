/**
  Concrete runs of the drag controller over a container at the viewport
  origin, 400 by 400 pixels, with 1000 by 1000 pixels of content and two
  items: A at (0, 0) and B at (100, 100) in content coordinates, each 50 by
  50. The items' viewport rectangles move up as the container scrolls down.
*/
module Scenarios {
  import opened Optional
  import opened Dom
  import opened DomVector
  import opened AutoScroll
  import opened DragToSelect

  function Viewport(scrollTop: int): Container {
    Container(Rect(0, 0, 400, 400), 0, scrollTop, 1000, 1000)
  }

  const ItemA: Item := Item(true, Some("A"), Rect(0, 0, 50, 50))
  const ItemB: Item := Item(true, Some("B"), Rect(100, 100, 50, 50))

  function Items(): seq<Item> {
    [ItemA, ItemB]
  }

  /** A and B as the browser reports them once the container has scrolled down 30 pixels. */
  const ScrolledA: Item := Item(true, Some("A"), Rect(0, -30, 50, 50))
  const ScrolledB: Item := Item(true, Some("B"), Rect(100, 70, 50, 50))

  function ScrolledItems(): seq<Item> {
    [ScrolledA, ScrolledB]
  }

  /** The ids the unscrolled layout yields when exactly the flagged items are hit. */
  lemma SelectedIdsOfTwo(area: Rect, c: Container, hitA: bool, hitB: bool)
    requires Hit(ItemA, area, c) == hitA && Hit(ItemB, area, c) == hitB
    ensures SelectedIds(Items(), area, c) ==
              (if hitA then {"A"} else {}) + (if hitB then {"B"} else {})
  {
  }

  /** The ids the scrolled layout yields when exactly the flagged items are hit. */
  lemma SelectedIdsOfScrolled(area: Rect, c: Container, hitA: bool, hitB: bool)
    requires Hit(ScrolledA, area, c) == hitA && Hit(ScrolledB, area, c) == hitB
    ensures SelectedIds(ScrolledItems(), area, c) ==
              (if hitA then {"A"} else {}) + (if hitB then {"B"} else {})
  {
  }

  /** The records the two-item layouts yield. */
  lemma RecordsOfTwo()
    ensures AllSelected({"A"} + {}) == map["A" := true]
    ensures AllSelected({} + {"B"}) == map["B" := true]
    ensures AllSelected({"A"} + {"B"}) == map["A" := true, "B" := true]
  {
  }

  /** Which items a band hits. */
  lemma HitsNearA()
    ensures Hit(ItemA, Rect(10, 10, 30, 30), Viewport(0)) && !Hit(ItemB, Rect(10, 10, 30, 30), Viewport(0))
  {
  }

  lemma HitsOverBoth()
    ensures Hit(ItemA, Rect(10, 10, 110, 110), Viewport(0)) && Hit(ItemB, Rect(10, 10, 110, 110), Viewport(0))
  {
  }

  lemma HitsScrolled()
    ensures Hit(ScrolledA, Rect(10, 10, 30, 60), Viewport(30)) && !Hit(ScrolledB, Rect(10, 10, 30, 60), Viewport(30))
  {
  }

  lemma HitsInsideB()
    ensures !Hit(ItemA, Rect(120, 120, 1, 1), Viewport(0)) && Hit(ItemB, Rect(120, 120, 1, 1), Viewport(0))
  {
  }

  lemma HitsPending()
    ensures Hit(ScrolledA, Rect(10, 10, 0, 30), Viewport(30)) && !Hit(ScrolledB, Rect(10, 10, 0, 30), Viewport(30))
  {
  }

  /** Band (10, 10, 30, 30), no scroll: A only. */
  lemma SelectionNearA()
    ensures SelectionFor(Vector(10, 10, 30, 30), Vector(0, 0, 0, 0), Viewport(0), Items()) == map["A" := true]
  {
    assert SelectionArea(Vector(10, 10, 30, 30), Vector(0, 0, 0, 0)) == Rect(10, 10, 30, 30);
    HitsNearA();
    SelectedIdsOfTwo(Rect(10, 10, 30, 30), Viewport(0), true, false);
    RecordsOfTwo();
  }

  /** Band (10, 10, 110, 110), no scroll: A and B. */
  lemma SelectionOverBoth()
    ensures SelectionFor(Vector(10, 10, 110, 110), Vector(0, 0, 0, 0), Viewport(0), Items())
         == map["A" := true, "B" := true]
  {
    assert SelectionArea(Vector(10, 10, 110, 110), Vector(0, 0, 0, 0)) == Rect(10, 10, 110, 110);
    HitsOverBoth();
    SelectedIdsOfTwo(Rect(10, 10, 110, 110), Viewport(0), true, true);
    RecordsOfTwo();
  }

  /** Band (10, 10, 30, 60) after 30 pixels of scroll: still A only. */
  lemma SelectionScrolled()
    ensures SelectionFor(Vector(10, 10, 30, 30), Vector(0, 0, 0, 30), Viewport(30), ScrolledItems()) == map["A" := true]
  {
    assert SelectionArea(Vector(10, 10, 30, 30), Vector(0, 0, 0, 30)) == Rect(10, 10, 30, 60);
    HitsScrolled();
    SelectedIdsOfScrolled(Rect(10, 10, 30, 60), Viewport(30), true, false);
    RecordsOfTwo();
  }

  /** A press at (10, 10) with no move, then 30 pixels of scroll: the band (10, 10, 0, 30) reaches A only. */
  lemma SelectionPending()
    ensures SelectionFor(Vector(10, 10, 0, 0), Vector(0, 0, 0, 30), Viewport(30), ScrolledItems()) == map["A" := true]
  {
    assert SelectionArea(Vector(10, 10, 0, 0), Vector(0, 0, 0, 30)) == Rect(10, 10, 0, 30);
    HitsPending();
    SelectedIdsOfScrolled(Rect(10, 10, 0, 30), Viewport(30), true, false);
    RecordsOfTwo();
  }

  /** Band (120, 120, 1, 1), no scroll: B only. */
  lemma SelectionInsideB()
    ensures SelectionFor(Vector(120, 120, 1, 1), Vector(0, 0, 0, 0), Viewport(0), Items()) == map["B" := true]
  {
    assert SelectionArea(Vector(120, 120, 1, 1), Vector(0, 0, 0, 0)) == Rect(120, 120, 1, 1);
    HitsInsideB();
    SelectedIdsOfTwo(Rect(120, 120, 1, 1), Viewport(0), false, true);
    RecordsOfTwo();
  }

  /**
    Press at (10, 10) and move to (40, 40): the gesture (about 42 pixels) is a
    drag, the band is (10, 10, 30, 30), and only A is selected.
  */
  method DragOverFirstItem() returns (dragging: bool, selected: Selection, band: Option<Rect>)
    ensures dragging && selected == map["A" := true] && band == Some(Rect(10, 10, 30, 30))
  {
    var c, items := Viewport(0), Items();
    var controller := new DragController();
    var _ := controller.PointerDown(0, 10, 10, c);
    var _ := controller.PointerMove(40, 40, c, Some(c), items);
    SelectionNearA();
    dragging, selected := controller.isDragging, controller.selectedItems;
    band := controller.SelectionRect(Some(c));
  }

  /** Press at (10, 10) and move to (120, 120): the band reaches B, so both items are selected. */
  method DragOverBothItems() returns (selected: Selection)
    ensures selected == map["A" := true, "B" := true]
  {
    var c, items := Viewport(0), Items();
    var controller := new DragController();
    var _ := controller.PointerDown(0, 10, 10, c);
    var _ := controller.PointerMove(120, 120, c, Some(c), items);
    SelectionOverBoth();
    selected := controller.selectedItems;
  }

  /**
    After a drag that selected A, a press and a 5-pixel move (below the
    activation distance) and a release empty the selection; no drag starts.
  */
  method ClickClearsSelection() returns (dragging: bool, selected: Selection)
    ensures !dragging && selected == map[]
  {
    var c, items := Viewport(0), Items();
    var controller := new DragController();
    var _ := controller.PointerDown(0, 10, 10, c);
    var _ := controller.PointerMove(40, 40, c, Some(c), items);
    controller.PointerUp();
    var _ := controller.PointerDown(0, 200, 200, c);
    var _ := controller.PointerMove(203, 204, c, Some(c), items);
    assert !controller.isDragging;
    controller.PointerUp();
    dragging, selected := controller.isDragging, controller.selectedItems;
  }

  /**
    During the drag to (40, 40) the container scrolls down 30 pixels: the
    band's far edge moves down by the scroll in content coordinates, and the
    selection is recomputed against it (A is still the only hit).
  */
  method ScrollDuringDrag() returns (band: Option<Rect>, selected: Selection)
    ensures band == Some(Rect(10, 10, 30, 60)) && selected == map["A" := true]
  {
    var c, items := Viewport(0), Items();
    var controller := new DragController();
    var _ := controller.PointerDown(0, 10, 10, c);
    var _ := controller.PointerMove(40, 40, c, Some(c), items);
    var scrolled, scrolledItems := Viewport(30), ScrolledItems();
    controller.Scroll(scrolled, Some(scrolled), scrolledItems);
    SelectionScrolled();
    selected := controller.selectedItems;
    BandScrolled(controller);
    band := controller.SelectionRect(Some(scrolled));
  }

  /** The band after the scroll, clamped to the 1000 by 1000 content. */
  lemma BandScrolled(controller: DragController)
    requires controller.isDragging
    requires controller.dragVector == Some(Vector(10, 10, 30, 30))
    requires controller.scrollVector == Some(Vector(0, 0, 0, 30))
    ensures controller.SelectionRect(Some(Viewport(30))) == Some(Rect(10, 10, 30, 60))
  {
    var v := Add(Vector(10, 10, 30, 30), Vector(0, 0, 0, 30));
    assert v == Vector(10, 10, 30, 60);
    assert Clamp(v, Rect(0, 0, 1000, 1000)) == v;
    assert ToDOMRect(v) == Rect(10, 10, 30, 60);
  }

  /**
    Escape during a drag empties the selection and clears the gesture but
    leaves the dragging flag set. If a new press at (120, 120) arrives with no
    release in between (a second touch pointer, or a lost release), a 1-pixel
    move then skips the activation distance and selects B.
  */
  method EscapeKeepsDraggingFlag() returns (draggingAfterEscape: bool, selectedAfterEscape: Selection,
                                            selectedAfterNudge: Selection)
    ensures draggingAfterEscape && selectedAfterEscape == map[]
    ensures selectedAfterNudge == map["B" := true]
  {
    var c, items := Viewport(0), Items();
    var controller := new DragController();
    var _ := controller.PointerDown(0, 10, 10, c);
    var _ := controller.PointerMove(40, 40, c, Some(c), items);
    var _ := controller.KeyDown("Escape");
    draggingAfterEscape, selectedAfterEscape := controller.isDragging, controller.selectedItems;
    var _ := controller.PointerDown(0, 120, 120, c);
    var _ := controller.PointerMove(121, 121, c, Some(c), items);
    SelectionInsideB();
    selectedAfterNudge := controller.selectedItems;
  }

  /**
    A release after Escape still finds the dragging flag set, so it ends the
    drag and keeps the (empty) selection; the next press and 1-pixel move are
    then below the activation distance and select nothing.
  */
  method EscapeThenReleaseResetsFlag() returns (dragging: bool, selected: Selection)
    ensures !dragging && selected == map[]
  {
    var c, items := Viewport(0), Items();
    var controller := new DragController();
    var _ := controller.PointerDown(0, 10, 10, c);
    var _ := controller.PointerMove(40, 40, c, Some(c), items);
    var _ := controller.KeyDown("Escape");
    controller.PointerUp();
    var _ := controller.PointerDown(0, 120, 120, c);
    var _ := controller.PointerMove(121, 121, c, Some(c), items);
    dragging, selected := controller.isDragging, controller.selectedItems;
  }

  /**
    A scroll while the gesture is still pending (pressed, not yet moved the
    activation distance) recomputes and commits the selection, because the
    scroll handler checks only the two vectors. No drag is active, so no band
    is drawn, and the release that follows empties the selection again.
  */
  method ScrollWhilePending() returns (dragging: bool, selectedWhilePending: Selection,
                                      band: Option<Rect>, selectedAfterRelease: Selection)
    ensures !dragging && selectedWhilePending == map["A" := true] && band == None
    ensures selectedAfterRelease == map[]
  {
    var c := Viewport(0);
    var controller := new DragController();
    var _ := controller.PointerDown(0, 10, 10, c);
    var scrolled, scrolledItems := Viewport(30), ScrolledItems();
    controller.Scroll(scrolled, Some(scrolled), scrolledItems);
    SelectionPending();
    dragging, selectedWhilePending := controller.isDragging, controller.selectedItems;
    band := controller.SelectionRect(Some(scrolled));
    controller.PointerUp();
    selectedAfterRelease := controller.selectedItems;
  }

  /**
    A key other than Escape during a drag clears only the scroll vector. The
    drag stays active, but later moves are ignored (they need both vectors),
    no band is drawn, and the auto-scroll loop keeps scrolling towards the
    edge at the last pointer position.
  */
  method OtherKeyFreezesDrag() returns (dragging: bool, selectedBefore: Selection, selectedAfter: Selection,
                                        band: Option<Rect>, tick: Option<ScrollBy>)
    ensures dragging && selectedAfter == selectedBefore && band == None && tick.Some?
  {
    var c, items := Viewport(0), Items();
    var controller := new DragController();
    var _ := controller.PointerDown(0, 10, 10, c);
    var _ := controller.PointerMove(395, 40, c, Some(c), items);
    selectedBefore := controller.selectedItems;
    var _ := controller.KeyDown("Shift");
    var _ := controller.PointerMove(120, 120, c, Some(c), items);
    dragging, selectedAfter := controller.isDragging, controller.selectedItems;
    band := controller.SelectionRect(Some(c));
    tick := controller.AutoScrollTick(Some(c));
  }
}
