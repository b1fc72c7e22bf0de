/**
  The drag controller: the state machine behind a rubber-band selection.
  A primary-button press anchors a gesture; once the pointer has moved at
  least the activation distance the gesture becomes a drag, and every move
  or scroll recomputes which items the band covers. Release ends the drag
  (a release without a drag clears the selection); Escape cancels.

  The browser is a parameter: the container's bounding rectangle and scroll
  state arrive as a `Container` value (absent when the container is not
  mounted), the `[data-item]` elements as a sequence of `Item`s, and the
  focus, pointer-capture and scroll commands the controller issues come back
  as results.
*/
module DragToSelect {
  import opened Optional
  import opened Dom
  import opened DomVector
  import opened RectOverlap
  import opened SelectionRecords
  import opened AutoScroll

  /** The primary pointer button. */
  const PrimaryButton: int := 0

  /** Activation distance, in pixels: a shorter gesture is still a click. */
  const ActivationThreshold: int := 10

  /** The container element as the controller reads it at one instant. */
  datatype Container = Container(
    rect: Rect,          // getBoundingClientRect(), viewport coordinates
    scrollLeft: int,
    scrollTop: int,
    scrollWidth: int,
    scrollHeight: int)

  /**
    One element matched by `[data-item]`: whether it is an HTMLElement, its
    `data-item` attribute (absent when unset) and its bounding rectangle in
    viewport coordinates.
  */
  datatype Item = Item(isElement: bool, id: Option<string>, rect: Rect)

  type Selection = map<string, bool>

  // ---------------------------------------------------------------------------
  // Selection recomputation: specification

  /** An item's rectangle moved from viewport coordinates into the container's content coordinates. */
  function ToContent(itemRect: Rect, c: Container): (r: Rect)
    ensures r.width == itemRect.width && r.height == itemRect.height
    ensures r.x - itemRect.x == c.scrollLeft - c.rect.x && r.y - itemRect.y == c.scrollTop - c.rect.y
  {
    Rect(itemRect.x - c.rect.x + c.scrollLeft, itemRect.y - c.rect.y + c.scrollTop,
         itemRect.width, itemRect.height)
  }

  /** The element is an HTMLElement whose content rectangle meets `area`. */
  predicate Hit(item: Item, area: Rect, c: Container) {
    item.isElement && Intersect(area, ToContent(item.rect, c))
  }

  /** The element carries a non-empty `data-item` id (an empty one is falsy). */
  predicate HasId(item: Item) {
    item.id.Some? && item.id.value != ""
  }

  /**
    The ids of the items among `items` that `area` selects, gathered in
    document order.
  */
  function SelectedIds(items: seq<Item>, area: Rect, c: Container): set<string>
    decreases |items|
  {
    if items == [] then
      {}
    else
      var last := items[|items| - 1];
      SelectedIds(items[..|items| - 1], area, c) +
      (if Hit(last, area, c) && HasId(last) then {last.id.value} else {})
  }

  /** A selection record holding `true` for exactly the given ids. */
  function AllSelected(ids: set<string>): (m: Selection)
    ensures m.Keys == ids
    ensures forall id :: id in m ==> m[id]
  {
    map id | id in ids :: true
  }

  /** The band in content coordinates: the drag vector shifted by the scroll since the press. */
  function SelectionArea(drag: Vector, scroll: Vector): Rect {
    ToDOMRect(Add(drag, scroll))
  }

  /**
    The selection the controller computes for a drag vector, a scroll vector
    and the container and items as they are now.
  */
  function SelectionFor(drag: Vector, scroll: Vector, c: Container, items: seq<Item>): Selection {
    AllSelected(SelectedIds(items, SelectionArea(drag, scroll), c))
  }

  // ---------------------------------------------------------------------------
  // Selection recomputation: properties

  /** An id is selected exactly when some element carrying it is hit by the band. */
  lemma {:induction false} SelectedIffHit(items: seq<Item>, area: Rect, c: Container, id: string)
    ensures id in SelectedIds(items, area, c) <==>
              exists i :: 0 <= i < |items| && Hit(items[i], area, c) && items[i].id == Some(id) && id != ""
    decreases |items|
  {
    if items != [] {
      var n := |items| - 1;
      var prefix := items[..n];
      SelectedIffHit(prefix, area, c, id);
      if id in SelectedIds(prefix, area, c) {
        var i :| 0 <= i < |prefix| && Hit(prefix[i], area, c) && prefix[i].id == Some(id) && id != "";
        assert items[i] == prefix[i];
      }
      if exists i :: 0 <= i < |items| && Hit(items[i], area, c) && items[i].id == Some(id) && id != "" {
        var i :| 0 <= i < |items| && Hit(items[i], area, c) && items[i].id == Some(id) && id != "";
        if i < n {
          assert prefix[i] == items[i];
        }
      }
    }
  }

  /** A band that covers another selects at least the same items. */
  lemma {:induction false} SelectionMonotone(items: seq<Item>, small: Rect, large: Rect, c: Container)
    requires Within(small, large)
    ensures SelectedIds(items, small, c) <= SelectedIds(items, large, c)
    decreases |items|
  {
    if items != [] {
      var last := items[|items| - 1];
      SelectionMonotone(items[..|items| - 1], small, large, c);
      if Hit(last, small, c) {
        IntersectMonotone(small, large, ToContent(last.rect, c));
      }
    }
  }

  /** Elements without a usable id, and non-HTMLElements, never change the selection. */
  lemma IgnoredItemsDoNotMatter(items: seq<Item>, extra: Item, area: Rect, c: Container)
    requires !extra.isElement || !HasId(extra)
    ensures SelectedIds(items + [extra], area, c) == SelectedIds(items, area, c)
  {
  }

  /** The order of the elements does not matter: swapping two neighbours selects the same ids. */
  lemma {:induction false} SelectionIgnoresOrder(front: seq<Item>, a: Item, b: Item, back: seq<Item>,
                                                 area: Rect, c: Container)
    ensures SelectedIds(front + [a, b] + back, area, c) == SelectedIds(front + [b, a] + back, area, c)
    decreases |back|
  {
    var ab, ba := front + [a, b] + back, front + [b, a] + back;
    if back == [] {
      assert ab[..|ab| - 1] == front + [a] && (front + [a])[..|front|] == front;
      assert ba[..|ba| - 1] == front + [b] && (front + [b])[..|front|] == front;
    } else {
      var n := |back| - 1;
      SelectionIgnoresOrder(front, a, b, back[..n], area, c);
      assert ab[..|ab| - 1] == front + [a, b] + back[..n];
      assert ba[..|ba| - 1] == front + [b, a] + back[..n];
    }
  }

  /**
    The `forEach` over the `[data-item]` elements that builds the `next`
    record: each HTMLElement whose content rectangle meets `area` and that has
    a non-empty id is entered with `true`.
  */
  method CollectSelected(area: Rect, c: Container, items: seq<Item>) returns (next: Selection)
    ensures next == AllSelected(SelectedIds(items, area, c))
  {
    next := map[];
    var i := 0;
    while i < |items|
      invariant 0 <= i <= |items|
      invariant next == AllSelected(SelectedIds(items[..i], area, c))
    {
      var item := items[i];
      assert items[..i + 1][..i] == items[..i];
      if item.isElement && Intersect(area, ToContent(item.rect, c)) {
        if item.id.Some? && item.id.value != "" {
          next := next[item.id.value := true];
        }
      }
      i := i + 1;
    }
    assert items[..i] == items;
  }

  // ---------------------------------------------------------------------------
  // The controller

  class DragController {
    var dragVector: Option<Vector>
    var scrollVector: Option<Vector>
    var isDragging: bool
    var selectedItems: Selection

    /**
      What every handler keeps: a scroll vector exists only alongside a drag
      vector, and a selection record only ever holds `true`.
    */
    ghost predicate Valid()
      reads this
    {
      (scrollVector.Some? ==> dragVector.Some?) &&
      (forall id :: id in selectedItems ==> selectedItems[id])
    }

    /** The initial state: no gesture, not dragging, nothing selected. */
    constructor ()
      ensures Valid()
      ensures dragVector == None && scrollVector == None && !isDragging && selectedItems == map[]
    {
      dragVector := None;
      scrollVector := None;
      isDragging := false;
      selectedItems := map[];
    }

    /**
      The rubber band to draw, in content coordinates: present only during a
      drag with both vectors set and the container mounted. It spans, on each
      axis, from the combined anchor to the combined terminal point capped at
      the content size; only the far edges are capped.
    */
    function SelectionRect(container: Option<Container>): (r: Option<Rect>)
      reads this
      ensures r.Some? <==> dragVector.Some? && scrollVector.Some? && isDragging && container.Some?
      ensures r.Some? ==>
        var v := Add(dragVector.value, scrollVector.value);
        var tip := Point(Min(container.value.scrollWidth, v.x + v.magnitudeX),
                         Min(container.value.scrollHeight, v.y + v.magnitudeY));
        r.value.width >= 0 && r.value.height >= 0 &&
        r.value.Left() == Min(v.x, tip.x) && r.value.Right() == Max(v.x, tip.x) &&
        r.value.Top() == Min(v.y, tip.y) && r.value.Bottom() == Max(v.y, tip.y)
    {
      if dragVector.Some? && scrollVector.Some? && isDragging && container.Some? then
        var c := container.value;
        Some(ToDOMRect(Clamp(Add(dragVector.value, scrollVector.value),
                             Rect(0, 0, c.scrollWidth, c.scrollHeight))))
      else
        None
    }

    /**
      Recomputes the selection for the given vectors and commits it unless it
      equals the current one. Nothing happens while the container is absent.
      `committed` reports whether a new record was stored.
    */
    method UpdateSelectedItems(drag: Vector, scroll: Vector, container: Option<Container>, items: seq<Item>)
      returns (committed: bool)
      requires Valid()
      modifies this
      ensures Valid()
      ensures dragVector == old(dragVector) && scrollVector == old(scrollVector)
      ensures isDragging == old(isDragging)
      ensures container.None? ==> selectedItems == old(selectedItems) && !committed
      ensures container.Some? ==> selectedItems == SelectionFor(drag, scroll, container.value, items)
      ensures committed <==> selectedItems != old(selectedItems)
    {
      committed := false;
      if container.None? {
        return;
      }
      var next := CollectSelected(SelectionArea(drag, scroll), container.value, items);
      if !ShallowEqual(next, selectedItems) {
        selectedItems := next;
        committed := true;
      }
    }

    /**
      Pointer press on the container `target`. Only the primary button counts:
      it anchors the drag vector at the pointer, relative to the container,
      and the scroll vector at the current scroll offsets, both with no
      displacement, and captures the pointer. The dragging flag and the
      selection are untouched.
    */
    method PointerDown(button: int, clientX: int, clientY: int, target: Container)
      returns (captured: bool)
      requires Valid()
      modifies this
      ensures Valid()
      ensures captured <==> button == PrimaryButton
      ensures button != PrimaryButton ==>
        dragVector == old(dragVector) && scrollVector == old(scrollVector)
      ensures button == PrimaryButton ==>
        dragVector == Some(Vector(clientX - target.rect.x, clientY - target.rect.y, 0, 0)) &&
        scrollVector == Some(Vector(target.scrollLeft, target.scrollTop, 0, 0))
      ensures isDragging == old(isDragging) && selectedItems == old(selectedItems)
    {
      if button != PrimaryButton {
        return false;
      }
      dragVector := Some(Vector(clientX - target.rect.x, clientY - target.rect.y, 0, 0));
      captured := true;
      scrollVector := Some(Vector(target.scrollLeft, target.scrollTop, 0, 0));
    }

    /**
      Pointer move over `target`. Without a gesture nothing happens. The new
      drag vector keeps the anchor and points at the pointer; before the drag
      is active a move shorter than the activation distance is ignored.
      Otherwise the drag becomes active, the container gets focus (when
      mounted), the drag vector is stored and the selection recomputed.
    */
    method PointerMove(clientX: int, clientY: int, target: Container,
                       container: Option<Container>, items: seq<Item>)
      returns (focused: bool)
      requires Valid()
      modifies this
      ensures Valid()
      ensures scrollVector == old(scrollVector)
      ensures old(dragVector).None? || old(scrollVector).None? ==>
        dragVector == old(dragVector) && isDragging == old(isDragging) &&
        selectedItems == old(selectedItems) && !focused
      ensures old(dragVector).Some? && old(scrollVector).Some? ==>
        var anchor := old(dragVector).value;
        var next := Vector(anchor.x, anchor.y, clientX - target.rect.x - anchor.x, clientY - target.rect.y - anchor.y);
        if !old(isDragging) && DiagonalLengthSquared(next) < ActivationThreshold * ActivationThreshold then
          dragVector == old(dragVector) && !isDragging && selectedItems == old(selectedItems) && !focused
        else
          dragVector == Some(next) && isDragging && focused == container.Some? &&
          ToTerminalPoint(next) == Point(clientX - target.rect.x, clientY - target.rect.y) &&
          (container.None? ==> selectedItems == old(selectedItems)) &&
          (container.Some? ==> selectedItems == SelectionFor(next, old(scrollVector).value, container.value, items))
    {
      if dragVector.None? || scrollVector.None? {
        return false;
      }
      var anchor := dragVector.value;
      var next := Vector(anchor.x, anchor.y, clientX - target.rect.x - anchor.x, clientY - target.rect.y - anchor.y);
      if !isDragging && DiagonalLengthSquared(next) < ActivationThreshold * ActivationThreshold {
        return false;
      }
      isDragging := true;
      focused := container.Some?;
      dragVector := Some(next);
      var _ := UpdateSelectedItems(next, scrollVector.value, container, items);
    }

    /**
      Pointer release. Both vectors are cleared. Without an active drag (a
      click) the selection is emptied; after a drag the selection is kept
      and the drag ends.
    */
    method PointerUp()
      requires Valid()
      modifies this
      ensures Valid()
      ensures dragVector == None && scrollVector == None
      ensures !old(isDragging) ==> selectedItems == map[] && !isDragging
      ensures old(isDragging) ==> selectedItems == old(selectedItems) && !isDragging
    {
      if !isDragging {
        selectedItems := map[];
      } else {
        isDragging := false;
      }
      dragVector := None;
      scrollVector := None;
    }

    /**
      Key press. Every key clears the scroll vector. Escape also empties the
      selection and clears the drag vector, and suppresses the browser's
      default action (`preventDefault`). The dragging flag is never touched.
    */
    method KeyDown(key: string) returns (preventDefault: bool)
      requires Valid()
      modifies this
      ensures Valid()
      ensures preventDefault <==> key == "Escape"
      ensures scrollVector == None && isDragging == old(isDragging)
      ensures key == "Escape" ==> selectedItems == map[] && dragVector == None
      ensures key != "Escape" ==> selectedItems == old(selectedItems) && dragVector == old(dragVector)
    {
      preventDefault := false;
      if key == "Escape" {
        preventDefault := true;
        selectedItems := map[];
        dragVector := None;
      }
      scrollVector := None;
    }

    /**
      The container `target` scrolled. Without a gesture nothing happens.
      Otherwise the scroll vector keeps its anchor (the offsets at the press)
      and its displacement becomes the scroll since then; the drag vector is
      kept and the selection recomputed.
    */
    method Scroll(target: Container, container: Option<Container>, items: seq<Item>)
      requires Valid()
      modifies this
      ensures Valid()
      ensures dragVector == old(dragVector) && isDragging == old(isDragging)
      ensures old(dragVector).None? || old(scrollVector).None? ==>
        scrollVector == old(scrollVector) && selectedItems == old(selectedItems)
      ensures old(dragVector).Some? && old(scrollVector).Some? ==>
        var anchor := old(scrollVector).value;
        var next := Vector(anchor.x, anchor.y, target.scrollLeft - anchor.x, target.scrollTop - anchor.y);
        scrollVector == Some(next) &&
        ToTerminalPoint(next) == Point(target.scrollLeft, target.scrollTop) &&
        (container.None? ==> selectedItems == old(selectedItems)) &&
        (container.Some? ==> selectedItems == SelectionFor(dragVector.value, next, container.value, items))
    {
      if dragVector.None? || scrollVector.None? {
        return;
      }
      var anchor := scrollVector.value;
      var next := Vector(anchor.x, anchor.y, target.scrollLeft - anchor.x, target.scrollTop - anchor.y);
      scrollVector := Some(next);
      var _ := UpdateSelectedItems(dragVector.value, next, container, items);
    }

    /**
      One frame of the auto-scroll loop: the command issued to the container,
      if any. The loop runs only during a drag, with the container mounted and
      a drag vector; the pointer is the drag vector's terminal point.
    */
    function AutoScrollTick(container: Option<Container>): (cmd: Option<ScrollBy>)
      reads this
      ensures !isDragging || container.None? || dragVector.None? ==> cmd.None?
      ensures isDragging && container.Some? && dragVector.Some? ==>
        cmd == AutoScrollStep(ToTerminalPoint(dragVector.value), container.value.rect)
      ensures cmd.Some? ==>
        var tip := ToTerminalPoint(dragVector.value);
        var c := container.value;
        (tip.x < EdgeBand || c.rect.width - tip.x < EdgeBand ||
         tip.y < EdgeBand || c.rect.height - tip.y < EdgeBand) &&
        (cmd.value.left.Some? ==> -MaxScrollStep <= cmd.value.left.value <= MaxScrollStep) &&
        (cmd.value.top.Some? ==> -MaxScrollStep <= cmd.value.top.value <= MaxScrollStep)
    {
      if !isDragging || container.None? || dragVector.None? then
        None
      else
        AutoScrollStep(ToTerminalPoint(dragVector.value), container.value.rect)
    }
  }
}
