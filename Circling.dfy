/**
 * The selection box of floatings/screenCircling/CirclingView.kt: a drag creates a
 * box from two corner points, resize gestures move its edges, and `fixBoxSize`
 * grows a box that is narrower or lower than MIN_SCREEN_CROP_SIZE, shifting it back
 * when it would leave the view.
 */
module Circling {
  import opened Graphics
  import opened Wrappers
  import opened Constants

  /** `createNewBox`: the box spanned by two drag points, whatever their order. */
  function CreateNewBox(start: Point, end: Point): (r: Rect)
    ensures r.left <= r.right && r.top <= r.bottom
    ensures {r.left, r.right} == {start.x, end.x}
    ensures {r.top, r.bottom} == {start.y, end.y}
  {
    Rect(Min(start.x, end.x), Min(start.y, end.y), Max(start.x, end.x), Max(start.y, end.y))
  }

  /** Swapping the two drag points gives the same box. */
  lemma CreateNewBoxSymmetric(a: Point, b: Point)
    ensures CreateNewBox(a, b) == CreateNewBox(b, a)
  {
  }

  /** The horizontal half of `fixBoxSize`. */
  function FixWidth(r: Rect, parent: Rect): (f: Rect)
    ensures f.top == r.top && f.bottom == r.bottom
    ensures f.Width() >= MIN_SCREEN_CROP_SIZE
    ensures r.Width() >= MIN_SCREEN_CROP_SIZE ==> f == r
    ensures r.Width() < MIN_SCREEN_CROP_SIZE ==> f.Width() == MIN_SCREEN_CROP_SIZE
  {
    if r.Width() < MIN_SCREEN_CROP_SIZE then
      var right := r.right + (MIN_SCREEN_CROP_SIZE - r.Width());
      if right > parent.right then
        var move := right - parent.right;
        r.(left := r.left - move, right := right - move)
      else
        r.(right := right)
    else
      r
  }

  /** The vertical half of `fixBoxSize`. */
  function FixHeight(r: Rect, parent: Rect): (f: Rect)
    ensures f.left == r.left && f.right == r.right
    ensures f.Height() >= MIN_SCREEN_CROP_SIZE
    ensures r.Height() >= MIN_SCREEN_CROP_SIZE ==> f == r
    ensures r.Height() < MIN_SCREEN_CROP_SIZE ==> f.Height() == MIN_SCREEN_CROP_SIZE
  {
    if r.Height() < MIN_SCREEN_CROP_SIZE then
      var bottom := r.bottom + (MIN_SCREEN_CROP_SIZE - r.Height());
      if bottom > parent.bottom then
        var move := bottom - parent.bottom;
        r.(top := r.top - move, bottom := bottom - move)
      else
        r.(bottom := bottom)
    else
      r
  }

  /** What `fixBoxSize` leaves in a box, width first, then height. */
  function FixedBox(r: Rect, parent: Rect): (f: Rect)
    ensures f.Width() >= MIN_SCREEN_CROP_SIZE && f.Height() >= MIN_SCREEN_CROP_SIZE
    ensures r.Width() >= MIN_SCREEN_CROP_SIZE ==> f.left == r.left && f.right == r.right
    ensures r.Height() >= MIN_SCREEN_CROP_SIZE ==> f.top == r.top && f.bottom == r.bottom
  {
    FixHeight(FixWidth(r, parent), parent)
  }

  /**
   * A box that starts inside the parent (low edges at or past the parent's low edges,
   * high edges at or before its high edges; a box may still be inverted) stays inside
   * after fixing, provided the parent is at least MIN_SCREEN_CROP_SIZE in each dimension.
   */
  lemma FixedBoxInsideParent(r: Rect, parent: Rect)
    requires parent.Width() >= MIN_SCREEN_CROP_SIZE && parent.Height() >= MIN_SCREEN_CROP_SIZE
    requires parent.left <= r.left && r.right <= parent.right
    requires parent.top <= r.top && r.bottom <= parent.bottom
    ensures parent.Contains(FixedBox(r, parent))
  {
    var w := FixWidth(r, parent);
    assert parent.left <= w.left && w.right <= parent.right;
  }

  /** When a dimension is short, the box grows to exactly the minimum; at the parent's edge it is shifted back. */
  lemma FixedBoxShortWidth(r: Rect, parent: Rect)
    requires r.Width() < MIN_SCREEN_CROP_SIZE
    ensures FixedBox(r, parent).Width() == MIN_SCREEN_CROP_SIZE
    ensures r.left + MIN_SCREEN_CROP_SIZE <= parent.right ==> FixedBox(r, parent).left == r.left
    ensures r.left + MIN_SCREEN_CROP_SIZE > parent.right ==> FixedBox(r, parent).right == parent.right
  {
  }

  /** Fixing a fixed box changes nothing, so the `selectedBox` observer may re-apply it. */
  lemma FixedBoxIdempotent(r: Rect, parent: Rect)
    ensures FixedBox(FixedBox(r, parent), parent) == FixedBox(r, parent)
  {
    var f := FixedBox(r, parent);
    assert FixWidth(f, parent) == f;
  }

  /** A parent narrower than the minimum pushes the fixed box out past its left edge. */
  lemma SmallParentPushesBoxOut()
    ensures var parent := Rect(0, 0, 10, 100);
            var f := FixedBox(Rect(0, 0, 5, 50), parent);
            f.left == -22 && f.right == 10 && !parent.Contains(f)
  {
  }

  /** Dragging two points inside a parent at least MIN_SCREEN_CROP_SIZE wide and high gives a box inside it of at least that size. */
  lemma DragBoxInsideParent(a: Point, b: Point, parent: Rect)
    requires parent.Width() >= MIN_SCREEN_CROP_SIZE && parent.Height() >= MIN_SCREEN_CROP_SIZE
    requires parent.left <= a.x <= parent.right && parent.left <= b.x <= parent.right
    requires parent.top <= a.y <= parent.bottom && parent.top <= b.y <= parent.bottom
    ensures var f := FixedBox(CreateNewBox(a, b), parent);
            parent.Contains(f) && f.Width() >= MIN_SCREEN_CROP_SIZE && f.Height() >= MIN_SCREEN_CROP_SIZE
  {
    FixedBoxInsideParent(CreateNewBox(a, b), parent);
  }

  /**
   * The steps of the example below, first of three: the 10x10 drag from the
   * origin gives the box with those corners; each half of the fix follows.
   */
  lemma TinyDragBox()
    ensures CreateNewBox(Point(0, 0), Point(10, 10)) == Rect(0, 0, 10, 10)
  {
  }

  /** That box is too narrow and widens to the minimum. */
  lemma TinyDragWidthFixed()
    ensures FixWidth(Rect(0, 0, 10, 10), Rect(0, 0, 500, 500)) == Rect(0, 0, 32, 10)
  {
    assert Rect(0, 0, 10, 10).Width() == 10;
  }

  /** The widened box is too short and grows to the minimum height. */
  lemma TinyDragHeightFixed()
    ensures FixHeight(Rect(0, 0, 32, 10), Rect(0, 0, 500, 500)) == Rect(0, 0, 32, 32)
  {
    assert Rect(0, 0, 32, 10).Height() == 10;
  }

  /** A 10x10 drag in a 500x500 parent becomes exactly 32x32, anchored at the drag's corner. */
  lemma TinyDragGrowsToMinimum()
    ensures FixedBox(CreateNewBox(Point(0, 0), Point(10, 10)), Rect(0, 0, 500, 500)) == Rect(0, 0, 32, 32)
  {
    TinyDragBox();
    TinyDragWidthFixed();
    TinyDragHeightFixed();
  }

  /** A 100x100 drag, made in either direction, is kept as it is. */
  lemma LargeDragKept()
    ensures FixedBox(CreateNewBox(Point(100, 100), Point(0, 0)), Rect(0, 0, 500, 500)) == Rect(0, 0, 100, 100)
  {
    var parent := Rect(0, 0, 500, 500);
    assert CreateNewBox(Point(100, 100), Point(0, 0)) == Rect(0, 0, 100, 100);
    assert FixWidth(Rect(0, 0, 100, 100), parent) == Rect(0, 0, 100, 100);
  }

  /** The per-edge clamping of `onAreaResizing`, before `fixBoxSize`. */
  function ClampedEdges(base: Rect, dl: int, dr: int, dt: int, db: int, parent: Rect): (r: Rect)
    ensures parent.left <= r.left && r.right <= parent.right
    ensures parent.top <= r.top && r.bottom <= parent.bottom
    ensures r.left < parent.right ==> r.left < r.right
    ensures r.top < parent.bottom ==> r.top < r.bottom
  {
    var left := Max(base.left + dl, parent.left);
    var right := Min(Max(left + 1, base.right + dr), parent.right);
    var top := Max(base.top + dt, parent.top);
    var bottom := Min(Max(top + 1, base.bottom + db), parent.bottom);
    Rect(left, top, right, bottom)
  }

  /** The box after a resize gesture with edge deltas relative to `base`. */
  function Resized(base: Rect, dl: int, dr: int, dt: int, db: int, parent: Rect): Rect
  {
    FixedBox(ClampedEdges(base, dl, dr, dt, db, parent), parent)
  }

  /** Whatever the deltas, a resized box is inside a parent of at least the minimum size and never degenerate. */
  lemma ResizedInsideParent(base: Rect, dl: int, dr: int, dt: int, db: int, parent: Rect)
    requires parent.Width() >= MIN_SCREEN_CROP_SIZE && parent.Height() >= MIN_SCREEN_CROP_SIZE
    ensures var r := Resized(base, dl, dr, dt, db, parent);
            parent.Contains(r) && r.left < r.right && r.top < r.bottom
            && r.Width() >= MIN_SCREEN_CROP_SIZE && r.Height() >= MIN_SCREEN_CROP_SIZE
  {
    FixedBoxInsideParent(ClampedEdges(base, dl, dr, dt, db, parent), parent);
  }

  /** An android.graphics.Rect, whose edges `fixBoxSize` and the resize gesture change in place. */
  class MutableRect {
    var left: int
    var top: int
    var right: int
    var bottom: int

    function Value(): Rect
      reads this
    {
      Rect(left, top, right, bottom)
    }

    constructor (r: Rect)
      ensures Value() == r
    {
      left, top, right, bottom := r.left, r.top, r.right, r.bottom;
    }

    /** `Rect.fixBoxSize()` against the view's rectangle `parent`. */
    method FixBoxSize(parent: Rect)
      modifies this
      ensures Value() == FixedBox(old(Value()), parent)
    {
      if right - left < MIN_SCREEN_CROP_SIZE {
        right := right + (MIN_SCREEN_CROP_SIZE - (right - left));
        if right > parent.right {
          var move := right - parent.right;
          right := right - move;
          left := left - move;
        }
      }
      if bottom - top < MIN_SCREEN_CROP_SIZE {
        bottom := bottom + (MIN_SCREEN_CROP_SIZE - (bottom - top));
        if bottom > parent.bottom {
          var move := bottom - parent.bottom;
          bottom := bottom - move;
          top := top - move;
        }
      }
    }
  }

  /** The gesture-facing state of the circling view. */
  class CirclingView {
    /** The view's rectangle on screen (`getViewRect()`). */
    const parent: Rect
    var startPoint: Option<Point>
    var endPoint: Option<Point>
    var selectedBox: MutableRect?
    var resizeBase: MutableRect

    /** The resize base is a copy, never the selected box itself. */
    predicate Valid()
      reads this
    {
      selectedBox != resizeBase
    }

    constructor (parent: Rect)
      ensures Valid() && this.parent == parent
      ensures startPoint == None && endPoint == None && selectedBox == null
      ensures resizeBase.Value() == Rect(0, 0, 0, 0)
    {
      this.parent := parent;
      startPoint, endPoint, selectedBox := None, None, null;
      resizeBase := new MutableRect(Rect(0, 0, 0, 0));
    }

    /** The `selectedBox` property: its observer fixes the size of every new non-null box. */
    method SetSelectedBox(box: MutableRect?)
      requires box != resizeBase
      modifies this`selectedBox, box
      ensures Valid() && selectedBox == box
      ensures box != null ==> box.Value() == FixedBox(old(box.Value()), parent)
    {
      selectedBox := box;
      if box != null {
        box.FixBoxSize(parent);
      }
    }

    method OnAreaCreationStart(p: Point)
      modifies this
      ensures Valid() && selectedBox == null && startPoint == Some(p)
      ensures endPoint == old(endPoint) && resizeBase == old(resizeBase)
    {
      SetSelectedBox(null);
      startPoint := Some(p);
    }

    method OnAreaCreationDragging(p: Point)
      modifies this`endPoint
      ensures endPoint == Some(p)
    {
      endPoint := Some(p);
    }

    /** Finishing a drag selects the fixed box, reports it and forgets the drag points. */
    method OnAreaCreationFinish(start: Point, end: Point) returns (reported: Rect)
      requires Valid()
      modifies this
      ensures Valid() && fresh(selectedBox)
      ensures selectedBox != null && selectedBox.Value() == reported
      ensures reported == FixedBox(CreateNewBox(start, end), parent)
      ensures startPoint == None && endPoint == None && resizeBase == old(resizeBase)
    {
      var newBox := new MutableRect(CreateNewBox(start, end));
      newBox.FixBoxSize(parent);
      SetSelectedBox(newBox);
      FixedBoxIdempotent(CreateNewBox(start, end), parent);
      startPoint := None;
      endPoint := None;
      reported := newBox.Value();
    }

    /** A resize starts from a copy of the selected box, if there is one. */
    method OnAreaResizeStart()
      requires Valid()
      modifies this`resizeBase
      ensures Valid()
      ensures selectedBox != null ==> fresh(resizeBase) && resizeBase.Value() == selectedBox.Value()
      ensures selectedBox == null ==> resizeBase == old(resizeBase)
    {
      if selectedBox != null {
        resizeBase := new MutableRect(selectedBox.Value());
      }
    }

    /** Moves the edges of the selected box, in place, by deltas measured from the resize base. */
    method OnAreaResizing(dl: int, dr: int, dt: int, db: int)
      requires Valid()
      modifies selectedBox
      ensures selectedBox != null ==>
        selectedBox.Value() == Resized(old(resizeBase.Value()), dl, dr, dt, db, parent)
      ensures resizeBase.Value() == old(resizeBase.Value())
    {
      var box := selectedBox;
      if box == null {
        return;
      }
      box.left := Max(resizeBase.left + dl, parent.left);
      box.right := Min(Max(box.left + 1, resizeBase.right + dr), parent.right);
      box.top := Max(resizeBase.top + dt, parent.top);
      box.bottom := Min(Max(box.top + 1, resizeBase.bottom + db), parent.bottom);
      box.FixBoxSize(parent);
    }

    /** Finishing a resize reports the selected box, if there is one. */
    method OnAreaResizeFinish() returns (reported: Option<Rect>)
      ensures reported == if selectedBox == null then None else Some(selectedBox.Value())
    {
      if selectedBox == null {
        reported := None;
      } else {
        reported := Some(selectedBox.Value());
      }
    }

    method Clear()
      requires Valid()
      modifies this
      ensures Valid() && startPoint == None && endPoint == None && selectedBox == null
      ensures resizeBase == old(resizeBase)
    {
      startPoint := None;
      endPoint := None;
      SetSelectedBox(null);
    }
  }
}
