/** Qt's integer rectangle rules and the choose-then-clamp placement that the menu
    (showAt), the combo box (positionPopup) and the tooltip (position) share. */
module Geometry {

  datatype Point = Point(x: int, y: int)
  datatype Size = Size(w: int, h: int)

  /** A QRect built from a top-left corner and a size. */
  datatype Rect = Rect(x: int, y: int, w: int, h: int)

  function RectAt(p: Point, s: Size): Rect { Rect(p.x, p.y, s.w, s.h) }

  function Left(r: Rect): int { r.x }
  function Top(r: Rect): int { r.y }

  /** QRect::right() is the last column inside the rectangle: x + w - 1. */
  function Right(r: Rect): int { r.x + r.w - 1 }

  /** QRect::bottom() is the last row inside the rectangle: y + h - 1. */
  function Bottom(r: Rect): int { r.y + r.h - 1 }

  predicate IsNull(r: Rect) { r.w == 0 && r.h == 0 }

  /** QSize::expandedTo: the component-wise maximum. */
  function ExpandedTo(s: Size, least: Size): (r: Size)
    ensures r.w >= s.w && r.w >= least.w && (r.w == s.w || r.w == least.w)
    ensures r.h >= s.h && r.h >= least.h && (r.h == s.h || r.h == least.h)
  {
    Size(if s.w < least.w then least.w else s.w, if s.h < least.h then least.h else s.h)
  }

  /** The C++ `/` operator on int, which truncates toward zero (Dafny's `/` is Euclidean). */
  function TruncDiv(a: int, b: int): (q: int)
    requires b > 0
    ensures a >= 0 ==> 0 <= a - q * b < b
    ensures a < 0 ==> -b < a - q * b <= 0
  {
    if a >= 0 then a / b
    else
      var n := -a;
      assert 0 <= n - (n / b) * b < b;
      -(n / b)
  }

  /** QRect::center(): the midpoint of left and right (top and bottom), truncated. */
  function CenterX(r: Rect): int { TruncDiv(Left(r) + Right(r), 2) }
  function CenterY(r: Rect): int { TruncDiv(Top(r) + Bottom(r), 2) }

  /** QRect::contains(const QRect &): neither rectangle is null and every edge of
      the inner one lies inside the outer one. */
  predicate Contains(outer: Rect, inner: Rect) {
    && !IsNull(outer) && !IsNull(inner)
    && Left(outer) <= Left(inner) && Right(inner) <= Right(outer)
    && Top(outer) <= Top(inner) && Bottom(inner) <= Bottom(outer)
  }

  /** The screen contains a popup of size s placed at p. */
  predicate Fits(screen: Rect, p: Point, s: Size) { Contains(screen, RectAt(p, s)) }

  /** The index of the first candidate the screen contains, or |candidates| if none fits. */
  function FirstFitIndex(candidates: seq<Point>, s: Size, screen: Rect): (k: nat)
    ensures k <= |candidates|
    ensures k < |candidates| ==> Fits(screen, candidates[k], s)
    ensures forall j :: 0 <= j < k ==> !Fits(screen, candidates[j], s)
    decreases |candidates|
  {
    if |candidates| == 0 then 0
    else if Fits(screen, candidates[0], s) then 0
    else 1 + FirstFitIndex(candidates[1..], s, screen)
  }

  /** The if / else-if chain of the placement code: the first candidate that fits,
      otherwise the fallback. */
  function FirstFitting(candidates: seq<Point>, s: Size, screen: Rect, fallback: Point): (p: Point)
    ensures (forall j :: 0 <= j < |candidates| ==> !Fits(screen, candidates[j], s)) ==> p == fallback
    ensures p != fallback ==> p in candidates && Fits(screen, p, s)
    ensures forall k :: 0 <= k < |candidates| && Fits(screen, candidates[k], s)
                        && (forall j :: 0 <= j < k ==> !Fits(screen, candidates[j], s))
                        ==> p == candidates[k]
  {
    var k := FirstFitIndex(candidates, s, screen);
    if k < |candidates| then candidates[k] else fallback
  }

  /** The distance between two coordinates. */
  function Dist(a: int, b: int): nat { if a < b then b - a else a - b }

  /** std::clamp(v, lo, hi), whose behaviour is undefined unless lo <= hi. */
  function Clamp(v: int, lo: int, hi: int): (r: int)
    requires lo <= hi
    ensures lo <= r <= hi
    ensures forall z :: lo <= z <= hi ==> Dist(r, v) <= Dist(z, v)
  {
    if v < lo then lo else if hi < v then hi else v
  }

  /** What the clamp of all three placement functions demands of std::clamp:
      left <= right - w and top <= bottom - h, that is, the popup is strictly
      narrower and strictly lower than the screen. */
  predicate CanClamp(s: Size, screen: Rect) {
    Left(screen) <= Right(screen) - s.w && Top(screen) <= Bottom(screen) - s.h
  }

  /** The clamp as written in Menu::showAt, ComboBox::positionPopup and
      ToolTip::position: x into [left, right - w], y into [top, bottom - h]. */
  function ClampToScreen(p: Point, s: Size, screen: Rect): (r: Point)
    requires CanClamp(s, screen)
    ensures Left(screen) <= r.x <= Right(screen) - s.w
    ensures Top(screen) <= r.y <= Bottom(screen) - s.h
    ensures Left(screen) <= p.x <= Right(screen) - s.w && Top(screen) <= p.y <= Bottom(screen) - s.h ==> r == p
  {
    Point(Clamp(p.x, Left(screen), Right(screen) - s.w), Clamp(p.y, Top(screen), Bottom(screen) - s.h))
  }

  /** Try the candidates in priority order, fall back, then clamp (as written). */
  function Place(candidates: seq<Point>, fallback: Point, s: Size, screen: Rect): (r: Point)
    requires CanClamp(s, screen)
    ensures Left(screen) <= r.x <= Right(screen) - s.w && Top(screen) <= r.y <= Bottom(screen) - s.h
    ensures (forall j :: 0 <= j < |candidates| ==> !Fits(screen, candidates[j], s))
            ==> r == ClampToScreen(fallback, s, screen)
    ensures forall k :: 0 <= k < |candidates| && Fits(screen, candidates[k], s)
                        && (forall j :: 0 <= j < k ==> !Fits(screen, candidates[j], s))
                        ==> r == ClampToScreen(candidates[k], s, screen)
  {
    ClampToScreen(FirstFitting(candidates, s, screen, fallback), s, screen)
  }

  /** The placed popup lies on the screen and keeps a one pixel gap to the right
      and bottom edges of the screen. */
  lemma PlacedPopupOnScreen(candidates: seq<Point>, fallback: Point, s: Size, screen: Rect)
    requires CanClamp(s, screen)
    requires s.w > 0 && s.h > 0
    ensures var r := RectAt(Place(candidates, fallback, s, screen), s);
            Contains(screen, r) && Right(r) < Right(screen) && Bottom(r) < Bottom(screen)
  {
    var p := Place(candidates, fallback, s, screen);
    assert Left(screen) <= p.x <= Right(screen) - s.w;
    assert Top(screen) <= p.y <= Bottom(screen) - s.h;
  }

  /** A chosen candidate that fits with room to spare on the right and at the
      bottom is used as it is. */
  lemma PlaceKeepsRoomyChoice(candidates: seq<Point>, fallback: Point, s: Size, screen: Rect, k: nat)
    requires CanClamp(s, screen)
    requires k < |candidates|
    requires forall j :: 0 <= j < k ==> !Fits(screen, candidates[j], s)
    requires Fits(screen, candidates[k], s)
    requires Right(RectAt(candidates[k], s)) < Right(screen) && Bottom(RectAt(candidates[k], s)) < Bottom(screen)
    ensures Place(candidates, fallback, s, screen) == candidates[k]
  {
    assert FirstFitIndex(candidates, s, screen) == k;
  }

  // ----- The clamp as evidently intended -----

  /** A clamp that keeps the whole popup on the screen: x into [left, right - w + 1]. */
  predicate CanClampInside(s: Size, screen: Rect) {
    0 <= s.w <= screen.w && 0 <= s.h <= screen.h
  }

  function ClampInside(p: Point, s: Size, screen: Rect): (r: Point)
    requires CanClampInside(s, screen)
    ensures Left(screen) <= r.x && Right(RectAt(r, s)) <= Right(screen)
    ensures Top(screen) <= r.y && Bottom(RectAt(r, s)) <= Bottom(screen)
    ensures Fits(screen, p, s) ==> r == p
    ensures !IsNull(screen) && !IsNull(RectAt(p, s)) ==> Fits(screen, r, s)
  {
    Point(Clamp(p.x, Left(screen), Right(screen) - s.w + 1), Clamp(p.y, Top(screen), Bottom(screen) - s.h + 1))
  }

  /** Placement with the corrected clamp: a candidate the screen contains is used
      unchanged, and any popup no larger than the screen ends up on it. */
  function PlaceInside(candidates: seq<Point>, fallback: Point, s: Size, screen: Rect): (r: Point)
    requires CanClampInside(s, screen)
    ensures !IsNull(screen) && !IsNull(RectAt(fallback, s)) ==> Fits(screen, r, s)
    ensures var k := FirstFitIndex(candidates, s, screen); k < |candidates| ==> r == candidates[k]
  {
    ClampInside(FirstFitting(candidates, s, screen, fallback), s, screen)
  }

  /** As written, a candidate that the screen contains but that touches its right
      edge is moved one pixel to the left. */
  lemma EdgeTouchingChoiceIsShifted()
    ensures var screen := Rect(0, 0, 1920, 1080);
            var s := Size(300, 200);
            var p := Point(1620, 100);
            && Fits(screen, p, s)
            && Place([p], p, s, screen) == Point(1619, 100)
            && PlaceInside([p], p, s, screen) == p
  {
    var screen := Rect(0, 0, 1920, 1080);
    var s := Size(300, 200);
    var p := Point(1620, 100);
    assert FirstFitIndex([p], s, screen) == 0;
  }

  /** As written, a popup exactly as wide as the screen fits on it, yet the clamp
      would call std::clamp with hi < lo; the corrected clamp accepts it. */
  lemma FullWidthPopupBreaksClamp()
    ensures var screen := Rect(0, 0, 1920, 1080);
            var s := Size(1920, 200);
            && Fits(screen, Point(0, 100), s)
            && !CanClamp(s, screen)
            && CanClampInside(s, screen)
  {
  }
}

/** Row-count arithmetic shared by Menu::updateMenu and Popup::updatePopup, and the
    row removal of the item models. */
module ListLayout {

  /** std::min(totalItems, maxVisibleItems). */
  function VisibleRows(total: int, maxVisible: int): (v: int)
    ensures v <= total && v <= maxVisible
    ensures v == total || v == maxVisible
  {
    if total < maxVisible then total else maxVisible
  }

  /** The list height: visible rows, the gaps between them, and a 4px margin above and below. */
  function ListHeight(visible: int, rowHeight: int, spacing: int): int {
    visible * rowHeight + spacing * (visible - 1) + 8
  }

  datatype ScrollPolicy = ScrollBarAlwaysOff | ScrollBarAsNeeded

  function ScrollPolicyFor(total: int, visible: int): ScrollPolicy {
    if total > visible then ScrollBarAsNeeded else ScrollBarAlwaysOff
  }

  /** The scroll bar is offered exactly when some rows are hidden, that is, when
      there are more rows than the visible maximum. */
  lemma ScrollBarIffRowsHidden(total: int, maxVisible: int)
    ensures ScrollPolicyFor(total, VisibleRows(total, maxVisible)) == ScrollBarAsNeeded <==> total > maxVisible
    ensures ScrollPolicyFor(total, VisibleRows(total, maxVisible)) == ScrollBarAlwaysOff <==> VisibleRows(total, maxVisible) == total
  {
  }

  /** A longer visible list is never shorter on screen. */
  lemma {:induction false} ListHeightMonotone(v1: int, v2: int, rowHeight: int, spacing: int)
    requires v1 <= v2 && rowHeight >= 0 && spacing >= 0
    ensures ListHeight(v1, rowHeight, spacing) <= ListHeight(v2, rowHeight, spacing)
  {
    var d := v2 - v1;
    assert ListHeight(v2, rowHeight, spacing) - ListHeight(v1, rowHeight, spacing) == d * (rowHeight + spacing);
    assert d * (rowHeight + spacing) >= 0;
  }

  /** Once the maximum is reached the height no longer grows with the row count. */
  lemma HeightCappedAtMaximum(total: int, maxVisible: int, rowHeight: int, spacing: int)
    requires total >= maxVisible
    ensures ListHeight(VisibleRows(total, maxVisible), rowHeight, spacing) == ListHeight(maxVisible, rowHeight, spacing)
  {
  }

  /** QStandardItemModel::removeRow and QList::removeAt: a row inside the range is
      dropped and the others keep their order; any other row number changes nothing. */
  function RemoveRow<T>(rows: seq<T>, index: int): (r: seq<T>)
    ensures 0 <= index < |rows| ==> |r| == |rows| - 1
    ensures 0 <= index < |rows| ==> forall i :: 0 <= i < index ==> r[i] == rows[i]
    ensures 0 <= index < |rows| ==> forall i :: index <= i < |r| ==> r[i] == rows[i + 1]
    ensures !(0 <= index < |rows|) ==> r == rows
  {
    if 0 <= index < |rows| then rows[..index] + rows[index + 1..] else rows
  }
}
