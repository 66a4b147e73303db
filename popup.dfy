/** Popup: the list window a combo box drops down (Popup.cpp). */
module Popups {
  import opened Wrappers
  import opened Geometry
  import opened ListLayout

  /** The width updatePopup gives: the explicit width when it is positive, else the
      parent's width, else 150. */
  function PopupWidth(explicitWidth: int, parentWidth: Option<int>): (w: int)
    ensures explicitWidth > 0 ==> w == explicitWidth
    ensures explicitWidth <= 0 && parentWidth.Some? ==> w == parentWidth.value
    ensures explicitWidth > 0 || parentWidth.None? || parentWidth.value > 0 ==> w > 0
  {
    if explicitWidth > 0 then explicitWidth
    else if parentWidth.Some? then parentWidth.value
    else 150
  }

  /** An explicit width makes the parent's width irrelevant; without one the
      popup follows its parent. */
  lemma ExplicitWidthOverridesParent(explicitWidth: int, p1: Option<int>, p2: Option<int>)
    requires explicitWidth > 0
    ensures PopupWidth(explicitWidth, p1) == PopupWidth(explicitWidth, p2)
  {
  }

  /** The row the list's current index points at after the model removes row
      `removed` of `rowsBefore`. The combo box's list is in single-selection mode,
      where QAbstractItemView moves a current row that is about to go to the next
      row, which then slides into its place, or to the row above when it was the
      last; with no row left the index becomes invalid (-1). Other rows follow
      their item. */
  function CurrentAfterRemoval(current: int, removed: int, rowsBefore: int): (c: int)
    requires 0 <= removed < rowsBefore
    requires -1 <= current < rowsBefore
    ensures -1 <= c < rowsBefore - 1
    ensures c == -1 <==> current == -1 || (current == removed && rowsBefore == 1)
  {
    if current == removed then
      (if removed < rowsBefore - 1 then removed else removed - 1)
    else if current > removed then current - 1
    else current
  }

  /** A current row that was not removed still shows the same item afterwards. */
  lemma CurrentFollowsItsItem<T>(rows: seq<T>, current: int, removed: int)
    requires 0 <= removed < |rows| && 0 <= current < |rows| && current != removed
    ensures var c := CurrentAfterRemoval(current, removed, |rows|);
            0 <= c < |RemoveRow(rows, removed)| && RemoveRow(rows, removed)[c] == rows[current]
  {
  }

  /** A removed current row is replaced by the row below it, or by the row above
      when it was the last. */
  lemma CurrentMovesToNeighbour<T>(rows: seq<T>, removed: int)
    requires 0 <= removed < |rows| && |rows| > 1
    ensures var c := CurrentAfterRemoval(removed, removed, |rows|);
            && 0 <= c < |RemoveRow(rows, removed)|
            && (removed < |rows| - 1 ==> RemoveRow(rows, removed)[c] == rows[removed + 1])
            && (removed == |rows| - 1 ==> RemoveRow(rows, removed)[c] == rows[removed - 1])
  {
    var r := RemoveRow(rows, removed);
    if removed < |rows| - 1 {
      assert CurrentAfterRemoval(removed, removed, |rows|) == removed;
      assert r[removed] == rows[removed + 1];
    } else {
      assert CurrentAfterRemoval(removed, removed, |rows|) == removed - 1;
      assert r[removed - 1] == rows[removed - 1];
    }
  }

  class Popup {
    var maxVisibleItems: int
    var explicitWidth: int
    /** The delegate's row height. */
    const rowHeight: int
    /** The list's spacing (QListView's default, 0). */
    const spacing: int
    /** Whether the list has a model (setModel was called). */
    var modelSet: bool
    var listHeight: int
    var scrollPolicy: ScrollPolicy
    var size: Size
    var pos: Point
    var visible: bool
    /** The row of the list's current index; -1 when it is invalid. */
    var currentRow: int

    /** A hidden popup with eight visible rows, no explicit width and no model; the
        widget's first geometry is the toolkit's. */
    constructor(rowHeight: int, initial: Rect)
      ensures maxVisibleItems == 8 && explicitWidth == 0 && this.rowHeight == rowHeight && spacing == 0
      ensures !modelSet && !visible && currentRow == -1
      ensures size == Size(initial.w, initial.h) && pos == Point(initial.x, initial.y)
    {
      maxVisibleItems := 8;
      explicitWidth := 0;
      this.rowHeight := rowHeight;
      spacing := 0;
      modelSet := false;
      listHeight := 0;
      scrollPolicy := ScrollBarAsNeeded;
      size := Size(initial.w, initial.h);
      pos := Point(initial.x, initial.y);
      visible := false;
      currentRow := -1;
    }

    method SetModel()
      modifies this`modelSet
      ensures modelSet
    {
      modelSet := true;
    }

    method SetMaxVisibleItems(items: int)
      modifies this`maxVisibleItems
      ensures maxVisibleItems == items
    {
      maxVisibleItems := items;
    }

    /** The list height, scroll policy and window size that updatePopup gives
        for `total` rows and the parent's width. */
    predicate LaidOutFor(total: int, parentWidth: Option<int>)
      reads this
    {
      var visibleRows := VisibleRows(total, maxVisibleItems);
      && listHeight == ListHeight(visibleRows, rowHeight, spacing)
      && scrollPolicy == ScrollPolicyFor(total, visibleRows)
      && size == Size(PopupWidth(explicitWidth, parentWidth), listHeight)
    }

    /** updatePopup, given the model's row count and the parent's width (None
        without a parent). */
    method UpdatePopup(total: int, parentWidth: Option<int>)
      modifies this`listHeight, this`scrollPolicy, this`size
      ensures !modelSet || total <= 0 ==>
                listHeight == old(listHeight) && scrollPolicy == old(scrollPolicy) && size == old(size)
      ensures modelSet && total > 0 ==>
        var visibleRows := VisibleRows(total, maxVisibleItems);
        && listHeight == ListHeight(visibleRows, rowHeight, spacing)
        && scrollPolicy == ScrollPolicyFor(total, visibleRows)
        && size == Size(PopupWidth(explicitWidth, parentWidth), listHeight)
      ensures modelSet && total > 0 ==> LaidOutFor(total, parentWidth)
    {
      if !modelSet {
        return;
      }
      var itemsHeight := rowHeight;
      var visibleItems := if total < maxVisibleItems then total else maxVisibleItems;
      if total <= 0 {
        return;
      }
      var height := visibleItems * itemsHeight + spacing * (visibleItems - 1) + 8;
      scrollPolicy := if total > visibleItems then ScrollBarAsNeeded else ScrollBarAlwaysOff;
      listHeight := height;
      var widthToUse := if explicitWidth > 0 then explicitWidth
                        else if parentWidth.Some? then parentWidth.value else 150;
      size := Size(widthToUse, height);
    }

    /** setPopupWidth stores the width, then lays the popup out again. */
    method SetPopupWidth(width: int, total: int, parentWidth: Option<int>)
      modifies this`explicitWidth, this`listHeight, this`scrollPolicy, this`size
      ensures explicitWidth == width
      ensures !modelSet || total <= 0 ==>
                listHeight == old(listHeight) && scrollPolicy == old(scrollPolicy) && size == old(size)
      ensures modelSet && total > 0 ==>
                size == Size(if width > 0 then width else PopupWidth(0, parentWidth),
                             ListHeight(VisibleRows(total, maxVisibleItems), rowHeight, spacing))
      ensures modelSet && total > 0 ==> LaidOutFor(total, parentWidth)
    {
      explicitWidth := width;
      UpdatePopup(total, parentWidth);
    }

    /** The list's setCurrentIndex, with the row of the new index. */
    method SetCurrentRow(row: int)
      modifies this`currentRow
      ensures currentRow == row
    {
      currentRow := row;
    }

    /** What the single-selection list does to the current index when the model
        removes row `removed` of its `rowsBefore` rows. */
    method RowRemoved(removed: int, rowsBefore: int)
      requires 0 <= removed < rowsBefore
      requires -1 <= currentRow < rowsBefore
      modifies this`currentRow
      ensures currentRow == CurrentAfterRemoval(old(currentRow), removed, rowsBefore)
    {
      currentRow := CurrentAfterRemoval(currentRow, removed, rowsBefore);
    }

    /** The model's clear and the list's reset leave no current index. */
    method Reset()
      modifies this`currentRow
      ensures currentRow == -1
    {
      currentRow := -1;
    }

    method Move(p: Point)
      modifies this`pos
      ensures pos == p
    {
      pos := p;
    }

    /** fadeIn shows the popup (the opacity animation is not modelled). */
    method FadeIn()
      modifies this`visible
      ensures visible
    {
      visible := true;
    }

    /** fadeOut hides the popup once its animation has finished. */
    method FadeOut()
      modifies this`visible
      ensures !visible
    {
      visible := false;
    }
  }
}
