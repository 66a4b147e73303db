/** ComboBox: a text field with a drop-down list of items (ComboBox.cpp). The
    combo box is a TextField subclass in the source; here it holds its text field
    and its popup as two objects. */
module ComboBoxes {
  import opened Wrappers
  import opened Geometry
  import opened ListLayout
  import Menus
  import Popups
  import TextFields

  /** One entry of `items`: its text and its two theme icons. */
  datatype ComboItem = ComboItem(text: string, lightIcon: string, darkIcon: string)

  /** One row of the item model: the display text and the decoration icon, if any. */
  datatype ComboRow = ComboRow(text: string, icon: Option<string>)

  /** An item carries an icon only when both of its paths are given. */
  predicate HasIcons(ci: ComboItem) {
    ci.lightIcon != "" && ci.darkIcon != ""
  }

  /** The model row addItem builds for an item in the given theme. */
  function RowFor(ci: ComboItem, darkMode: bool): (r: ComboRow)
    ensures r.text == ci.text
    ensures r.icon.Some? <==> HasIcons(ci)
    ensures r.icon.Some? ==> r.icon.value == (if darkMode then ci.darkIcon else ci.lightIcon)
  {
    if ci.lightIcon != "" && ci.darkIcon != "" then
      ComboRow(ci.text, Some(if darkMode then ci.darkIcon else ci.lightIcon))
    else ComboRow(ci.text, None)
  }

  /** An item without icons has the same row in both themes. */
  lemma RowWithoutIconsIgnoresTheme(ci: ComboItem)
    requires !HasIcons(ci)
    ensures RowFor(ci, true) == RowFor(ci, false)
  {
  }

  /** The model the items call for in a theme: one row per item, in order. */
  function Rows(items: seq<ComboItem>, darkMode: bool): (r: seq<ComboRow>)
    ensures |r| == |items|
    ensures forall i :: 0 <= i < |items| ==> r[i] == RowFor(items[i], darkMode)
  {
    seq(|items|, i requires 0 <= i < |items| => RowFor(items[i], darkMode))
  }

  /** Appending items appends their rows. */
  lemma RowsAppend(items: seq<ComboItem>, more: seq<ComboItem>, darkMode: bool)
    ensures Rows(items + more, darkMode) == Rows(items, darkMode) + Rows(more, darkMode)
  {
    var a := Rows(items + more, darkMode);
    var b := Rows(items, darkMode) + Rows(more, darkMode);
    forall i | 0 <= i < |a| ensures a[i] == b[i] {
      if i < |items| {
        assert (items + more)[i] == items[i];
      } else {
        assert (items + more)[i] == more[i - |items|];
      }
    }
  }

  /** Removing an item and removing its row keep items and model in step. */
  lemma RowsRemoveRow(items: seq<ComboItem>, index: int, darkMode: bool)
    ensures Rows(RemoveRow(items, index), darkMode) == RemoveRow(Rows(items, darkMode), index)
  {
    var a := Rows(RemoveRow(items, index), darkMode);
    var b := RemoveRow(Rows(items, darkMode), index);
    assert |a| == |b|;
    forall i | 0 <= i < |a| ensures a[i] == b[i] {
    }
  }

  /** The rows keep their items' texts whatever the theme: every row is the
      item's row in one of the two themes. */
  ghost predicate InStep(items: seq<ComboItem>, model: seq<ComboRow>) {
    && |model| == |items|
    && forall i :: 0 <= i < |items| ==> model[i] == RowFor(items[i], true) || model[i] == RowFor(items[i], false)
  }

  lemma RowsAreInStep(items: seq<ComboItem>, darkMode: bool)
    ensures InStep(items, Rows(items, darkMode))
  {
  }

  /** The first position positionPopup tries: level with the combo box's centre. */
  function CenterCandidate(cb: Rect, s: Size): Point {
    Point(Left(cb), CenterY(cb) - TruncDiv(s.h, 2))
  }

  /** The position below the combo box, 4px apart. */
  function BelowCandidate(cb: Rect): Point {
    Point(Left(cb), Bottom(cb) + 4)
  }

  /** The position above the combo box, 4px apart. */
  function AboveCandidate(cb: Rect, s: Size): Point {
    Point(Left(cb), Top(cb) - s.h - 4)
  }

  /** The placement of positionPopup: centre if the screen contains it, else below,
      else above, else below; then clamped into [left, right - w] x [top, bottom - h]. */
  function PopupPosition(cb: Rect, s: Size, screen: Rect): (r: Point)
    requires CanClamp(s, screen)
    ensures Left(screen) <= r.x <= Right(screen) - s.w && Top(screen) <= r.y <= Bottom(screen) - s.h
    ensures Fits(screen, CenterCandidate(cb, s), s) ==> r == ClampToScreen(CenterCandidate(cb, s), s, screen)
    ensures (!Fits(screen, CenterCandidate(cb, s), s) && Fits(screen, BelowCandidate(cb), s))
            ==> r == ClampToScreen(BelowCandidate(cb), s, screen)
    ensures (!Fits(screen, CenterCandidate(cb, s), s) && !Fits(screen, BelowCandidate(cb), s)
             && Fits(screen, AboveCandidate(cb, s), s)) ==> r == ClampToScreen(AboveCandidate(cb, s), s, screen)
    ensures (!Fits(screen, CenterCandidate(cb, s), s) && !Fits(screen, BelowCandidate(cb), s)
             && !Fits(screen, AboveCandidate(cb, s), s)) ==> r == ClampToScreen(BelowCandidate(cb), s, screen)
  {
    var cands := [CenterCandidate(cb, s), BelowCandidate(cb), AboveCandidate(cb, s)];
    assert cands[0] == CenterCandidate(cb, s) && cands[1] == BelowCandidate(cb) && cands[2] == AboveCandidate(cb, s);
    Place(cands, BelowCandidate(cb), s, screen)
  }

  /** The keys keyPressEvent tells apart. */
  datatype Key = Up | Down | Return | Enter | Escape | OtherKey

  /** What keyPressEvent did with the event: accepted it, forwarded it to the
      list, or swallowed it. An editable box breaks out of its switch on any
      other key, so the event stays accepted and never reaches the line edit. */
  datatype KeyOutcome = Accepted | Forwarded | Swallowed

  class ComboBox {
    /** items: the entries in insertion order. */
    var items: seq<ComboItem>
    /** The rows of the item model the popup's list shows. */
    var model: seq<ComboRow>
    var isDarkMode: bool
    var isIconic: bool
    var isEditable: bool
    /** The combo box's own _maxVisibleItems; the popup never reads it. */
    var maxVisibleItems: int
    /** The text field the combo box is. */
    const field: TextFields.TextField
    const popup: Popups.Popup

    /** The model always holds one row per item, in the current theme, and the
        list's current row is -1 or one of the rows. */
    ghost predicate Valid()
      reads this, field, popup
    {
      && field.Valid()
      && model == Rows(items, isDarkMode)
      && popup.modelSet
      && -1 <= popup.currentRow < |model|
    }

    /** The constructor: a 250x36 field, a hidden popup over the item model whose
        rows are 36 high and whose width is the field's. The popup's first
        geometry is the toolkit's. */
    constructor(initialPopup: Rect)
      ensures Valid() && fresh(field) && fresh(popup)
      ensures items == [] && model == []
      ensures !isDarkMode && !isIconic && !isEditable && maxVisibleItems == 8
      ensures field.size == Size(250, 36) && field.text == "" && !field.isReadOnly
      ensures popup.explicitWidth == 250 && popup.maxVisibleItems == 8 && popup.rowHeight == 36
      ensures !popup.visible && popup.currentRow == -1
    {
      var f := new TextFields.TextField("");
      f.SetFixedSize(Size(250, 36));
      var p := new Popups.Popup(36, initialPopup);
      p.SetModel();
      p.SetPopupWidth(f.size.w, 0, Some(f.size.w));
      field := f;
      popup := p;
      items := [];
      model := [];
      isDarkMode := false;
      isIconic := false;
      isEditable := false;
      maxVisibleItems := 8;
    }

    /** addItem appends the item and its row, then lays the popup out again. */
    method AddItem(text: string, lightIcon: string, darkIcon: string)
      requires Valid()
      modifies this`items, this`model, popup`listHeight, popup`scrollPolicy, popup`size
      ensures Valid()
      ensures items == old(items) + [ComboItem(text, lightIcon, darkIcon)]
      ensures model == old(model) + [RowFor(ComboItem(text, lightIcon, darkIcon), isDarkMode)]
      ensures popup.size == Size(Popups.PopupWidth(popup.explicitWidth, Some(field.size.w)),
                                 ListHeight(VisibleRows(|items|, popup.maxVisibleItems), popup.rowHeight, popup.spacing))
      ensures popup.LaidOutFor(|items|, Some(field.size.w))
    {
      var item := ComboItem(text, lightIcon, darkIcon);
      items := items + [item];
      var row := if lightIcon != "" && darkIcon != "" then
                   ComboRow(text, Some(if isDarkMode then darkIcon else lightIcon))
                 else ComboRow(text, None);
      model := model + [row];
      RowsAppend(old(items), [item], isDarkMode);
      popup.UpdatePopup(|model|, Some(field.size.w));
    }

    /** addItems adds each item in turn. */
    method AddItems(comboItems: seq<ComboItem>)
      requires Valid()
      modifies this`items, this`model, popup`listHeight, popup`scrollPolicy, popup`size
      ensures Valid()
      ensures items == old(items) + comboItems
      ensures model == old(model) + Rows(comboItems, isDarkMode)
      ensures |comboItems| > 0 ==> popup.LaidOutFor(|items|, Some(field.size.w))
      ensures |comboItems| == 0 ==>
                popup.listHeight == old(popup.listHeight) && popup.scrollPolicy == old(popup.scrollPolicy)
                && popup.size == old(popup.size)
    {
      for k := 0 to |comboItems|
        invariant Valid()
        invariant items == old(items) + comboItems[..k]
        invariant k > 0 ==> popup.LaidOutFor(|items|, Some(field.size.w))
        invariant k == 0 ==>
                    popup.listHeight == old(popup.listHeight) && popup.scrollPolicy == old(popup.scrollPolicy)
                    && popup.size == old(popup.size)
      {
        var ci := comboItems[k];
        AddItem(ci.text, ci.lightIcon, ci.darkIcon);
        assert comboItems[..k + 1] == comboItems[..k] + [ci];
      }
      assert comboItems[..|comboItems|] == comboItems;
      RowsAppend(old(items), comboItems, isDarkMode);
    }

    /** deleteItem ignores an index outside the items. Otherwise it removes that
        position from the items and from the model, the list's current index
        follows the removal, and the popup is laid out again. */
    method DeleteItem(index: int)
      requires Valid()
      modifies this`items, this`model, popup`currentRow, popup`listHeight, popup`scrollPolicy, popup`size
      ensures Valid()
      ensures !(0 <= index < |old(items)|) ==>
                items == old(items) && model == old(model) && popup.currentRow == old(popup.currentRow)
                && popup.size == old(popup.size) && popup.listHeight == old(popup.listHeight)
                && popup.scrollPolicy == old(popup.scrollPolicy)
      ensures 0 <= index < |old(items)| ==>
                && items == RemoveRow(old(items), index)
                && model == RemoveRow(old(model), index)
                && popup.currentRow == Popups.CurrentAfterRemoval(old(popup.currentRow), index, |old(items)|)
      ensures 0 <= index < |old(items)| && |items| > 0 ==>
                popup.size == Size(Popups.PopupWidth(popup.explicitWidth, Some(field.size.w)),
                                   ListHeight(VisibleRows(|items|, popup.maxVisibleItems), popup.rowHeight, popup.spacing))
      ensures 0 <= index < |old(items)| && |items| > 0 ==> popup.LaidOutFor(|items|, Some(field.size.w))
      ensures 0 <= index < |old(items)| && |items| == 0 ==>
                popup.size == old(popup.size) && popup.listHeight == old(popup.listHeight)
                && popup.scrollPolicy == old(popup.scrollPolicy)
    {
      if index < 0 || index >= |items| {
        return;
      }
      var before := |model|;
      items := RemoveRow(items, index);
      model := RemoveRow(model, index);
      popup.RowRemoved(index, before);
      RowsRemoveRow(old(items), index, isDarkMode);
      popup.UpdatePopup(|model|, Some(field.size.w));
    }

    /** clearAll empties the items and the model; the list has no current index
        afterwards. The popup keeps its size. */
    method ClearAll()
      requires Valid()
      modifies this`items, this`model, popup`currentRow
      ensures Valid()
      ensures items == [] && model == [] && popup.currentRow == -1
    {
      items := [];
      model := [];
      popup.Reset();
    }

    /** currentIndex: the row of the list's current index. */
    function CurrentIndex(): (r: int)
      requires Valid()
      reads this, field, popup
      ensures -1 <= r < |items|
    {
      popup.currentRow
    }

    /** currentText: the current row's text when the current index is valid and
        below the number of items, and empty otherwise. */
    function CurrentText(): (t: string)
      requires Valid()
      reads this, field, popup
      ensures 0 <= popup.currentRow < |items| ==> t == items[popup.currentRow].text
      ensures popup.currentRow == -1 ==> t == ""
    {
      if 0 <= popup.currentRow < |items| then model[popup.currentRow].text else ""
    }

    /** setCurrentItem ignores an index outside the items. Otherwise the item
        becomes current, the field shows its text and, when iconic, takes its
        icons. */
    method SetCurrentItem(index: int)
      requires Valid()
      modifies popup`currentRow, field`text, field`clearShown, field`passwordShown, field`passwordIcon,
               field`echoMode, field`isPasswordVisible, field`lightIcon, field`darkIcon
      ensures Valid()
      ensures !(0 <= index < |items|) ==>
                popup.currentRow == old(popup.currentRow) && field.text == old(field.text)
                && field.lightIcon == old(field.lightIcon) && field.darkIcon == old(field.darkIcon)
      ensures 0 <= index < |items| ==>
                popup.currentRow == index && field.text == items[index].text && CurrentText() == field.text
      ensures 0 <= index < |items| && isIconic ==>
                (field.lightIcon, field.darkIcon)
                == TextFields.StoredIconPaths(field.textFieldIcon, items[index].lightIcon, items[index].darkIcon)
      ensures !isIconic ==> field.lightIcon == old(field.lightIcon) && field.darkIcon == old(field.darkIcon)
    {
      if index < 0 || index >= |items| {
        return;
      }
      popup.SetCurrentRow(index);
      field.SetText(items[index].text);
      if isIconic {
        field.SetIconPaths(items[index].lightIcon, items[index].darkIcon);
      }
    }

    /** updateItemIcons gives every row whose item has both icons the icon of the
        current theme; other rows are left alone. */
    method UpdateItemIcons()
      requires InStep(items, model)
      modifies this`model
      ensures model == Rows(items, isDarkMode)
      ensures forall i :: 0 <= i < |items| && !HasIcons(items[i]) ==> model[i] == old(model)[i]
    {
      for i := 0 to |items|
        invariant |model| == |items|
        invariant forall j :: 0 <= j < i ==> model[j] == RowFor(items[j], isDarkMode)
        invariant forall j :: i <= j < |items| ==> model[j] == old(model)[j]
        invariant forall j :: 0 <= j < |items| && !HasIcons(items[j]) ==> model[j] == old(model)[j]
      {
        var ci := items[i];
        if ci.lightIcon == "" || ci.darkIcon == "" {
          continue;
        }
        model := model[i := ComboRow(model[i].text, Some(if isDarkMode then ci.darkIcon else ci.lightIcon))];
      }
    }

    /** setDarkMode switches the field's theme and the rows' icons. */
    method SetDarkMode(value: bool)
      requires Valid()
      modifies this`isDarkMode, this`model, field`isDarkMode, field`paddingLeft, field`paddingRight
      ensures Valid()
      ensures isDarkMode == value && field.isDarkMode == value
      ensures items == old(items) && model == Rows(items, value)
    {
      RowsAreInStep(items, isDarkMode);
      isDarkMode := value;
      field.SetDarkMode(value);
      UpdateItemIcons();
    }

    /** setIconic: the field shows or drops its icon slot. */
    method SetIconic(value: bool)
      requires Valid()
      modifies this`isIconic, field`textFieldIcon, field`paddingLeft, field`paddingRight
      ensures Valid()
      ensures isIconic == value && field.textFieldIcon == value
      ensures field.paddingLeft == TextFields.PaddingLeft(value)
    {
      isIconic := value;
      field.SetTextFieldIcon(value);
    }

    /** setEditable: an editable combo box has a writable field. */
    method SetEditable(value: bool)
      requires Valid()
      modifies this`isEditable, field`isReadOnly
      ensures Valid()
      ensures isEditable == value && field.isReadOnly == !value
    {
      isEditable := value;
      field.SetReadOnly(!value);
    }

    /** setMaxVisibleItems stores the number in the combo box only. */
    method SetMaxVisibleItems(count: int)
      modifies this`maxVisibleItems
      ensures maxVisibleItems == count
    {
      maxVisibleItems := count;
    }

    /** setFieldSize resizes the field and makes the popup as wide as it. */
    method SetFieldSize(s: Size)
      requires Valid()
      modifies field`size, popup`explicitWidth, popup`listHeight, popup`scrollPolicy, popup`size
      ensures Valid()
      ensures field.size == s && popup.explicitWidth == s.w
      ensures |items| > 0 ==>
                popup.size == Size(if s.w > 0 then s.w else Popups.PopupWidth(0, Some(s.w)),
                                   ListHeight(VisibleRows(|items|, popup.maxVisibleItems), popup.rowHeight, popup.spacing))
      ensures |items| > 0 ==> popup.LaidOutFor(|items|, Some(field.size.w))
      ensures |items| == 0 ==>
                popup.size == old(popup.size) && popup.listHeight == old(popup.listHeight)
                && popup.scrollPolicy == old(popup.scrollPolicy)
    {
      field.SetFixedSize(s);
      popup.SetPopupWidth(field.size.w, |model|, Some(field.size.w));
    }

    /** setPopupWidth hands the width to the popup. */
    method SetPopupWidth(width: int)
      requires Valid()
      modifies popup`explicitWidth, popup`listHeight, popup`scrollPolicy, popup`size
      ensures Valid()
      ensures popup.explicitWidth == width
      ensures |items| > 0 ==>
                popup.size == Size(if width > 0 then width else Popups.PopupWidth(0, Some(field.size.w)),
                                   ListHeight(VisibleRows(|items|, popup.maxVisibleItems), popup.rowHeight, popup.spacing))
      ensures |items| > 0 ==> popup.LaidOutFor(|items|, Some(field.size.w))
      ensures |items| == 0 ==>
                popup.size == old(popup.size) && popup.listHeight == old(popup.listHeight)
                && popup.scrollPolicy == old(popup.scrollPolicy)
    {
      popup.SetPopupWidth(width, |model|, Some(field.size.w));
    }

    /** positionPopup: place the popup around the combo box (at `globalPos` on the
        given screen) and fade it in. */
    method PositionPopup(globalPos: Point, screen: Rect)
      requires CanClamp(popup.size, screen)
      modifies popup`pos, popup`visible
      ensures popup.pos == PopupPosition(RectAt(globalPos, field.size), popup.size, screen)
      ensures popup.visible
    {
      var cbRect := RectAt(globalPos, field.size);
      var p := PopupPosition(cbRect, popup.size, screen);
      popup.Move(p);
      popup.FadeIn();
    }

    /** The drop-down button hides a visible popup and places a hidden one. */
    method OnDropDownButtonClicked(globalPos: Point, screen: Rect)
      requires CanClamp(popup.size, screen)
      modifies popup`pos, popup`visible
      ensures old(popup.visible) ==> !popup.visible && popup.pos == old(popup.pos)
      ensures !old(popup.visible) ==>
                popup.visible && popup.pos == PopupPosition(RectAt(globalPos, field.size), popup.size, screen)
    {
      if popup.visible {
        popup.FadeOut();
      } else {
        PositionPopup(globalPos, screen);
      }
    }

    /** keyPressEvent. A combo box that is not editable accepts every key and
        changes nothing; an editable one forwards Up and Down to the list, makes
        the current row the chosen item on Return or Enter, and hides the popup
        on Escape. Where the list's own key handling moves its current index on a
        forwarded Up or Down is the toolkit's: `navigatedRow`. */
    method KeyPress(key: Key, navigatedRow: int) returns (outcome: KeyOutcome)
      requires Valid()
      requires -1 <= navigatedRow < |items|
      modifies popup`currentRow, popup`visible, field`text, field`clearShown, field`passwordShown,
               field`passwordIcon, field`echoMode, field`isPasswordVisible, field`lightIcon, field`darkIcon
      ensures Valid()
      ensures !isEditable ==>
                outcome == Accepted && popup.visible == old(popup.visible)
                && popup.currentRow == old(popup.currentRow) && field.text == old(field.text)
      ensures isEditable && (key == Up || key == Down) ==>
                outcome == Forwarded && popup.visible == old(popup.visible)
                && popup.currentRow == navigatedRow && field.text == old(field.text)
      ensures isEditable && (key == Return || key == Enter) && old(popup.currentRow) == -1 ==>
                outcome == Accepted && popup.visible == old(popup.visible) && field.text == old(field.text)
      ensures isEditable && (key == Return || key == Enter) && old(popup.currentRow) != -1 ==>
                outcome == Accepted && !popup.visible && popup.currentRow == old(popup.currentRow)
                && field.text == items[popup.currentRow].text
      ensures isEditable && key == Escape ==>
                outcome == Accepted && !popup.visible
                && popup.currentRow == old(popup.currentRow) && field.text == old(field.text)
      ensures isEditable && key == OtherKey ==>
                outcome == Swallowed && popup.visible == old(popup.visible)
                && popup.currentRow == old(popup.currentRow) && field.text == old(field.text)
    {
      if !isEditable {
        return Accepted;
      }
      match key {
        case Up =>
          popup.SetCurrentRow(navigatedRow);
          outcome := Forwarded;
        case Down =>
          popup.SetCurrentRow(navigatedRow);
          outcome := Forwarded;
        case Return => outcome := ChooseCurrent();
        case Enter => outcome := ChooseCurrent();
        case Escape =>
          if popup.visible {
            popup.FadeOut();
          }
          outcome := Accepted;
        case OtherKey => outcome := Swallowed;
      }
    }

    /** The Return and Enter branch of keyPressEvent. */
    method ChooseCurrent() returns (outcome: KeyOutcome)
      requires Valid()
      modifies popup`currentRow, popup`visible, field`text, field`clearShown, field`passwordShown,
               field`passwordIcon, field`echoMode, field`isPasswordVisible, field`lightIcon, field`darkIcon
      ensures Valid() && outcome == Accepted
      ensures old(popup.currentRow) == -1 ==>
                popup.visible == old(popup.visible) && popup.currentRow == -1 && field.text == old(field.text)
      ensures old(popup.currentRow) != -1 ==>
                !popup.visible && popup.currentRow == old(popup.currentRow)
                && field.text == items[popup.currentRow].text
    {
      var index := CurrentIndex();
      if index != -1 {
        SetCurrentItem(index);
        popup.FadeOut();
      }
      outcome := Accepted;
    }

    /** contextMenuEvent: a box that is not editable accepts the event and shows
        no menu; an editable one shows the text field's context menu. The
        arguments are those of TextField.ContextMenuEvent. */
    method ContextMenuEvent(hasSelection: bool, undoAvailable: bool, redoAvailable: bool,
                            menuGeometry: Rect, clickPos: Point, screen: Rect)
      returns (menu: Option<Menus.Menu>)
      ensures !isEditable ==> menu.None?
      ensures isEditable ==> (menu.None? <==> field.echoMode == TextFields.Password)
      ensures menu.Some? ==>
                && fresh(menu.value)
                && menu.value.rows == TextFields.ItemsFor(
                     TextFields.ContextList(field.text != "", hasSelection, undoAvailable, redoAvailable),
                     field.isDarkMode)
                && menu.value.maxVisibleItems == 7 && menu.value.itemSize == Size(220, 36)
                && menu.value.isDarkMode == field.isDarkMode && menu.value.isIconic
                && menu.value.popupVisible
    {
      if !isEditable {
        return None;
      }
      menu := field.ContextMenuEvent(hasSelection, undoAvailable, redoAvailable, menuGeometry, clickPos, screen);
    }
  }
}
