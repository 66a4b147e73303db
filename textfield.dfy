/** TextField: a line edit with an optional leading icon, a clear button or a
    password eye button, and its own context menu (TextField.cpp). */
module TextFields {
  import opened Wrappers
  import opened Geometry
  import Menus

  /** setSize: at least 200 wide, always 36 high. */
  function FieldSize(s: Size): (r: Size)
    ensures r.h == 36
    ensures r.w >= 200 && r.w >= s.w
    ensures r.w == s.w || r.w == 200
  {
    Size(if s.w < 200 then 200 else s.w, 36)
  }

  /** updateStyle's left padding: room for a 20px icon between two 12px margins,
      less 3, when the field shows an icon. */
  function PaddingLeft(textFieldIcon: bool): (p: int)
    ensures p >= 12
    ensures p > 12 <==> textFieldIcon
  {
    if textFieldIcon then (12 + 20 + 12) - 3 else 12
  }

  /** updateStyle's right padding: room for a 28px button when any trailing button
      (clear, password or drop-down) is wanted. */
  function PaddingRight(clearButton: bool, passwordButton: bool, dropDownPadding: bool): (p: int)
    ensures p >= 12
    ensures p > 12 <==> clearButton || passwordButton || dropDownPadding
  {
    if clearButton || passwordButton || dropDownPadding then (24 + 28) - 9 else 12
  }

  /** The x position of a trailing button of width w inside a field of width fieldW. */
  function TrailingButtonX(fieldW: int, w: int): int {
    fieldW - (12 + w) + 3
  }

  /** The icon is painted at x = 12 and is at most iconW wide. */
  const IconX: int := 12

  /** With any trailing button wanted, the text ends before the 28px button starts,
      and with an icon of the default width the text starts after the icon. */
  lemma PaddingsClearTheDecorations(fieldW: int, clearButton: bool, passwordButton: bool, dropDownPadding: bool)
    ensures clearButton || passwordButton || dropDownPadding ==>
              fieldW - PaddingRight(clearButton, passwordButton, dropDownPadding) <= TrailingButtonX(fieldW, 28)
    ensures IconX + 20 <= PaddingLeft(true)
    ensures PaddingLeft(false) < PaddingLeft(true)
  {
  }

  /** setIconPaths: the paths are kept only when the field shows an icon. */
  function StoredIconPaths(textFieldIcon: bool, light: string, dark: string): (r: (string, string))
    ensures textFieldIcon ==> r == (light, dark)
    ensures !textFieldIcon ==> r == ("", "")
  {
    if textFieldIcon then (light, dark) else ("", "")
  }

  /** A field without an icon stores no path whatever it is given, and storing
      the stored paths again changes nothing. */
  lemma StoredIconPathsSettle(textFieldIcon: bool, light: string, dark: string, light2: string, dark2: string)
    ensures !textFieldIcon ==> StoredIconPaths(textFieldIcon, light, dark) == StoredIconPaths(textFieldIcon, light2, dark2)
    ensures var r := StoredIconPaths(textFieldIcon, light, dark);
            StoredIconPaths(textFieldIcon, r.0, r.1) == r
    ensures StoredIconPaths(textFieldIcon, light, dark).0 != "" ==> textFieldIcon && light != ""
  {
  }

  datatype EchoMode = Normal | Password

  const EyeIcon: string := ":/eye.svg"
  const EyeClosedIcon: string := ":/eye-closed.svg"

  /** The context-menu actions, in the order the menu lists them. */
  datatype ContextAction = Copy | Cut | Paste | Delete | SelectAll | Undo | Redo

  function Rank(a: ContextAction): nat {
    match a
    case Copy => 0
    case Cut => 1
    case Paste => 2
    case Delete => 3
    case SelectAll => 4
    case Undo => 5
    case Redo => 6
  }

  /** When an action is offered: copy, cut and delete need a selection, paste is
      always there, select-all needs text and no selection, undo and redo need
      something to undo or redo. */
  predicate Offered(a: ContextAction, hasText: bool, hasSelection: bool, undoAvailable: bool, redoAvailable: bool) {
    match a
    case Copy => hasSelection
    case Cut => hasSelection
    case Paste => true
    case Delete => hasSelection
    case SelectAll => hasText && !hasSelection
    case Undo => undoAvailable
    case Redo => redoAvailable
  }

  /** The actions contextMenuEvent adds, in the order it adds them. */
  function ContextList(hasText: bool, hasSelection: bool, undoAvailable: bool, redoAvailable: bool): (r: seq<ContextAction>)
    ensures forall a :: a in r <==> Offered(a, hasText, hasSelection, undoAvailable, redoAvailable)
    ensures forall i, j :: 0 <= i < j < |r| ==> Rank(r[i]) < Rank(r[j])
    ensures Paste in r && 1 <= |r| <= 6
  {
    (if hasSelection then [Copy] else [])
    + (if hasSelection then [Cut] else [])
    + [Paste]
    + (if hasSelection then [Delete] else [])
    + (if hasText && !hasSelection then [SelectAll] else [])
    + (if undoAvailable then [Undo] else [])
    + (if redoAvailable then [Redo] else [])
  }

  /** The entry each action puts in the menu: text, light and dark icons, shortcut. */
  function Entry(a: ContextAction): (e: Menus.MenuAction)
    ensures !e.hasSubMenu && Menus.Accepts(e)
  {
    match a
    case Copy => Menus.MenuAction("Copy", false, ":/Assets/Icons/copy_light.svg", ":/Assets/Icons/copy.svg", "Ctrl + C")
    case Cut => Menus.MenuAction("Cut", false, ":/Assets/Icons/cut_light.svg", ":/Assets/Icons/cut.svg", "Ctrl + X")
    case Paste => Menus.MenuAction("Paste", false, ":/Assets/Icons/clipboard_light.svg", ":/Assets/Icons/clipboard.svg", "Ctrl + V")
    case Delete => Menus.MenuAction("Delete", false, ":/Assets/Icons/delete_light.svg", ":/Assets/Icons/delete.svg", "Delete")
    case SelectAll => Menus.MenuAction("Select All", false, ":/Assets/Icons/select-all_light.svg", ":/Assets/Icons/select-all.svg", "Ctrl + A")
    case Undo => Menus.MenuAction("Undo", false, ":/Assets/Icons/undo_light.svg", ":/Assets/Icons/undo.svg", "Ctrl + Z")
    case Redo => Menus.MenuAction("Redo", false, ":/Assets/Icons/redo_light.svg", ":/Assets/Icons/redo.svg", "Ctrl + Y")
  }

  /** The handler of the menu's itemClicked signal: the clicked text picks the
      edit operation; any other text is unknown. */
  function DispatchAction(clickedText: string): Option<ContextAction> {
    if clickedText == "Copy" then Some(Copy)
    else if clickedText == "Cut" then Some(Cut)
    else if clickedText == "Paste" then Some(Paste)
    else if clickedText == "Delete" then Some(Delete)
    else if clickedText == "Select All" then Some(SelectAll)
    else if clickedText == "Undo" then Some(Undo)
    else if clickedText == "Redo" then Some(Redo)
    else None
  }

  /** Clicking an entry runs the operation it was added for. */
  lemma DispatchRoundTrip(a: ContextAction)
    ensures DispatchAction(Entry(a).text) == Some(a)
  {
  }

  /** The menu rows for a list of actions. */
  function ItemsFor(actions: seq<ContextAction>, darkMode: bool): (items: seq<Menus.MenuItem>)
    ensures |items| == |actions|
    ensures forall i :: 0 <= i < |actions| ==> items[i] == Menus.ItemFor(Entry(actions[i]), darkMode)
  {
    if |actions| == 0 then [] else ItemsFor(actions[..|actions| - 1], darkMode) + [Menus.ItemFor(Entry(actions[|actions| - 1]), darkMode)]
  }

  lemma ItemsForAppend(actions: seq<ContextAction>, a: ContextAction, darkMode: bool)
    ensures ItemsFor(actions + [a], darkMode) == ItemsFor(actions, darkMode) + [Menus.ItemFor(Entry(a), darkMode)]
  {
    assert (actions + [a])[..|actions|] == actions;
  }

  /** ItemsFor maps each action on its own. */
  lemma {:induction false} ItemsForConcat(a: seq<ContextAction>, b: seq<ContextAction>, darkMode: bool)
    ensures ItemsFor(a + b, darkMode) == ItemsFor(a, darkMode) + ItemsFor(b, darkMode)
    decreases |b|
  {
    if |b| == 0 {
      assert a + b == a;
    } else {
      var front := b[..|b| - 1];
      var last := b[|b| - 1];
      assert b == front + [last];
      assert a + b == (a + front) + [last];
      ItemsForAppend(a + front, last, darkMode);
      ItemsForConcat(a, front, darkMode);
      ItemsForAppend(front, last, darkMode);
    }
  }

  /** The rows one `if (condition) menu->addAction(...)` statement adds. */
  function RowsIf(condition: bool, a: ContextAction, darkMode: bool): seq<Menus.MenuItem> {
    if condition then [Menus.ItemFor(Entry(a), darkMode)] else []
  }

  /** The menu rows contextMenuEvent adds, statement by statement. */
  function ContextRows(hasText: bool, hasSelection: bool, undoAvailable: bool, redoAvailable: bool, darkMode: bool): seq<Menus.MenuItem> {
    RowsIf(hasSelection, Copy, darkMode)
    + RowsIf(hasSelection, Cut, darkMode)
    + RowsIf(true, Paste, darkMode)
    + RowsIf(hasSelection, Delete, darkMode)
    + RowsIf(hasText && !hasSelection, SelectAll, darkMode)
    + RowsIf(undoAvailable, Undo, darkMode)
    + RowsIf(redoAvailable, Redo, darkMode)
  }

  lemma RowsIfIsItemsFor(condition: bool, a: ContextAction, darkMode: bool)
    ensures RowsIf(condition, a, darkMode) == ItemsFor(if condition then [a] else [], darkMode)
  {
    if condition {
      ItemsForAppend([], a, darkMode);
      assert [] + [a] == [a];
    }
  }

  /** The rows added statement by statement are the rows of the offered actions in
      menu order. */
  lemma ContextRowsAreOfferedActions(hasText: bool, hasSelection: bool, undoAvailable: bool, redoAvailable: bool, darkMode: bool)
    ensures ContextRows(hasText, hasSelection, undoAvailable, redoAvailable, darkMode)
            == ItemsFor(ContextList(hasText, hasSelection, undoAvailable, redoAvailable), darkMode)
  {
    var c1 := if hasSelection then [Copy] else [];
    var c2 := if hasSelection then [Cut] else [];
    var c3 := [Paste];
    var c4 := if hasSelection then [Delete] else [];
    var c5 := if hasText && !hasSelection then [SelectAll] else [];
    var c6 := if undoAvailable then [Undo] else [];
    var c7 := if redoAvailable then [Redo] else [];
    RowsIfIsItemsFor(hasSelection, Copy, darkMode);
    RowsIfIsItemsFor(hasSelection, Cut, darkMode);
    RowsIfIsItemsFor(true, Paste, darkMode);
    RowsIfIsItemsFor(hasSelection, Delete, darkMode);
    RowsIfIsItemsFor(hasText && !hasSelection, SelectAll, darkMode);
    RowsIfIsItemsFor(undoAvailable, Undo, darkMode);
    RowsIfIsItemsFor(redoAvailable, Redo, darkMode);
    ItemsForConcat(c1, c2, darkMode);
    ItemsForConcat(c1 + c2, c3, darkMode);
    ItemsForConcat(c1 + c2 + c3, c4, darkMode);
    ItemsForConcat(c1 + c2 + c3 + c4, c5, darkMode);
    ItemsForConcat(c1 + c2 + c3 + c4 + c5, c6, darkMode);
    ItemsForConcat(c1 + c2 + c3 + c4 + c5 + c6, c7, darkMode);
  }

  /** One statement of contextMenuEvent: `if (condition) menu->addAction(entry of a)`. */
  method AddEntryIf(m: Menus.Menu, condition: bool, a: ContextAction)
    requires m.Valid()
    modifies m`rows
    ensures m.Valid()
    ensures m.rows == old(m.rows) + RowsIf(condition, a, m.isDarkMode)
  {
    if condition {
      m.AddAction(Entry(a));
    }
  }

  /** The addAction statements of contextMenuEvent, in order, on the menu it has
      just created: the menu's rows are the offered actions' entries. */
  method AddContextEntries(m: Menus.Menu, hasText: bool, hasSelection: bool, undoAvailable: bool, redoAvailable: bool)
    requires m.Valid() && m.rows == []
    modifies m`rows
    ensures m.Valid()
    ensures m.rows == ItemsFor(ContextList(hasText, hasSelection, undoAvailable, redoAvailable), m.isDarkMode)
  {
    AddEntryIf(m, hasSelection, Copy);
    assert m.rows == RowsIf(hasSelection, Copy, m.isDarkMode);
    AddEntryIf(m, hasSelection, Cut);
    AddEntryIf(m, true, Paste);
    AddEntryIf(m, hasSelection, Delete);
    AddEntryIf(m, hasText && !hasSelection, SelectAll);
    AddEntryIf(m, undoAvailable, Undo);
    AddEntryIf(m, redoAvailable, Redo);
    assert m.rows == ContextRows(hasText, hasSelection, undoAvailable, redoAvailable, m.isDarkMode);
    ContextRowsAreOfferedActions(hasText, hasSelection, undoAvailable, redoAvailable, m.isDarkMode);
  }

  /** The empty menu contextMenuEvent starts from: seven rows at most, 220 by 36
      items, the field's theme, icons shown. */
  method NewContextMenu(menuGeometry: Rect, darkMode: bool) returns (m: Menus.Menu)
    ensures fresh(m) && m.Valid()
    ensures m.rows == [] && m.maxVisibleItems == 7 && m.itemSize == Size(220, 36)
    ensures m.isDarkMode == darkMode && m.isIconic
  {
    m := new Menus.Menu(menuGeometry);
    m.SetMaxVisibleItems(7);
    m.SetItemSize(Size(220, 36));
    m.SetDarkMode(darkMode);
    m.SetIconic(true);
  }

  class TextField {
    var isHover: bool
    var isFocused: bool
    var isDarkMode: bool
    var hasShadow: bool
    var textFieldIcon: bool
    var clearButton: bool
    var passwordButton: bool
    var isPasswordVisible: bool
    var dropDownPadding: bool
    var isReadOnly: bool
    var isEnabled: bool
    var lightIcon: string
    var darkIcon: string
    var textFieldIconSize: Size
    var size: Size
    /** Whether the clear button exists, and whether it is shown. */
    var hasClear: bool
    var clearShown: bool
    /** Whether the password button exists, whether it is shown, and its icon. */
    var hasPassword: bool
    var passwordShown: bool
    var passwordIcon: string
    var echoMode: EchoMode
    var text: string
    /** The paddings of the last stylesheet updateStyle applied. */
    var paddingLeft: int
    var paddingRight: int

    /** The echo mode follows the password button's eye, and the trailing buttons
        are only shown over non-empty text. */
    ghost predicate Valid()
      reads this
    {
      && (isPasswordVisible ==> hasPassword)
      && (echoMode == Password <==> hasPassword && !isPasswordVisible)
      && (hasPassword ==> passwordIcon == if isPasswordVisible then EyeClosedIcon else EyeIcon)
      && (clearShown ==> hasClear && isFocused && text != "")
      && (passwordShown ==> hasPassword && text != "")
    }

    /** The constructor with its initial text: init() sets the size for a zero
        request and applies the style. */
    constructor(initialText: string)
      ensures Valid()
      ensures text == initialText && echoMode == Normal
      ensures !isHover && !isFocused && !isDarkMode && hasShadow && !textFieldIcon
      ensures !clearButton && !passwordButton && !isPasswordVisible && !dropDownPadding && !isReadOnly && isEnabled
      ensures !hasClear && !hasPassword && !clearShown && !passwordShown
      ensures lightIcon == "" && darkIcon == "" && textFieldIconSize == Size(20, 20)
      ensures size == Size(200, 36) && paddingLeft == 12 && paddingRight == 12
    {
      isHover := false;
      isFocused := false;
      isDarkMode := false;
      hasShadow := true;
      textFieldIcon := false;
      clearButton := false;
      passwordButton := false;
      isPasswordVisible := false;
      dropDownPadding := false;
      isReadOnly := false;
      isEnabled := true;
      lightIcon := "";
      darkIcon := "";
      textFieldIconSize := Size(20, 20);
      hasClear := false;
      clearShown := false;
      hasPassword := false;
      passwordShown := false;
      passwordIcon := "";
      echoMode := Normal;
      text := initialText;
      size := FieldSize(Size(0, 0));
      paddingLeft := PaddingLeft(false);
      paddingRight := PaddingRight(false, false, false);
    }

    method UpdateStyle()
      modifies this`paddingLeft, this`paddingRight
      ensures paddingLeft == PaddingLeft(textFieldIcon)
      ensures paddingRight == PaddingRight(clearButton, passwordButton, dropDownPadding)
    {
      paddingLeft := if textFieldIcon then (12 + 20 + 12) - 3 else 12;
      paddingRight := if clearButton || passwordButton || dropDownPadding then (24 + 28) - 9 else 12;
    }

    method SetShadow(value: bool)
      modifies this`hasShadow
      ensures hasShadow == value
    {
      hasShadow := value;
    }

    method SetDarkMode(value: bool)
      modifies this`isDarkMode, this`paddingLeft, this`paddingRight
      ensures isDarkMode == value
      ensures paddingLeft == PaddingLeft(textFieldIcon)
      ensures paddingRight == PaddingRight(clearButton, passwordButton, dropDownPadding)
    {
      isDarkMode := value;
      UpdateStyle();
    }

    method SetSize(s: Size)
      modifies this`size
      ensures size == FieldSize(s)
    {
      var finalWidth := if s.w < 200 then 200 else s.w;
      size := Size(finalWidth, 36);
    }

    /** QWidget::setFixedSize, which a subclass may call without the 200x36 rule. */
    method SetFixedSize(s: Size)
      modifies this`size
      ensures size == s
    {
      size := s;
    }

    method SetTextFieldIcon(value: bool)
      modifies this`textFieldIcon, this`paddingLeft, this`paddingRight
      ensures textFieldIcon == value
      ensures paddingLeft == PaddingLeft(value)
      ensures paddingRight == PaddingRight(clearButton, passwordButton, dropDownPadding)
    {
      textFieldIcon := value;
      UpdateStyle();
    }

    method SetTextFieldIconSize(s: Size)
      modifies this`textFieldIconSize
      ensures textFieldIcon ==> textFieldIconSize == s
      ensures !textFieldIcon ==> textFieldIconSize == old(textFieldIconSize)
    {
      if textFieldIcon {
        textFieldIconSize := s;
      }
    }

    method SetIconPaths(light: string, dark: string)
      modifies this`lightIcon, this`darkIcon
      ensures (lightIcon, darkIcon) == StoredIconPaths(textFieldIcon, light, dark)
    {
      if textFieldIcon {
        lightIcon := light;
        darkIcon := dark;
      } else {
        lightIcon := "";
        darkIcon := "";
      }
    }

    method SetDropDownPadding(value: bool)
      modifies this`dropDownPadding, this`paddingLeft, this`paddingRight
      ensures dropDownPadding == value
      ensures paddingLeft == PaddingLeft(textFieldIcon)
      ensures paddingRight == PaddingRight(clearButton, passwordButton, value)
    {
      dropDownPadding := value;
      UpdateStyle();
    }

    method SetReadOnly(value: bool)
      modifies this`isReadOnly
      ensures isReadOnly == value
    {
      isReadOnly := value;
    }

    method SetEnabled(value: bool)
      modifies this`isEnabled
      ensures isEnabled == value
    {
      isEnabled := value;
    }

    /** setClearButton: the clear button is created, hidden, the first time it is
        asked for; the style is refreshed only then. */
    method SetClearButton(value: bool)
      requires Valid()
      modifies this`clearButton, this`hasClear, this`clearShown, this`paddingLeft, this`paddingRight
      ensures Valid()
      ensures clearButton == value
      ensures value && !old(hasClear) ==>
                hasClear && !clearShown
                && paddingLeft == PaddingLeft(textFieldIcon)
                && paddingRight == PaddingRight(value, passwordButton, dropDownPadding)
      ensures !(value && !old(hasClear)) ==>
                hasClear == old(hasClear) && clearShown == old(clearShown)
                && paddingLeft == old(paddingLeft) && paddingRight == old(paddingRight)
    {
      clearButton := value;
      if clearButton && !hasClear {
        hasClear := true;
        clearShown := false;
        UpdateStyle();
      }
    }

    /** setPasswordTextField: the eye button is created, hidden and showing the open
        eye, only when asked for, none exists and no clear button is wanted; the
        text is then masked. */
    method SetPasswordTextField(value: bool)
      requires Valid()
      modifies this`passwordButton, this`hasPassword, this`passwordShown, this`passwordIcon,
               this`echoMode, this`paddingLeft, this`paddingRight
      ensures Valid()
      ensures passwordButton == value
      ensures value && !old(hasPassword) && !clearButton ==>
                hasPassword && !passwordShown && echoMode == Password && passwordIcon == EyeIcon
                && paddingLeft == PaddingLeft(textFieldIcon)
                && paddingRight == PaddingRight(clearButton, value, dropDownPadding)
      ensures !(value && !old(hasPassword) && !clearButton) ==>
                hasPassword == old(hasPassword) && passwordShown == old(passwordShown)
                && passwordIcon == old(passwordIcon) && echoMode == old(echoMode)
                && paddingLeft == old(paddingLeft) && paddingRight == old(paddingRight)
    {
      passwordButton := value;
      if passwordButton && !hasPassword && !clearButton {
        hasPassword := true;
        echoMode := Password;
        passwordShown := false;
        passwordIcon := EyeIcon;
        UpdateStyle();
      }
    }

    /** setText, with the textChanged handlers the buttons connected: a changed text
        re-decides whether each existing button is shown and masks the password
        again. An unchanged text emits nothing. */
    method SetText(t: string)
      requires Valid()
      modifies this`text, this`clearShown, this`passwordShown, this`passwordIcon,
               this`echoMode, this`isPasswordVisible
      ensures Valid()
      ensures text == t
      ensures t == old(text) ==>
                clearShown == old(clearShown) && passwordShown == old(passwordShown)
                && echoMode == old(echoMode) && isPasswordVisible == old(isPasswordVisible)
                && passwordIcon == old(passwordIcon)
      ensures t != old(text) && hasClear ==> (clearShown <==> isFocused && t != "")
      ensures t != old(text) && hasPassword ==>
                (passwordShown <==> isFocused && t != "") && !isPasswordVisible && echoMode == Password
      ensures !hasClear ==> clearShown == old(clearShown)
      ensures !hasPassword ==> passwordShown == old(passwordShown) && echoMode == old(echoMode)
    {
      if t == text {
        return;
      }
      text := t;
      if hasClear {
        clearShown := isFocused && t != "";
      }
      if hasPassword {
        passwordShown := isFocused && t != "";
        if isPasswordVisible {
          passwordIcon := EyeIcon;
          echoMode := Password;
          isPasswordVisible := false;
        }
      }
    }

    /** The delayed handler of a press on the eye button: show or mask the text. */
    method TogglePasswordVisible()
      requires Valid() && hasPassword
      modifies this`isPasswordVisible, this`passwordIcon, this`echoMode
      ensures Valid()
      ensures isPasswordVisible == !old(isPasswordVisible)
      ensures echoMode == Normal <==> isPasswordVisible
    {
      isPasswordVisible := !isPasswordVisible;
      if isPasswordVisible {
        passwordIcon := EyeClosedIcon;
        echoMode := Normal;
      } else {
        passwordIcon := EyeIcon;
        echoMode := Password;
      }
    }

    method FocusIn()
      requires Valid()
      modifies this`isFocused, this`clearShown
      ensures Valid()
      ensures isFocused
      ensures hasClear ==> (clearShown <==> text != "")
      ensures !hasClear ==> clearShown == old(clearShown)
    {
      isFocused := true;
      if hasClear {
        clearShown := text != "";
      }
    }

    method FocusOut()
      requires Valid()
      modifies this`isFocused, this`clearShown
      ensures Valid()
      ensures !isFocused && !clearShown
    {
      isFocused := false;
      if hasClear {
        clearShown := false;
      }
    }

    method Enter()
      modifies this`isHover
      ensures isHover
    {
      isHover := true;
    }

    method Leave()
      modifies this`isHover
      ensures !isHover
    {
      isHover := false;
    }

    /** contextMenuEvent: nothing in password echo mode; otherwise a fresh menu of
        seven visible 220x36 rows holding the offered actions, shown and moved to
        the click. The selection and the undo and redo stacks are the line edit's
        and are passed in; so are the new menu's first geometry and the screen. */
    method ContextMenuEvent(hasSelection: bool, undoAvailable: bool, redoAvailable: bool,
                            menuGeometry: Rect, clickPos: Point, screen: Rect)
      returns (menu: Option<Menus.Menu>)
      ensures menu.None? <==> echoMode == Password
      ensures menu.Some? ==>
                && fresh(menu.value)
                && menu.value.rows == ItemsFor(ContextList(text != "", hasSelection, undoAvailable, redoAvailable), isDarkMode)
                && menu.value.maxVisibleItems == 7 && menu.value.itemSize == Size(220, 36)
                && menu.value.isDarkMode == isDarkMode && menu.value.isIconic
                && menu.value.popupVisible
    {
      if echoMode == Password {
        return None;
      }
      var m := NewContextMenu(menuGeometry, isDarkMode);
      AddContextEntries(m, text != "", hasSelection, undoAvailable, redoAvailable);

      m.Show();
      m.Move(clickPos, screen);
      menu := Some(m);
    }
  }
}
