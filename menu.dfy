/** Menu: a popup list of actions with optional submenus (Menu.cpp). */
module Menus {
  import opened Wrappers
  import opened Geometry
  import opened ListLayout

  /** What addAction receives: text, submenu flag, light and dark icon paths, shortcut. */
  datatype MenuAction = MenuAction(text: string, hasSubMenu: bool, lightIcon: string, darkIcon: string, shortcut: string)

  /** One row of the menu's item model (a MenuItem and its data roles). */
  datatype MenuItem = MenuItem(iconPath: string, text: string, shortcut: string, hasSubMenu: bool)

  /** The identity of a submenu (a non-null Menu pointer). */
  type MenuId = nat

  /** addAction refuses an action that has both a shortcut and a submenu. */
  predicate Accepts(a: MenuAction) {
    a.shortcut == "" || !a.hasSubMenu
  }

  /** The row addAction builds, with the icon that matches the theme. */
  function ItemFor(a: MenuAction, darkMode: bool): MenuItem {
    MenuItem(if darkMode then a.darkIcon else a.lightIcon, a.text, a.shortcut, a.hasSubMenu)
  }

  /** Where removeAction moves a surviving submenu key. */
  function ShiftKey(k: int, index: int): int {
    if k > index then k - 1 else k
  }

  /** The submenu map after removeAction(index): the entry at index is dropped,
      keys below index stay, and every key above it moves down by one. */
  function Shifted(m: map<int, MenuId>, index: int): (r: map<int, MenuId>)
    ensures forall j :: j in r <==> (j < index && j in m) || (j >= index && j + 1 in m)
    ensures forall j :: j in r ==> if j < index then j in m && r[j] == m[j] else j + 1 in m && r[j] == m[j + 1]
  {
    var below := set k | k in m && k < index;
    var above := set k | k in m && k > index :: k - 1;
    assert forall j :: j in above <==> j >= index && j + 1 in m by {
      forall j | j >= index && j + 1 in m ensures j in above {
        assert (j + 1) - 1 == j;
      }
    }
    map j | j in below + above :: if j < index then m[j] else m[j + 1]
  }

  /** A non-empty set has a member to pick. */
  lemma HasMember(ks: set<int>)
    requires ks != {}
    ensures exists k :: k in ks
  {
    if forall k :: k !in ks {
      assert false;
    }
  }

  /** Moving every element of a set of ints down by one keeps its size. */
  lemma {:induction false} DecrementedSize(ks: set<int>)
    ensures |set k | k in ks :: k - 1| == |ks|
    decreases |ks|
  {
    if ks != {} {
      HasMember(ks);
      var k :| k in ks;
      var rest := ks - {k};
      DecrementedSize(rest);
      var image := set x | x in ks :: x - 1;
      var restImage := set x | x in rest :: x - 1;
      forall y | y in image ensures y in restImage + {k - 1} {
        var x :| x in ks && y == x - 1;
        if x != k {
          assert x in rest;
        }
      }
      forall y | y in restImage + {k - 1} ensures y in image {
        if y != k - 1 {
          var x :| x in rest && y == x - 1;
          assert x in ks;
        }
      }
      assert image == restImage + {k - 1};
      assert k - 1 !in restImage;
    }
  }

  /** removeAction loses exactly one submenu when index was a key and none otherwise. */
  lemma ShiftedSize(m: map<int, MenuId>, index: int)
    ensures |Shifted(m, index)| == if index in m then |m| - 1 else |m|
  {
    var below := set k | k in m && k < index;
    var higher := set k | k in m && k > index;
    ShiftedKeys(m, index, below, higher);
    DecrementedSize(higher);
    SurvivorsSplit(m, index, below, higher);
  }

  lemma ShiftedKeys(m: map<int, MenuId>, index: int, below: set<int>, higher: set<int>)
    requires below == set k | k in m && k < index
    requires higher == set k | k in m && k > index
    ensures Shifted(m, index).Keys == below + (set k | k in higher :: k - 1)
    ensures below * (set k | k in higher :: k - 1) == {}
  {
    var r := Shifted(m, index);
    var above := set k | k in higher :: k - 1;
    forall j ensures j in r.Keys <==> j in below + above {
      assert j in r.Keys <==> j in r;
      if j >= index && j + 1 in m {
        assert j + 1 in higher;
      }
    }
    forall j | j in above ensures j !in below {
      var x :| x in higher && j == x - 1;
    }
  }

  lemma SurvivorsSplit(m: map<int, MenuId>, index: int, below: set<int>, higher: set<int>)
    requires below == set k | k in m && k < index
    requires higher == set k | k in m && k > index
    ensures |below| + |higher| == if index in m then |m| - 1 else |m|
  {
    assert m.Keys - {index} == below + higher by {
      forall j ensures j in m.Keys - {index} <==> j in below + higher {
        assert j in m.Keys <==> j in m;
      }
    }
    assert below * higher == {};
    assert |m.Keys - {index}| == if index in m then |m.Keys| - 1 else |m.Keys|;
  }

  /** Removing the entry at index first, as removeAction does, does not change the result. */
  lemma ShiftedIgnoresRemovedEntry(m: map<int, MenuId>, index: int)
    ensures Shifted(m - {index}, index) == Shifted(m, index)
  {
    var a := Shifted(m - {index}, index);
    var b := Shifted(m, index);
    forall j ensures (j in a <==> j in b) && (j in a ==> a[j] == b[j]) {
      if j < index {
        assert j in m - {index} <==> j in m;
      } else {
        assert j + 1 in m - {index} <==> j + 1 in m;
      }
    }
  }

  /** Moving a submenu key and moving it back: every surviving key is found again. */
  lemma ShiftedKeepsEverySurvivor(m: map<int, MenuId>, index: int, k: int)
    requires k in m && k != index
    ensures ShiftKey(k, index) in Shifted(m, index)
    ensures Shifted(m, index)[ShiftKey(k, index)] == m[k]
  {
  }

  /** The loop of removeAction that rebuilds the submenu map, after the entry at
      index has been removed: each key above index moves down by one. */
  method RekeyedSubMenus(source: map<int, MenuId>, index: int) returns (updated: map<int, MenuId>)
    requires index !in source
    ensures updated == Shifted(source, index)
  {
    ghost var expected := Shifted(source, index);
    updated := map[];
    var todo := source.Keys;
    while todo != {}
      invariant todo <= source.Keys
      invariant forall j :: j in updated ==> j in expected && updated[j] == expected[j]
      invariant forall k :: k in source && k !in todo ==> ShiftKey(k, index) in updated
      decreases todo
    {
      HasMember(todo);
      var key :| key in todo;
      assert ShiftKey(key, index) in expected && expected[ShiftKey(key, index)] == source[key];
      updated := updated[if key > index then key - 1 else key := source[key]];
      todo := todo - {key};
    }
    RekeyedCoversShifted(source, index, updated);
  }

  /** A map that agrees with Shifted wherever it is defined and holds the moved
      key of every source entry is Shifted itself. */
  lemma RekeyedCoversShifted(source: map<int, MenuId>, index: int, updated: map<int, MenuId>)
    requires index !in source
    requires forall j :: j in updated ==> j in Shifted(source, index) && updated[j] == Shifted(source, index)[j]
    requires forall k :: k in source ==> ShiftKey(k, index) in updated
    ensures updated == Shifted(source, index)
  {
    var expected := Shifted(source, index);
    forall j | j in expected ensures j in updated {
      var k := if j < index then j else j + 1;
      assert k in source && ShiftKey(k, index) == j;
    }
    assert updated.Keys == expected.Keys by {
      forall j ensures j in updated.Keys <==> j in expected.Keys {
      }
    }
  }

  /** Menu::adjustXY: move a popup of size s near p so that it stays on the screen.
      popupWidth is the width of this menu's own popup, added back for submenus. */
  function AdjustXY(s: Size, p: Point, screen: Rect, isSubMenu: bool, popupWidth: int): (r: Point)
    ensures r.x >= Left(screen) && r.y >= Top(screen)
    ensures s.h <= Bottom(screen) - Top(screen) ==> r.y + s.h <= Bottom(screen)
    ensures Left(screen) <= p.x && p.x + s.w <= Right(screen) && Top(screen) <= p.y && p.y + s.h <= Bottom(screen) ==> r == p
  {
    var x0 := if p.x + s.w > Right(screen) then p.x - s.w + (if isSubMenu then popupWidth else 0) + 3 else p.x;
    var x := if x0 < Left(screen) then Left(screen) else x0;
    var y0 := if p.y + s.h > Bottom(screen) then Bottom(screen) - s.h else p.y;
    var y := if y0 < Top(screen) then Top(screen) else y0;
    Point(x, y)
  }

  /** The two positions showAt tries, below the anchor first, then above it. */
  function ShowAtBelow(anchor: Rect): Point { Point(Left(anchor), Bottom(anchor) + 4) }
  function ShowAtAbove(anchor: Rect, s: Size): Point { Point(Left(anchor), Top(anchor) - s.h - 4) }

  /** The placement of Menu::showAt: below if the screen contains it, else above
      if that fits, else below; then clamped into [left, right - w] x [top, bottom - h]. */
  function ShowAtPosition(anchor: Rect, s: Size, screen: Rect): (r: Point)
    requires CanClamp(s, screen)
    ensures Left(screen) <= r.x <= Right(screen) - s.w && Top(screen) <= r.y <= Bottom(screen) - s.h
    ensures Fits(screen, ShowAtBelow(anchor), s) ==> r == ClampToScreen(ShowAtBelow(anchor), s, screen)
    ensures (!Fits(screen, ShowAtBelow(anchor), s) && Fits(screen, ShowAtAbove(anchor, s), s))
            ==> r == ClampToScreen(ShowAtAbove(anchor, s), s, screen)
    ensures (!Fits(screen, ShowAtBelow(anchor), s) && !Fits(screen, ShowAtAbove(anchor, s), s))
            ==> r == ClampToScreen(ShowAtBelow(anchor), s, screen)
  {
    var cands := [ShowAtBelow(anchor), ShowAtAbove(anchor, s)];
    assert cands[0] == ShowAtBelow(anchor) && cands[1] == ShowAtAbove(anchor, s);
    Place(cands, ShowAtBelow(anchor), s, screen)
  }

  /** showAt hands its clamped point to move(), which runs adjustXY on it again;
      that second adjustment never changes the point. */
  lemma ShowAtSurvivesMove(anchor: Rect, s: Size, screen: Rect)
    requires CanClamp(s, screen)
    ensures var p := ShowAtPosition(anchor, s, screen);
            AdjustXY(s, p, screen, false, s.w) == p
  {
  }

  /** As written, a menu below an anchor at the right edge of a 1920x1080 screen
      fits there, yet showAt's clamp moves it one pixel to the left, and the
      adjustXY of move() agrees with that clamp and keeps it there. Correcting
      the clamp alone is not enough: adjustXY as written then flips the menu most
      of its width to the left; with both corrected it stays where it fits. */
  lemma MenuEdgeTouchingIsShifted()
    ensures var screen := Rect(0, 0, 1920, 1080);
            var s := Size(300, 200);
            var anchor := Rect(1620, 100, 80, 30);
            && ShowAtBelow(anchor) == Point(1620, 133)
            && Fits(screen, ShowAtBelow(anchor), s)
            && ShowAtPosition(anchor, s, screen) == Point(1619, 133)
            && AdjustXY(s, ShowAtPosition(anchor, s, screen), screen, false, s.w) == Point(1619, 133)
            && ShowAtPositionInside(anchor, s, screen) == Point(1620, 133)
            && AdjustXY(s, Point(1620, 133), screen, false, s.w) == Point(1323, 133)
            && AdjustXYInside(s, Point(1620, 133), screen, false, s.w) == Point(1620, 133)
  {
    var screen := Rect(0, 0, 1920, 1080);
    var s := Size(300, 200);
    var anchor := Rect(1620, 100, 80, 30);
    var cands := [ShowAtBelow(anchor), ShowAtAbove(anchor, s)];
    assert cands[0] == Point(1620, 133);
  }

  /** adjustXY with its edge tests matching the corrected clamp: the popup's last
      column is x + w - 1 and its last row y + h - 1, so it moves only when those
      pass the screen's right() and bottom(). */
  function AdjustXYInside(s: Size, p: Point, screen: Rect, isSubMenu: bool, popupWidth: int): (r: Point)
    ensures r.x >= Left(screen) && r.y >= Top(screen)
    ensures s.h <= screen.h ==> Bottom(RectAt(r, s)) <= Bottom(screen)
    ensures Fits(screen, p, s) ==> r == p
  {
    var x0 := if p.x + s.w - 1 > Right(screen) then p.x - s.w + (if isSubMenu then popupWidth else 0) + 3 else p.x;
    var x := if x0 < Left(screen) then Left(screen) else x0;
    var y0 := if p.y + s.h - 1 > Bottom(screen) then Bottom(screen) - s.h + 1 else p.y;
    var y := if y0 < Top(screen) then Top(screen) else y0;
    Point(x, y)
  }

  /** showAt with the corrected clamp: below if the screen contains it, else above,
      else below, kept whole on the screen. */
  function ShowAtPositionInside(anchor: Rect, s: Size, screen: Rect): (r: Point)
    requires CanClampInside(s, screen)
    ensures Fits(screen, ShowAtBelow(anchor), s) ==> r == ShowAtBelow(anchor)
    ensures !Fits(screen, ShowAtBelow(anchor), s) && Fits(screen, ShowAtAbove(anchor, s), s)
            ==> r == ShowAtAbove(anchor, s)
    ensures !IsNull(screen) && !IsNull(RectAt(ShowAtBelow(anchor), s)) ==> Fits(screen, r, s)
  {
    var cands := [ShowAtBelow(anchor), ShowAtAbove(anchor, s)];
    assert cands[0] == ShowAtBelow(anchor) && cands[1] == ShowAtAbove(anchor, s);
    PlaceInside(cands, ShowAtBelow(anchor), s, screen)
  }

  /** With both corrections, the point the corrected showAt picks survives the
      corrected adjustXY of move(): a menu the screen contains stays where it was
      placed, also against the right and bottom edges. */
  lemma ShowAtInsideSurvivesMove(anchor: Rect, s: Size, screen: Rect)
    requires CanClampInside(s, screen)
    requires !IsNull(screen) && !IsNull(RectAt(ShowAtBelow(anchor), s))
    ensures var p := ShowAtPositionInside(anchor, s, screen);
            AdjustXYInside(s, p, screen, false, s.w) == p
  {
  }

  class Menu {
    /** The item model's rows. */
    var rows: seq<MenuItem>
    /** subMenus: row index to submenu. */
    var subMenus: map<int, MenuId>
    var isDarkMode: bool
    /** Whether the delegate draws an icon column. */
    var isIconic: bool
    var maxVisibleItems: int
    var itemSize: Size
    /** The row height the delegate reports (it is built with the initial item size 150x36). */
    const rowHeight: int
    /** The list's spacing (QListView's default, 0). */
    const spacing: int
    var listHeight: int
    var scrollPolicy: ScrollPolicy
    var popupSize: Size
    var popupPos: Point
    var popupVisible: bool
    var activeIndex: int
    var clickedText: string
    var clickedIndex: int
    var clickedShortcut: string
    /** How many times itemClicked has been emitted. */
    var itemClickedCount: nat

    ghost predicate Valid()
      reads this
    {
      itemSize.w >= 150 && itemSize.h >= 30
    }

    /** The constructor: eight visible rows, items 150x36, no rows, hidden popup.
        The popup's geometry before any layout is the toolkit's. */
    constructor(initialPopup: Rect)
      ensures Valid()
      ensures rows == [] && subMenus == map[] && !isDarkMode && !isIconic
      ensures maxVisibleItems == 8 && itemSize == Size(150, 36) && rowHeight == 36 && spacing == 0
      ensures popupSize == Size(initialPopup.w, initialPopup.h) && popupPos == Point(initialPopup.x, initialPopup.y)
      ensures !popupVisible && clickedIndex == -1 && clickedText == "" && clickedShortcut == ""
      ensures activeIndex == -1 && itemClickedCount == 0
    {
      rows := [];
      subMenus := map[];
      isDarkMode := false;
      isIconic := false;
      maxVisibleItems := 8;
      itemSize := Size(150, 36);
      rowHeight := 36;
      spacing := 0;
      listHeight := 0;
      scrollPolicy := ScrollBarAsNeeded;
      popupSize := Size(initialPopup.w, initialPopup.h);
      popupPos := Point(initialPopup.x, initialPopup.y);
      popupVisible := false;
      activeIndex := -1;
      clickedText := "";
      clickedIndex := -1;
      clickedShortcut := "";
      itemClickedCount := 0;
    }

    method AddAction(a: MenuAction)
      requires Valid()
      modifies this`rows
      ensures Valid()
      ensures Accepts(a) ==> rows == old(rows) + [ItemFor(a, isDarkMode)]
      ensures !Accepts(a) ==> rows == old(rows)
    {
      var item := ItemFor(a, isDarkMode);
      if a.shortcut != "" && a.hasSubMenu {
        return;
      }
      rows := rows + [item];
    }

    method AddSubMenu(index: int, submenu: Option<MenuId>)
      requires Valid()
      modifies this`subMenus
      ensures Valid()
      ensures index != -1 && submenu.Some? ==> subMenus == old(subMenus)[index := submenu.value]
      ensures !(index != -1 && submenu.Some?) ==> subMenus == old(subMenus)
    {
      if index != -1 && submenu.Some? {
        subMenus := subMenus[index := submenu.value];
      }
    }

    /** The popup size the next layout gives: as wide as an item, no taller once
        the rows reach the visible maximum, and unchanged when there are no rows. */
    function SizeAfterUpdate(): (s: Size)
      reads this
      ensures |rows| > 0 ==> s.w == itemSize.w
      ensures |rows| > 0 && |rows| >= maxVisibleItems ==> s.h == ListHeight(maxVisibleItems, rowHeight, spacing)
      ensures |rows| == 0 ==> s == popupSize
    {
      if |rows| > 0 then Size(itemSize.w, ListHeight(VisibleRows(|rows|, maxVisibleItems), rowHeight, spacing))
      else popupSize
    }

    /** The list height, scroll policy and popup size that updateMenu gives for
        the present rows. */
    predicate LaidOut()
      reads this
    {
      var visible := VisibleRows(|rows|, maxVisibleItems);
      && listHeight == ListHeight(visible, rowHeight, spacing)
      && scrollPolicy == ScrollPolicyFor(|rows|, visible)
      && popupSize == Size(itemSize.w, listHeight)
    }

    method UpdateMenu()
      requires Valid()
      modifies this`listHeight, this`scrollPolicy, this`popupSize
      ensures Valid()
      ensures |rows| == 0 ==> listHeight == old(listHeight) && scrollPolicy == old(scrollPolicy) && popupSize == old(popupSize)
      ensures |rows| > 0 ==>
        var visible := VisibleRows(|rows|, maxVisibleItems);
        && listHeight == ListHeight(visible, rowHeight, spacing)
        && scrollPolicy == ScrollPolicyFor(|rows|, visible)
        && popupSize == Size(itemSize.w, listHeight)
      ensures popupSize == old(SizeAfterUpdate())
      ensures |rows| > 0 ==> popupSize.w >= 150
    {
      var itemsHeight := rowHeight;
      var totalItems := |rows|;
      if totalItems <= 0 {
        return;
      }
      var visibleItems := if totalItems < maxVisibleItems then totalItems else maxVisibleItems;
      var height := visibleItems * itemsHeight + spacing * (visibleItems - 1) + 8;
      scrollPolicy := if totalItems > visibleItems then ScrollBarAsNeeded else ScrollBarAlwaysOff;
      listHeight := height;
      popupSize := Size(itemSize.w, height);
    }

    method RemoveAction(index: int)
      requires Valid()
      modifies this`rows, this`subMenus, this`listHeight, this`scrollPolicy, this`popupSize
      ensures Valid()
      ensures index == -1 ==> rows == old(rows) && subMenus == old(subMenus)
                              && listHeight == old(listHeight) && popupSize == old(popupSize)
                              && scrollPolicy == old(scrollPolicy)
      ensures index != -1 ==> rows == RemoveRow(old(rows), index)
      ensures index != -1 ==> subMenus == Shifted(old(subMenus), index)
      ensures index != -1 ==> popupSize == SizeAfterUpdate()
      ensures index != -1 && |rows| > 0 ==> LaidOut()
      ensures index != -1 && |rows| == 0 ==>
                listHeight == old(listHeight) && scrollPolicy == old(scrollPolicy) && popupSize == old(popupSize)
    {
      if index != -1 {
        rows := RemoveRow(rows, index);
        subMenus := subMenus - {index};

        subMenus := RekeyedSubMenus(subMenus, index);
        ShiftedIgnoresRemovedEntry(old(subMenus), index);
        UpdateMenu();
      }
    }

    /** clearAll empties the item model; the submenu map is left as it is. */
    method ClearAll()
      requires Valid()
      modifies this`rows
      ensures Valid()
      ensures rows == [] && subMenus == old(subMenus)
    {
      rows := [];
    }

    method SetItemSize(s: Size)
      requires Valid()
      modifies this`itemSize
      ensures Valid()
      ensures itemSize == ExpandedTo(s, Size(150, 30))
    {
      itemSize := ExpandedTo(s, Size(150, 30));
    }

    method SetMaxVisibleItems(items: int)
      requires Valid()
      modifies this`maxVisibleItems
      ensures Valid()
      ensures maxVisibleItems == items
    {
      maxVisibleItems := items;
    }

    method SetIconic(value: bool)
      requires Valid()
      modifies this`isIconic
      ensures Valid()
      ensures isIconic == value
    {
      isIconic := value;
    }

    method SetDarkMode(value: bool)
      requires Valid()
      modifies this`isDarkMode
      ensures Valid()
      ensures isDarkMode == value
    {
      isDarkMode := value;
    }

    /** show(): lay out, then fade in. */
    method Show()
      requires Valid()
      modifies this`listHeight, this`scrollPolicy, this`popupSize, this`popupVisible
      ensures Valid()
      ensures popupVisible && popupSize == old(SizeAfterUpdate())
      ensures |rows| > 0 ==> popupSize.w >= 150
    {
      UpdateMenu();
      popupVisible := true;
    }

    /** move(point): adjustXY against the screen at that point. */
    method Move(p: Point, screen: Rect)
      requires Valid()
      modifies this`popupPos
      ensures Valid()
      ensures popupPos == AdjustXY(popupSize, p, screen, false, popupSize.w)
    {
      popupPos := AdjustXY(popupSize, p, screen, false, popupSize.w);
    }

    /** showAt(anchor): show, then place below or above the anchor. The clamped
        point lies on the anchor's screen, so move() uses that same screen. */
    method ShowAt(anchor: Option<Rect>, screen: Rect)
      requires Valid()
      requires anchor.Some? ==> CanClamp(SizeAfterUpdate(), screen)
      modifies this`listHeight, this`scrollPolicy, this`popupSize, this`popupVisible, this`popupPos
      ensures Valid()
      ensures popupVisible && popupSize == old(SizeAfterUpdate())
      ensures anchor.None? ==> popupPos == old(popupPos)
      ensures anchor.Some? ==> popupPos == ShowAtPosition(anchor.value, popupSize, screen)
    {
      Show();
      if anchor.None? {
        return;
      }
      var finalPos := ShowAtPosition(anchor.value, popupSize, screen);
      ShowAtSurvivesMove(anchor.value, popupSize, screen);
      Move(finalPos, screen);
    }

    /** The view reports a click on an existing row. */
    method OnItemClicked(index: int)
      requires Valid()
      requires 0 <= index < |rows|
      modifies this`activeIndex, this`clickedText, this`clickedIndex, this`clickedShortcut,
               this`itemClickedCount, this`popupVisible
      ensures Valid()
      ensures activeIndex == index
      ensures rows[index].hasSubMenu ==>
                clickedText == old(clickedText) && clickedIndex == old(clickedIndex)
                && clickedShortcut == old(clickedShortcut) && itemClickedCount == old(itemClickedCount)
                && popupVisible == old(popupVisible)
      ensures !rows[index].hasSubMenu ==>
                clickedText == rows[index].text && clickedIndex == index
                && clickedShortcut == rows[index].shortcut && itemClickedCount == old(itemClickedCount) + 1
                && !popupVisible
    {
      activeIndex := index;
      if rows[index].hasSubMenu {
        return;
      }
      clickedText := rows[index].text;
      clickedIndex := index;
      clickedShortcut := rows[index].shortcut;
      itemClickedCount := itemClickedCount + 1;
      popupVisible := false;
    }
  }
}
