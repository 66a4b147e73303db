# Modern Stylish UI Components, modelled in Dafny

This project models the widget logic of the Modern-Stylish-UI-Components Qt library. The painting itself is left out.

It covers:
- `Menu`: a popup list of actions with submenus.
- `ComboBox` and its drop-down `Popup`.
- `ToolTip`: a delayed hover tooltip.
- `Button`: its state colours and sizes.
- `TextField`: paddings, clear and password buttons, and its context menu.
- `SpinnerProgress`, `CheckBox`.
- `Text` and `Rectangle`: stylesheet-driven labels and boxes.
- `IconManager`: the icon table.

Widgets whose setters update fields in place are Dafny classes. Their methods name the fields they change with `modifies` and state the new values in `ensures`. Placement, formatting and the row bookkeeping are functions, with lemmas about them.

Modules:
- `Geometry`: Qt's integer rectangle rules. `right()` is `x + w - 1`. `center()` divides with truncation. `contains()` refuses null rectangles. It also holds `std::clamp` and the "first candidate that fits, else fall back, then clamp" placement that `Menu::showAt`, `ComboBox::positionPopup` and `ToolTip::position` share.
- `ListLayout`: the row-count arithmetic of `Menu::updateMenu` and `Popup::updatePopup`, and the item models' `removeRow`.
- `StyleText`: the stylesheets `Text::updateStyle` and `Rectangle::updateStyleSheet` build with `QString::arg`. Ints are written in decimal. A stylesheet is a run of `name: value;` declarations. A reader parses a stylesheet back, and round-trip lemmas show that the stylesheet determines every styled field.
- `Menus`, `Popups`, `ComboBoxes`, `ToolTips`, `Buttons`, `TextFields`, `Spinners`, `CheckBoxes`, `Texts`, `Rectangles`, `IconManager`: one module per source file.

Values that come from the toolkit are parameters of the methods that use them:
- screen geometry, anchor and target rectangles;
- the tooltip's size hint;
- the combo box popup's row height (the combo box passes 36);
- a widget's first geometry;
- whether a pixmap loads;
- a label's text advance;
- the selection and the undo/redo availability of a line edit.

## Model

| member | source | states |
|---|---|---|
| Geometry.ExpandedTo | Menu.cpp:259 | QSize::expandedTo: each side is the larger of the two, so at least the minimum and equal to one of them |
| Geometry.TruncDiv | ToolTip.cpp:125-128 | C++ integer division of the centre and half-size computations truncates toward zero (remainder bounds for both signs) |
| Geometry.FirstFitIndex | ToolTip.cpp:131-140 | the if/else-if chain stops at the first candidate the screen contains: that one fits and none before it does |
| Geometry.FirstFitting | Menu.cpp:232-237 | the chosen point is the first candidate that fits, as the if / else-if chain picks it; when none fits it is the fallback |
| Geometry.Clamp | Menu.cpp:239-240 | std::clamp returns the point of [lo, hi] nearest to v |
| Geometry.ClampToScreen | ComboBox.cpp:170-171 | the clamped point lies in [left, right - w] x [top, bottom - h] and a point already there is unchanged |
| Geometry.Place | Menu.cpp:232-240 | the placed point always lies in [left, right - w] x [top, bottom - h]; it is the first fitting candidate clamped onto the screen, or the clamped fallback when none fits |
| Geometry.PlacedPopupOnScreen | ToolTip.cpp:142-145 | whatever was chosen, the placed popup lies on the screen and stays one pixel off its right and bottom edges |
| Geometry.PlaceKeepsRoomyChoice | Menu.cpp:232-242 | the first fitting candidate is used unchanged when it has a pixel to spare on the right and at the bottom |
| Geometry.ClampInside | ComboBox.cpp:170-171 | corrected clamp (see Findings): the popup stays inside the screen, and a point the screen already contains is unchanged |
| Geometry.PlaceInside | ComboBox.cpp:161-173 | corrected placement: the first fitting candidate is always used unchanged, and any popup no larger than the screen ends up on it |
| Geometry.EdgeTouchingChoiceIsShifted | ComboBox.cpp:161-173 | as written, a candidate the screen contains that touches its right edge is moved one pixel left; the corrected placement keeps it |
| Geometry.FullWidthPopupBreaksClamp | ToolTip.cpp:142-143 | as written, a popup exactly as wide as the screen fits, yet std::clamp gets hi < lo; the corrected clamp accepts it |
| ListLayout.VisibleRows | Menu.cpp:151 | std::min(totalItems, maxVisibleItems) is at most both and equal to one of them |
| ListLayout.ScrollBarIffRowsHidden | Menu.cpp:154 | the scroll bar is offered exactly when there are more rows than the visible maximum |
| ListLayout.ListHeightMonotone | Popup.cpp:59 | with non-negative row height and spacing, more visible rows never give a shorter list |
| ListLayout.HeightCappedAtMaximum | Menu.cpp:151-152 | once the row count reaches the maximum, the height no longer grows |
| ListLayout.RemoveRow | ComboBox.cpp:201-202 | a row inside the range is dropped and the others keep their order; any other index changes nothing |
| IconManager.FromCode | resources/Icons.h:3-22 | the enumerator with a given underlying value, None for any other value |
| IconManager.CodeRoundTrip | resources/Icons.h:3-22 | every enumerator is found again from its value |
| IconManager.IconPath | resources/IconManager.cpp:3-23 | the switch gives every enumerator a non-empty ":/icons/….svg" path |
| IconManager.IconForCode | resources/IconManager.cpp:3-27 | a value outside the enumeration falls through to the empty string; an enumerator's value gives its path |
| IconManager.PathRoundTrip | resources/IconManager.cpp:3-23 | the icon is recovered from its path |
| IconManager.PathsDistinct | resources/IconManager.cpp:5-22 | distinct enumerators have distinct paths |
| IconManager.FallbackOnlyOutsideEnumeration | resources/IconManager.cpp:25-26 | the empty path is returned exactly for values that name no enumerator |
| Menus.Shifted | Menu.cpp:118-132 | the submenu map after removeAction: the entry at index is dropped, lower keys stay, higher keys move down by one with their menus |
| Menus.ShiftedSize | Menu.cpp:121-132 | removeAction loses exactly one submenu when index was a key, and none otherwise |
| Menus.ShiftedIgnoresRemovedEntry | Menu.cpp:121-130 | removing the index entry before rekeying, as the code does, does not change the result |
| Menus.ShiftedKeepsEverySurvivor | Menu.cpp:125-130 | every surviving submenu is found at its moved key |
| Menus.RekeyedSubMenus | Menu.cpp:123-132 | the rekeying loop builds exactly the shifted map |
| Menus.AdjustXY | Menu.cpp:186-204 | the adjusted point is never left of or above the screen, and a popup that fits vertically ends above the bottom. A point is unchanged when its popup ends at least one pixel inside the right and bottom edges; a popup that touches the right edge is moved |
| Menus.ShowAtPosition | Menu.cpp:212-244 | showAt places the menu on the screen: the below position clamped onto the screen when the screen contains it, else the clamped above position when that fits, else the clamped below position |
| Menus.ShowAtSurvivesMove | Menu.cpp:175-184 | the adjustXY in move() leaves the point showAt computed unchanged |
| Menus.MenuEdgeTouchingIsShifted | Menu.cpp:229-242 | as written, a menu that fits below an anchor at the right edge ends one pixel left of it; with only the clamp corrected, adjustXY flips it to (1323, 133); with both corrected it stays at (1620, 133) |
| Menus.AdjustXYInside | Menu.cpp:186-204 | corrected adjustXY (see Findings): never left of or above the screen, a popup no taller than the screen ends inside it, and a point whose popup the screen contains is unchanged |
| Menus.ShowAtPositionInside | Menu.cpp:229-240 | corrected showAt: the below position when the screen contains it, else the above one when that fits, and the menu always ends up on the screen |
| Menus.ShowAtInsideSurvivesMove | Menu.cpp:175-184 | with both corrections, move() leaves the point the corrected showAt picks unchanged |
| Menus.Menu.constructor | Menu.cpp:9-13 | eight visible rows, 150x36 items, no rows or submenus, hidden popup |
| Menus.Menu.AddAction | Menu.cpp:106-116 | an action with both a shortcut and a submenu is refused; any other appends its row, with the icon of the current theme |
| Menus.Menu.AddSubMenu | Menu.cpp:168-173 | a submenu is recorded at a valid index; index -1 or a null menu changes nothing |
| Menus.Menu.UpdateMenu | Menu.cpp:144-157 | with no rows nothing changes; otherwise the height, scroll policy and popup size follow the visible row count, and the popup is at least 150 wide |
| Menus.Menu.RemoveAction | Menu.cpp:118-137 | index -1 changes nothing; otherwise the row goes and the submenus are rekeyed. If rows remain, the list height, scroll policy and popup size follow the new row count; with none left, they keep their old values |
| Menus.Menu.SizeAfterUpdate | Menu.cpp:144-157 | with rows, the popup is as wide as an item and, once the rows reach the visible maximum, as tall as that many rows; with no rows the size stays |
| Menus.Menu.ClearAll | Menu.cpp:139-142 | the rows are emptied and the submenu map is left as it is |
| Menus.Menu.SetItemSize | Menu.cpp:259 | the item size is raised to at least 150x30, the bound every menu method keeps |
| Menus.Menu.SetMaxVisibleItems | Menu.cpp:276 | stores the count |
| Menus.Menu.SetIconic | Menu.cpp:262-265 | stores the flag |
| Menus.Menu.SetDarkMode | Menu.cpp:267-272 | stores the theme |
| Menus.Menu.Show | Menu.cpp:207-210 | lays the menu out and shows it; a menu with rows is at least 150 wide |
| Menus.Menu.Move | Menu.cpp:175-184 | the popup goes to adjustXY of the point on that screen |
| Menus.Menu.ShowAt | Menu.cpp:212-244 | shows the menu; without an anchor the position is kept, with one it is ShowAtPosition |
| Menus.Menu.OnItemClicked | Menu.cpp:353-368 | the row becomes active; a submenu row records nothing, any other row records its text, index and shortcut, emits once and hides |
| Popups.CurrentAfterRemoval | ComboBox.cpp:198-205 | after removeRow the current row is -1 only when it was invalid or the last row went; otherwise it is a valid row of the smaller model (the single-selection list's rule) |
| Popups.CurrentFollowsItsItem | ComboBox.cpp:201-202 | a current row that was not removed still shows the same item |
| Popups.CurrentMovesToNeighbour | ComboBox.cpp:201-202 | a removed current row is replaced by the row below it, or by the row above when it was the last row |
| Popups.Popup.constructor | Popup.cpp:3-43 | a hidden popup with eight visible rows, no explicit width and no model |
| Popups.Popup.SetModel | Popup.cpp:74-76 | the list has a model |
| Popups.Popup.SetMaxVisibleItems | Popup.cpp:104-106 | stores the count |
| Popups.Popup.UpdatePopup | Popup.cpp:50-68 | without a model or rows nothing changes; otherwise the height, scroll policy and width (explicit, else parent, else 150) follow the row count |
| Popups.PopupWidth | Popup.cpp:64-65 | a positive explicit width wins; otherwise the parent's width is used when there is a parent; the result is positive unless a parent of width 0 or less supplies it |
| Popups.ExplicitWidthOverridesParent | Popup.cpp:64-65 | with a positive explicit width the parent, or the lack of one, makes no difference |
| Popups.Popup.SetPopupWidth | Popup.cpp:45-48 | stores the width; with a model and rows, the list height, scroll policy and popup size follow the row count, with the new width |
| Popups.Popup.SetCurrentRow | ComboBox.cpp:220-221 | the list's current row is the given one |
| Popups.Popup.RowRemoved | ComboBox.cpp:202 | the current row of the single-selection list follows the removal as CurrentAfterRemoval says |
| Popups.Popup.Reset | ComboBox.cpp:232-234 | the list has no current row |
| Popups.Popup.Move | ComboBox.cpp:173 | the popup is at the point |
| Popups.Popup.FadeIn | Popup.cpp:82-91 | the popup is shown |
| Popups.Popup.FadeOut | Popup.cpp:93-102 | the popup is hidden |
| ComboBoxes.RowFor | ComboBox.cpp:112-121 | an item's row has its text, and an icon exactly when both icon paths are given: the path of the current theme |
| ComboBoxes.RowWithoutIconsIgnoresTheme | ComboBox.cpp:185-186 | an item without both icons has the same row in either theme |
| ComboBoxes.Rows | ComboBox.cpp:112-128 | the model the items call for: one row per item, in order |
| ComboBoxes.RowsAppend | ComboBox.cpp:125-128 | appending items appends their rows |
| ComboBoxes.RowsRemoveRow | ComboBox.cpp:198-205 | removing an item and its row keeps items and model in step |
| ComboBoxes.RowsAreInStep | ComboBox.cpp:181-196 | the model of either theme is in step with the items |
| ComboBoxes.PopupPosition | ComboBox.cpp:146-176 | the popup lies on the screen; centre, below and above are tried in that order, the first that fits is used clamped onto the screen, and when none fits it is the clamped below position |
| ComboBoxes.ComboBox.constructor | ComboBox.cpp:3-36 | a 250x36 field and a hidden popup over an empty model, 250 wide, with rows 36 high |
| ComboBoxes.ComboBox.AddItem | ComboBox.cpp:112-123 | the item and its row are appended; the popup's list height, scroll policy and size follow the new row count and the field's width |
| ComboBoxes.ComboBox.AddItems | ComboBox.cpp:125-128 | every item is appended in order, with its row; after a non-empty list the popup's layout follows the new row count, and an empty list leaves it alone |
| ComboBoxes.ComboBox.DeleteItem | ComboBox.cpp:198-205 | an index outside the items changes nothing; otherwise item and row go and the current row follows. If items remain, the popup's layout follows the new count; with none left, it keeps its old layout |
| ComboBoxes.ComboBox.ClearAll | ComboBox.cpp:230-235 | items and model are empty and there is no current row |
| ComboBoxes.ComboBox.CurrentIndex | ComboBox.cpp:215 | the current row is -1 or a valid item index |
| ComboBoxes.ComboBox.CurrentText | ComboBox.cpp:207-213 | the current item's text when the current index is valid, and empty otherwise |
| ComboBoxes.ComboBox.SetCurrentItem | ComboBox.cpp:217-228 | an index outside the items changes nothing; otherwise it becomes current, the field shows its text, and an iconic box takes its icons |
| ComboBoxes.ComboBox.UpdateItemIcons | ComboBox.cpp:181-196 | every row with both icons gets the icon of the current theme, and the other rows are untouched |
| ComboBoxes.ComboBox.SetDarkMode | ComboBox.cpp:80-89 | field and rows switch to the theme and the items are unchanged |
| ComboBoxes.ComboBox.SetIconic | ComboBox.cpp:68-72 | the field shows or drops its icon slot and its left padding follows |
| ComboBoxes.ComboBox.SetEditable | ComboBox.cpp:74-78 | an editable combo box has a writable field |
| ComboBoxes.ComboBox.SetMaxVisibleItems | ComboBox.cpp:178 | the count is stored in the combo box only |
| ComboBoxes.ComboBox.SetFieldSize | ComboBox.cpp:60-64 | the field takes the size and the popup takes its width; with items, the popup's list height, scroll policy and size follow the row count, and without items they are unchanged |
| ComboBoxes.ComboBox.SetPopupWidth | ComboBox.cpp:66 | the popup takes the width; with items, its layout follows the row count with that width, and without items it is unchanged |
| ComboBoxes.ComboBox.PositionPopup | ComboBox.cpp:146-176 | the popup is moved to PopupPosition and shown |
| ComboBoxes.ComboBox.OnDropDownButtonClicked | ComboBox.cpp:142-144 | a visible popup is hidden where it is; a hidden one is placed and shown |
| ComboBoxes.ComboBox.KeyPress | ComboBox.cpp:248-281 | a read-only box accepts every key and changes nothing; an editable one forwards Up/Down, which moves the current row to the row the list navigates to, chooses the current row on Return/Enter, hides on Escape, and swallows any other key |
| ComboBoxes.ComboBox.ChooseCurrent | ComboBox.cpp:259-269 | with no current row nothing changes; otherwise that item is chosen and the popup hides |
| ComboBoxes.ComboBox.ContextMenuEvent | ComboBox.cpp:283-285 | a box that is not editable accepts the event and shows no menu; an editable one shows the text field's context menu of the offered actions, or none in password mode |
| ToolTips.TooltipPosition | ToolTip.cpp:114-146 | the tooltip lies on the screen; above, below, left and right are tried in order, the first that fits is used clamped onto the screen, and when none fits it is the clamped below position |
| ToolTips.AboveComesFirst | ToolTip.cpp:131-132 | the above position wins whenever it has room |
| ToolTips.RightComesLast | ToolTip.cpp:137-138 | the right position is used only when none of the other three fit |
| ToolTips.ToolTip.constructor | ToolTip.cpp:3-26 | a hidden tooltip with its timer stopped, not hovered, the box in the tooltip's theme |
| ToolTips.ToolTip.FadeOut | ToolTip.cpp:37-46 | the box is hidden |
| ToolTips.ToolTip.EventFilter | ToolTip.cpp:48-112 | Enter on the target starts the timer; the seven stopping events stop it and schedule one check; the box's Enter/Leave set the hover flag; an application state change stops and hides; nothing is consumed |
| ToolTips.ToolTip.TargetCheckFires | ToolTip.cpp:68-71 | a scheduled check hides the box unless the pointer is over it |
| ToolTips.ToolTip.BoxCheckFiresAsWritten | ToolTip.cpp:96-99 | with a target, a check after leaving the box hides it unless the pointer is back on the target; the code needs that target |
| ToolTips.ToolTip.BoxCheckFires | ToolTip.cpp:96-99 | the same check with the target tested first: it agrees with the code when there is a target and changes nothing else when there is none |
| ToolTips.NullTargetUnderPendingCheck | ToolTip.cpp:94-99 | a Leave on the box followed by clearing the target leaves a check pending with no target |
| ToolTips.ToolTip.OnTimeout | ToolTip.cpp:153-161 | the timer has run out; the box is placed at TooltipPosition and shown |
| ToolTips.ToolTip.SetDarkMode | ToolTip.cpp:163-169 | the same theme emits nothing; a new theme is stored, emitted once and handed to the box |
| ToolTips.ToolTip.SetText | ToolTip.cpp:148-154 | the box shows the text |
| ToolTips.ToolTip.SetTargetWidget | ToolTip.cpp:171-188 | a null target stops the timer and hides the box; any target is stored |
| Buttons.ExactlyOneState | Button.cpp:104-117 | exactly one of the normal, hover and pressed states holds, whatever the flags |
| Buttons.PaintBackground | Button.cpp:129-147 | the colour the assignments leave is the state's colour and never the invalid default |
| Buttons.DisabledColourNeverPainted | Button.cpp:132-135 | a disabled colour is always overwritten by a later state |
| Buttons.HoverUsesSecondaryIff | Button.cpp:141-143 | hover paints the secondary colour exactly for secondary buttons and tool or field modes |
| Buttons.PressedUsesSecondaryIff | Button.cpp:145-147 | pressed paints the secondary colour exactly for secondary buttons and tool buttons |
| Buttons.BorderOnlyOnSecondaryPalette | Button.cpp:150-153 | a primary button never has a border; a bordered button always fills its background with a secondary-palette colour, never transparent |
| Buttons.StateBackground | Button.cpp:129-147 | every state has a valid background, and it is transparent exactly for a normal-state button in the tool or field mode |
| Buttons.MinimumSize | Button.cpp:68-87 | every mode except the tool button has a minimum size, and each such minimum is at least 28 by 28 |
| Buttons.ShadowColor | Button.cpp:290-291 | the shadow colour is always a real colour; it is the primary blue exactly for a primary button |
| Buttons.IconFollowsTheme | Button.cpp:173-174 | a primary button's icon does not depend on the theme; the dark theme always loads the dark icon; the light icon is loaded only by a secondary button in the light theme |
| Buttons.SizeFor | Button.cpp:68-87 | a tool button keeps the requested size; any other mode raises it to the mode's minimum |
| Buttons.LargeEnoughRequestKept | Button.cpp:77-85 | a request that meets the mode's minimum is kept |
| Buttons.Button.constructor | Button.cpp:3-30 | the header's defaults: an enabled primary IconText button, light, without shadow or custom size |
| Buttons.Button.Background | Button.cpp:129-147 | the button always paints a valid colour |
| Buttons.Button.SetShadow | Button.cpp:32-37 | stores the flag |
| Buttons.Button.SetDarkMode | Button.cpp:89-92 | stores the theme |
| Buttons.Button.SetSecondary | Button.cpp:94-97 | stores the flag |
| Buttons.Button.SetEnabled | Button.cpp:99-102 | stores the enabled flag that isDisabledState reads |
| Buttons.Button.SetSize | Button.cpp:68-87 | the size counts as custom and the fixed size is SizeFor of the request |
| Buttons.Button.SetDisplayMode | Button.cpp:39-45 | stores the mode; a field button becomes secondary; a button with no custom size yet takes the mode's minimum, through setSize, and so counts as custom afterwards |
| Buttons.Button.SetIconPaths | Button.cpp:47-52 | stores the paths and drops the unicode icon |
| Buttons.Button.SetUnicodeIcon | Button.cpp:54-60 | stores the glyph and its size and uses it |
| Buttons.Button.SetIconSize | Button.cpp:62-66 | stores the size and drops the unicode icon |
| Buttons.Button.MousePress | Button.cpp:263-268 | pressed |
| Buttons.Button.MouseRelease | Button.cpp:270-275 | not pressed |
| Buttons.Button.HideEvent | Button.cpp:277-282 | neither pressed nor hovered, so the normal colour is painted |
| Buttons.Button.EnterEvent | Button.cpp:284-301 | hovered; with a shadow, the shadow takes the colour of the button's kind and theme |
| Buttons.Button.LeaveEvent | Button.cpp:303-316 | not hovered |
| TextFields.FieldSize | TextField.cpp:22-30 | at least 200 wide, always 36 high |
| TextFields.PaddingsClearTheDecorations | TextField.cpp:309-310 | with a trailing button wanted, the text ends before the 28px button; with an icon, it starts after the 20px icon |
| TextFields.StoredIconPathsSettle | TextField.cpp:42-50 | without an icon the given paths do not matter; storing the stored paths again changes nothing; a non-empty stored light path means the field shows an icon and that path was given |
| TextFields.PaddingLeft | TextField.cpp:309 | the left padding is at least 12, and larger exactly when the field shows an icon |
| TextFields.PaddingRight | TextField.cpp:310 | the right padding is at least 12, and larger exactly when a clear, password or drop-down button is shown |
| TextFields.ContextList | TextField.cpp:255-265 | an action is listed exactly when offered, in menu order, and Paste is always there |
| TextFields.Entry | TextField.cpp:255-265 | no entry has a submenu, so the menu accepts every one |
| TextFields.DispatchRoundTrip | TextField.cpp:267-277 | clicking an entry runs the operation it was added for |
| TextFields.ItemsFor | TextField.cpp:255-265 | one menu row per action, in order |
| TextFields.ItemsForConcat | TextField.cpp:255-265 | the rows of two action lists concatenate |
| TextFields.ContextRowsAreOfferedActions | TextField.cpp:255-265 | the rows the seven if-statements add are the rows of the offered actions |
| TextFields.AddEntryIf | TextField.cpp:255 | one `if (condition) addAction` statement appends the action's row exactly when the condition holds |
| TextFields.AddContextEntries | TextField.cpp:252-265 | the menu's rows are the offered actions' entries, in order |
| TextFields.NewContextMenu | TextField.cpp:246-250 | a fresh empty menu with seven visible 220x36 rows, in the field's theme, with icons |
| TextFields.TextField.constructor | TextField.cpp:3-11 | the header's defaults; init gives a 200x36 size and 12px paddings |
| TextFields.TextField.UpdateStyle | TextField.cpp:302-335 | the paddings follow the icon flag and the trailing-button flags |
| TextFields.TextField.SetShadow | TextField.cpp:13-15 | stores the flag |
| TextFields.TextField.SetDarkMode | TextField.cpp:17-20 | stores the theme and refreshes the style |
| TextFields.TextField.SetSize | TextField.cpp:22-30 | the size is FieldSize of the request |
| TextFields.TextField.SetFixedSize | ComboBox.cpp:61 | QWidget::setFixedSize takes the size as given |
| TextFields.TextField.SetTextFieldIcon | TextField.cpp:33-36 | stores the flag and refreshes the left padding |
| TextFields.TextField.SetTextFieldIconSize | TextField.cpp:38-40 | the size is stored only when the field shows an icon |
| TextFields.TextField.SetIconPaths | TextField.cpp:42-50 | the stored paths are StoredIconPaths |
| TextFields.TextField.SetDropDownPadding | TextField.cpp:52-55 | stores the flag and refreshes the right padding |
| TextFields.TextField.SetReadOnly | TextField.cpp:57-61 | stores the flag |
| TextFields.TextField.SetEnabled | TextField.cpp:63-67 | stores the flag |
| TextFields.TextField.SetClearButton | TextField.cpp:69-97 | the clear button is created hidden only the first time it is asked for, and the style is refreshed only then |
| TextFields.TextField.SetPasswordTextField | TextField.cpp:99-143 | the eye button is created, hidden, with the open eye and masked text, only when asked for with no eye button and no clear button |
| TextFields.TextField.SetText | TextField.cpp:131-138 | the textChanged handlers of both buttons (this one and the clear button's at lines 91-93): a changed text re-decides whether each button shows (focused and non-empty), and a visible password is masked again |
| TextFields.TextField.TogglePasswordVisible | TextField.cpp:118-129 | the eye flips, and the text is shown exactly when the eye is open |
| TextFields.TextField.FocusIn | TextField.cpp:212-226 | focused; an existing clear button shows exactly when there is text |
| TextFields.TextField.FocusOut | TextField.cpp:228-241 | not focused, and the clear button is hidden |
| TextFields.TextField.Enter | TextField.cpp:200-204 | hovered |
| TextFields.TextField.Leave | TextField.cpp:206-210 | not hovered |
| TextFields.TextField.ContextMenuEvent | TextField.cpp:243-281 | nothing in password mode; otherwise a fresh, shown menu holding exactly the offered actions, in the field's theme |
| Spinners.AngleAfter | SpinnerProgress.cpp:73-76 | after at least one tick the angle is in [0, 360) |
| Spinners.AngleAfterIsModular | SpinnerProgress.cpp:74 | n ticks turn the arc by 5n degrees modulo 360 |
| Spinners.RangeFor | SpinnerProgress.cpp:80-86 | valid bounds (0 <= min < max <= 100) are kept, and anything else gives 0..100 |
| Spinners.SpinnerSize | SpinnerProgress.cpp:15-23 | at least 250 wide, always 140 high |
| Spinners.Spinner.constructor | SpinnerProgress.cpp:3-13 | the header's defaults: hidden, determinate, range 0..0, value 0, no timer |
| Spinners.Spinner.PercentDivisor | SpinnerProgress.cpp:134 | the divisor of the percentage is zero exactly in the untouched range 0..0, and in (0, 100] otherwise |
| Spinners.Spinner.SetSize | SpinnerProgress.cpp:15-23 | the fixed size is SpinnerSize of the request |
| Spinners.Spinner.SetText | SpinnerProgress.cpp:59-62 | stores the text |
| Spinners.Spinner.SetDarkMode | SpinnerProgress.cpp:64-67 | stores the theme |
| Spinners.Spinner.SetRange | SpinnerProgress.cpp:80-86 | the range is RangeFor of the arguments, so the percentage's divisor is positive from then on |
| Spinners.Spinner.SetValue | SpinnerProgress.cpp:88-95 | a value outside 0..100 is refused, and any other is stored |
| Spinners.Spinner.GetValue | SpinnerProgress.cpp:97-99 | the stored value, within 0..100 |
| Spinners.Spinner.SetIndeterminate | SpinnerProgress.cpp:69-78 | the timer exists once spinning has been asked for |
| Spinners.Spinner.Tick | SpinnerProgress.cpp:73-76 | the angle moves 5 degrees, wrapping at 360 |
| Spinners.Spinner.Start | SpinnerProgress.cpp:45-50 | shown; a stopped timer of a spinning spinner starts |
| Spinners.Spinner.Stop | SpinnerProgress.cpp:52-57 | hidden; a spinning spinner's timer stops |
| CheckBoxes.AccentMarksChecked | CheckBox.cpp:46-66 | the fill is an accent colour, and the border is the accent, exactly when the box is checked; unhovered, a checked box's fill equals its border; hover always changes the fill; the check mark is drawn only on an accent fill |
| CheckBoxes.CheckedIgnoresTheme | CheckBox.cpp:51-57 | a checked box looks the same in both themes; an unchecked one differs by theme and never shows the accent |
| CheckBoxes.CheckBox.constructor | CheckBox.cpp:3-10 | unchecked, light, not hovered, the check icon from the table, and a size of 20 + 12 + the text advance by 22 |
| CheckBoxes.CheckBox.SetDarkMode | CheckBox.cpp:12-15 | stores the theme |
| CheckBoxes.CheckBox.SetChecked | CheckBox.cpp:21-28 | the current value changes nothing and emits nothing; a new value is stored and emitted once |
| CheckBoxes.CheckBox.MousePress | CheckBox.cpp:87-90 | the state flips and the new value is emitted |
| CheckBoxes.CheckBox.Enter | CheckBox.cpp:75-79 | hovered |
| CheckBoxes.CheckBox.Leave | CheckBox.cpp:81-85 | not hovered |
| CheckBoxes.CheckBox.PaintedBackground | CheckBox.cpp:51-57 | a checked box paints the accent |
| StyleText.DigitsOf | Text.cpp:206 | the decimal digits of a natural number, with no leading zero |
| StyleText.Decimal | Text.cpp:206 | QString::arg(int) writes a non-empty run of digits, with a minus sign for negatives |
| StyleText.DigitsRoundTrip | Text.cpp:206 | the digits read back as the number |
| StyleText.NegativeReadsBack | Rectangle.cpp:106 | a minus sign followed by the digits of m reads back as -m |
| StyleText.NonNegativeReadsBack | Rectangle.cpp:106 | the digits of m read back as m |
| StyleText.DecimalRoundTrip | Rectangle.cpp:106 | reading the decimal form back gives the int |
| StyleText.DecimalInjective | Rectangle.cpp:106 | different ints are written differently |
| StyleText.Render | Rectangle.cpp:96-104 | the declarations written one after another as `name: value;` |
| StyleText.IndexOf | Rectangle.cpp:96-104 | the first occurrence of a character: no earlier one exists |
| StyleText.ParseRender | Rectangle.cpp:96-104 | a rendered run of well-formed declarations parses back to itself |
| StyleText.PxRoundTrip | Rectangle.cpp:100-103 | a `%npx` length reads back as n |
| StyleText.WidthReadsBack | Rectangle.cpp:98-99 | the width of a shorthand reads back however the rest of the value goes on, since a decimal holds no `p` |
| StyleText.LineRoundTrip | Rectangle.cpp:98-99 | a `%npx style color` shorthand reads back as its width, style and colour when the style is one word |
| StyleText.FrameDeclarations | Rectangle.cpp:98-103 | the border, outline and four radius declarations, in that order |
| StyleText.FrameDeclarationsWellFormed | Text.cpp:197-202 | a well-formed frame gives well-formed declarations |
| StyleText.FrameRoundTrip | Text.cpp:197-202 | the six frame declarations read back as the frame |
| StyleText.PrefixedFrameParses | Text.cpp:194-215 | well-formed declarations followed by the frame's parse back as exactly those declarations |
| StyleText.PrefixedFrameRoundTrip | Text.cpp:194-215 | a stylesheet of plain properties followed by a frame reads back as those values and that frame |
| Texts.TextDeclarationOrder | Text.cpp:194-202 | colour, background, border, outline and the four radii, in that order |
| Texts.TextStyleSheetRoundTrip | Text.cpp:192-218 | the stylesheet reads back as the text colour, background and frame it was written from |
| Texts.TextStyleSheetInjective | Text.cpp:192-218 | different colours or frames give different stylesheets |
| Texts.Text.constructor | Text.cpp:4-35 | black Arial 12 on transparent, left and vertically centred, no wrap, the default frame, and the label showing all of it |
| Texts.Text.UpdateFont | Text.cpp:181-190 | the label's font is built from the font fields |
| Texts.Text.UpdateStyle | Text.cpp:192-218 | the label's stylesheet is that of the fields |
| Texts.Text.SetTextColor | Text.cpp:37-41 | the colour changes and the stylesheet follows |
| Texts.Text.SetBackgroundColor | Text.cpp:42-46 | the background changes and the stylesheet follows |
| Texts.Text.SetFontSize | Text.cpp:47-51 | only the point size changes, and the label's font follows |
| Texts.Text.SetFontFamily | Text.cpp:52-56 | only the family changes, and the label's font follows |
| Texts.Text.SetFontBold | Text.cpp:57-61 | only the weight changes, and the label's font follows |
| Texts.Text.SetFontItalic | Text.cpp:62-66 | only the italic flag changes, and the label's font follows |
| Texts.Text.SetFontUnderline | Text.cpp:67-71 | only the underline flag changes, and the label's font follows |
| Texts.Text.SetFontStrikeOut | Text.cpp:72-76 | only the strike-out flag changes, and the label's font follows |
| Texts.Text.SetLetterSpacing | Text.cpp:77-81 | only the letter spacing changes, and the label's font follows |
| Texts.Text.SetWordSpacing | Text.cpp:82-86 | the spacing is stored, and the rebuilt font, which never reads it, is unchanged |
| Texts.Text.SetTextAlignment | Text.cpp:87-91 | the alignment is stored and given to the label |
| Texts.Text.SetWordWrap | Text.cpp:92-96 | the flag is stored and given to the label |
| Texts.Text.SetFont | Text.cpp:98-102 | family and size change |
| Texts.Text.SetFontWithWeight | Text.cpp:104-108 | family, size and weight change |
| Texts.Text.SetFontWithStyle | Text.cpp:110-114 | family, size, weight and italic change |
| Texts.Text.SetFontAndAlignment | Text.cpp:116-120 | family, size, weight, italic and alignment change |
| Texts.Text.SetBorderColor | Text.cpp:122-126 | only the border colour of the frame changes, and the stylesheet follows |
| Texts.Text.SetBorderWidth | Text.cpp:127-131 | only the border width changes, and the stylesheet follows |
| Texts.Text.SetBorderStyle | Text.cpp:132-136 | only the border style changes, and the stylesheet follows |
| Texts.Text.SetOutlineColor | Text.cpp:137-141 | only the outline colour changes, and the stylesheet follows |
| Texts.Text.SetOutlineWidth | Text.cpp:142-146 | only the outline width changes, and the stylesheet follows |
| Texts.Text.SetOutlineStyle | Text.cpp:147-151 | only the outline style changes, and the stylesheet follows |
| Texts.Text.SetTopLeftRadius | Text.cpp:152-156 | only that radius changes, and the stylesheet follows |
| Texts.Text.SetTopRightRadius | Text.cpp:157-161 | only that radius changes, and the stylesheet follows |
| Texts.Text.SetBottomLeftRadius | Text.cpp:162-166 | only that radius changes, and the stylesheet follows |
| Texts.Text.SetBottomRightRadius | Text.cpp:167-171 | only that radius changes, and the stylesheet follows |
| Texts.Text.SetRadius | Text.cpp:172-179 | the four radii take the arguments in order, and the stylesheet follows |
| Rectangles.RectangleDeclarationOrder | Rectangle.cpp:96-104 | background, border, outline and the four radii, in that order |
| Rectangles.RectangleStyleSheetRoundTrip | Rectangle.cpp:95-118 | the stylesheet reads back as the background and frame it was written from |
| Rectangles.RectangleStyleSheetInjective | Rectangle.cpp:95-118 | different backgrounds or frames give different stylesheets |
| Rectangles.Rectangle.constructor | Rectangle.cpp:3-18 | a transparent background and the default frame, whose border colour is never assigned and stays empty; the stylesheet matches |
| Rectangles.Rectangle.UpdateStyleSheet | Rectangle.cpp:95-118 | the stylesheet is that of the fields, and regenerating it with unchanged fields leaves it unchanged |
| Rectangles.Rectangle.SetBackgroundColor | Rectangle.cpp:20-24 | the background changes and the stylesheet follows |
| Rectangles.Rectangle.SetBorderColor | Rectangle.cpp:26-30 | only the border colour changes, and the stylesheet follows |
| Rectangles.Rectangle.SetBorderWidth | Rectangle.cpp:32-36 | only the border width changes, and the stylesheet follows |
| Rectangles.Rectangle.SetBorderStyle | Rectangle.cpp:38-42 | only the border style changes, and the stylesheet follows |
| Rectangles.Rectangle.SetOutlineColor | Rectangle.cpp:44-48 | only the outline colour changes, and the stylesheet follows |
| Rectangles.Rectangle.SetOutlineWidth | Rectangle.cpp:50-54 | only the outline width changes, and the stylesheet follows |
| Rectangles.Rectangle.SetOutlineStyle | Rectangle.cpp:56-60 | only the outline style changes, and the stylesheet follows |
| Rectangles.Rectangle.SetTopLeftRadius | Rectangle.cpp:62-66 | only that radius changes, and the stylesheet follows |
| Rectangles.Rectangle.SetTopRightRadius | Rectangle.cpp:68-72 | only that radius changes, and the stylesheet follows |
| Rectangles.Rectangle.SetBottomLeftRadius | Rectangle.cpp:74-78 | only that radius changes, and the stylesheet follows |
| Rectangles.Rectangle.SetBottomRightRadius | Rectangle.cpp:80-84 | only that radius changes, and the stylesheet follows |
| Rectangles.Rectangle.SetRadius | Rectangle.cpp:86-93 | the four radii take the arguments in order, and the stylesheet follows |

## Left out

- Painting is not modelled: paintEvent bodies, pens, opacity and the drawn geometry of text and icons. The colour choices of `Button::paintEvent` and `CheckBox::paintEvent` are modelled; the spinner's arc and percentage text are not.
- Floating-point percent computation in `SpinnerProgress::paintEvent` is left out, apart from the integer divisor it divides by.
- Animations and timers are not modelled as time. Fades are a visibility flag taken as already finished. The tooltip's 2000ms timer and its 150ms checks are a flag and counters. The spinner's 16ms timer is a pair of flags and `Tick`.
- The `Menu` and `ComboBox` event filters are not modelled. They fade out on clicks outside the popup and on application deactivation, which depends on `QApplication::widgetAt` hit testing.
- `Menu::mouseMoveEvent`, `Menu::leaveEvent` and the 300ms submenu timer are not modelled. They depend on hover hit testing and on timers.
- `Menu::setHoveredIndex`, `Menu::itemIndex`, `Menu::adjustSubMenuPosition` and `Menu::setParentMenu` are not modelled. `adjustSubMenuPosition` is `AdjustXY` with `isSubMenu` set, and `AdjustXY` is modelled with that parameter.
- `ComboBox::onComboItemClicked` is not modelled: it reads the index the toolkit's click handling delivers.
- `ComboBox::mousePressEvent` and its 300ms delayed `positionPopup` are not modelled. `positionPopup` itself is modelled.
- `mouseMoveEvent` and `mouseDoubleClickEvent` of `ComboBox` only forward to the toolkit's line edit or accept the event, so they are not modelled.
- Up/Down forwarding to the list in `ComboBox::keyPressEvent` is modelled as the outcome `Forwarded`. The row the list's own navigation moves to is the toolkit's, so `KeyPress` takes it as a parameter.
- The completer of the combo box is not modelled (toolkit behaviour).
- Drop-down button and trailing-button positioning (`positionDropDownButton`, `resizeEvent`) are not modelled. `TextFields.TrailingButtonX` gives the x coordinate they compute.
- `SpinnerProgress::showEvent` centring on the parent is not modelled.
- `Delegate`, `RoundedBox`, `ScrollBar` and the other context widgets are not modelled. `Delegate::sizeHint` returns the item size the delegate was built with, and neither `setSpacing` nor `setDelegateSize` is called. So the menu's row height is the constant 36, the combo box popup's is a constructor argument (36 from the combo box), and both lists' spacing is the constant 0.
- `IconManager::renderSvg` is not modelled (SVG rendering).
- Text and Rectangle group their stylesheet fields into a `Frame` value, and Text also groups its font fields into a `Font` value. A setter therefore replaces one field of the group, and the contracts say the others are unchanged.
- TextField's stylesheet: only the paddings `updateStyle` computes are modelled; the colours and fonts it also writes are not.
- `TextFields.TextField.constructor`: the constructor with only a parent is the same with empty text.
- `ToolTips.ToolTip.constructor`: the tooltip's initial theme is a parameter, because the declaration of `isDarkMode` in the header is stale.
- Texts.TextStyleSheetRoundTrip: proved for colours and styles without `;` and for one-word styles. `QString::arg` would also substitute a `%n` appearing inside an argument value, which is not modelled.
- Rectangles.RectangleStyleSheetRoundTrip: the same restriction as the Text round trip.
- Ints are unbounded. Sizes, coordinates and pixel lengths are not wrapped at 32 bits, and negative sizes are not normalised as `QRect::normalized` would.
- Texts.Text.SetFontSize: QFont's handling of non-positive point sizes (a warning, the size ignored) is not modelled; the size is stored as given.

## Findings

| source | as written | input that shows it | evidently intended | confidence | as-written member | corrected member |
|---|---|---|---|---|---|---|
| ComboBox.cpp:170-171, ToolTip.cpp:142-143 | x is clamped into [left, right - w] and y into [top, bottom - h]. Qt's `right()` is `x + w - 1`, so this keeps a one pixel gap and is one pixel too tight | 1920x1080 screen, a 300x200 popup at (1620, 100): the screen contains it, yet it is moved to (1619, 100). A popup 1920 wide calls `std::clamp` with hi < lo, which is undefined | clamp into [left, right - w + 1]: a popup the screen contains is left where it is | medium, not executed | Geometry.EdgeTouchingChoiceIsShifted | Geometry.PlaceInside |
| Menu.cpp:239-240, Menu.cpp:190, Menu.cpp:197 | showAt clamps x into [left, right - w] and y into [top, bottom - h], and the adjustXY that move() runs afterwards tests `x + w > right()` and `y + h > bottom()`. Both are one pixel too tight, and they agree with each other | 1920x1080 screen, a 300x200 menu, anchor (1620, 100, 80x30): the menu fits below at (1620, 133), yet it ends at (1619, 133). Correcting only the clamp makes adjustXY move it to (1323, 133) | clamp into [left, right - w + 1] and test `x + w - 1 > right()`, `y + h - 1 > bottom()`: a menu the screen contains stays where it is placed | medium, not executed | Menus.MenuEdgeTouchingIsShifted | Menus.ShowAtInsideSurvivesMove |
| ToolTip.cpp:96-99, ToolTip.cpp:175 | the 150ms check scheduled by a Leave on the box calls `_target->underMouse()` without testing `_target`, and `setTargetWidget(nullptr)` sets `_target` to null | a Leave on the tooltip box, then `setTargetWidget(nullptr)` within 150ms: the check then dereferences a null pointer | test `_target` as well as `tooltipWidget` before asking it | medium, not executed | ToolTips.NullTargetUnderPendingCheck | ToolTips.ToolTip.BoxCheckFires |
