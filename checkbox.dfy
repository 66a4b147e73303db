/** CheckBox: a check box that paints its own box and label (CheckBox.cpp). */
module CheckBoxes {
  import opened Geometry
  import IconManager

  /** The box's fill: the accent when checked (lighter on hover), a theme grey
      when not. */
  function Background(checked: bool, hover: bool, dark: bool): string
  {
    if checked then (if hover then "#1BB3E6" else "#0191DF")
    else if hover then (if dark then "#323232" else "#F0F0F0")
    else if dark then "#2D2D2D" else "#FBFBFB"
  }

  /** A checked box looks the same in both themes; an unchecked one never shows
      the accent. */
  lemma CheckedIgnoresTheme(checked: bool, hover: bool)
    ensures checked ==> Background(checked, hover, true) == Background(checked, hover, false)
    ensures !checked ==> Background(checked, hover, true) != Background(checked, hover, false)
    ensures !checked ==> Background(checked, hover, true) !in {"#1BB3E6", "#0191DF"}
  {
  }

  /** The box's outline colour. */
  function BorderColor(checked: bool, dark: bool): string {
    if checked then "#0191DF" else if dark then "#4D4D4D" else "#CCCCCC"
  }

  /** The check mark is drawn only on a checked box whose pixmap loaded. */
  predicate ShowCheckMark(checked: bool, pixmapLoaded: bool) {
    pixmapLoaded && checked
  }

  /** The accent marks a checked box and nothing else: the fill and the outline
      are accent colours exactly when the box is checked, a checked box at rest
      has one colour inside and out, hovering always changes the fill, and a
      drawn check mark always sits on the accent. */
  lemma AccentMarksChecked(checked: bool, hover: bool, dark: bool, pixmapLoaded: bool)
    ensures Background(checked, hover, dark) in {"#1BB3E6", "#0191DF"} <==> checked
    ensures BorderColor(checked, dark) == "#0191DF" <==> checked
    ensures checked && !hover ==> Background(checked, hover, dark) == BorderColor(checked, dark)
    ensures Background(checked, true, dark) != Background(checked, false, dark)
    ensures ShowCheckMark(checked, pixmapLoaded) ==> Background(checked, hover, dark) in {"#1BB3E6", "#0191DF"}
  {
  }

  class CheckBox {
    var isDarkMode: bool
    var isHover: bool
    var checked: bool
    /** The values toggled has been emitted with, in order. */
    var toggledSignals: seq<bool>
    var text: string
    /** The resource the check mark is loaded from, and whether it loaded. */
    const checkIconPath: string
    const pixmapLoaded: bool
    var size: Size

    /** The constructor: unchecked, light, not hovered; the check mark comes from
        the icon table, and the box is 22 high and as wide as the 20px box, a
        12px gap and the label's advance in the widget's font. Whether the pixmap
        loads and the advance are the toolkit's. */
    constructor(text: string, pixmapLoaded: bool, textAdvance: int)
      ensures this.text == text && !checked && !isDarkMode && !isHover && toggledSignals == []
      ensures checkIconPath == IconManager.IconPath(IconManager.CheckBoxCheck)
      ensures this.pixmapLoaded == pixmapLoaded
      ensures size == Size(20 + 12 + textAdvance, 22)
    {
      this.text := text;
      checked := false;
      isDarkMode := false;
      isHover := false;
      toggledSignals := [];
      checkIconPath := IconManager.IconPath(IconManager.CheckBoxCheck);
      this.pixmapLoaded := pixmapLoaded;
      size := Size(20 + 12 + textAdvance, 22);
    }

    method SetDarkMode(value: bool)
      modifies this`isDarkMode
      ensures isDarkMode == value
    {
      isDarkMode := value;
    }

    function IsChecked(): bool
      reads this
    {
      checked
    }

    /** setChecked: the current value changes nothing and emits nothing; a new
        value is stored and emitted once. */
    method SetChecked(value: bool)
      modifies this`checked, this`toggledSignals
      ensures checked == value
      ensures value == old(checked) ==> toggledSignals == old(toggledSignals)
      ensures value != old(checked) ==> toggledSignals == old(toggledSignals) + [value]
    {
      if checked == value {
        return;
      }
      checked := value;
      toggledSignals := toggledSignals + [checked];
    }

    /** A press flips the state, which always emits. */
    method MousePress()
      modifies this`checked, this`toggledSignals
      ensures checked == !old(checked)
      ensures toggledSignals == old(toggledSignals) + [checked]
    {
      SetChecked(!checked);
    }

    method Enter()
      modifies this`isHover
      ensures isHover
    {
      isHover := true;
    }

    method Leave()
      modifies this`isHover
      ensures !isHover
    {
      isHover := false;
    }

    /** What paintEvent fills the box with. */
    function PaintedBackground(): (c: string)
      reads this
      ensures checked ==> c == (if isHover then "#1BB3E6" else "#0191DF")
    {
      Background(checked, isHover, isDarkMode)
    }
  }
}
