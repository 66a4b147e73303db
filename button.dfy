/** Button: a push button with display modes, theme colours and a hover shadow
    (Button.cpp). The painting itself is left out; what is kept is the choice of
    background, border and icon, the per-mode sizes and the state flags. */
module Buttons {
  import opened Wrappers
  import opened Geometry

  /** Button::DisplayMode, in declaration order. */
  datatype DisplayMode = IconOnly | TextOnly | IconText | TextUnderIcon | TextFieldButton | ToolButton

  /** A QColor: invalid (default-constructed), transparent, or given by a hex name. */
  datatype Color = Invalid | Transparent | Hex(name: string)

  predicate IsDisabledState(enabled: bool) { !enabled }
  predicate IsHoverState(hover: bool, pressed: bool) { hover && !pressed }
  predicate IsNormalState(hover: bool, pressed: bool) { !hover && !pressed }
  predicate IsPressedState(pressed: bool) { pressed }
  predicate IsToolOrFieldMode(mode: DisplayMode) { mode == ToolButton || mode == TextFieldButton }

  /** Whatever the flags, exactly one of the normal, hover and pressed states holds. */
  lemma ExactlyOneState(hover: bool, pressed: bool)
    ensures IsNormalState(hover, pressed) || IsHoverState(hover, pressed) || IsPressedState(pressed)
    ensures !(IsNormalState(hover, pressed) && IsHoverState(hover, pressed))
    ensures !(IsNormalState(hover, pressed) && IsPressedState(pressed))
    ensures !(IsHoverState(hover, pressed) && IsPressedState(pressed))
  {
  }

  function DisabledSecondary(dark: bool): Color { if dark then Hex("#555555") else Hex("#E0E0E0") }
  const DisabledPrimary: Color := Hex("#B0E0FF")
  function NormalSecondary(dark: bool): Color { if dark then Hex("#2D2D2D") else Hex("#FBFBFB") }
  const NormalPrimary: Color := Hex("#32CCFE")
  function HoverSecondary(dark: bool): Color { if dark then Hex("#323232") else Hex("#F6F6F6") }
  const HoverPrimary: Color := Hex("#1BB3E6")
  function PressedSecondary(dark: bool): Color { if dark then Hex("#1F1F1F") else Hex("#FFFFFF") }
  const PressedPrimary: Color := Hex("#109AC7")

  /** The background each of the three exclusive states calls for: always a
      valid colour, and no colour at all only for a tool or field button at rest. */
  function StateBackground(hover: bool, pressed: bool, secondary: bool, dark: bool, mode: DisplayMode): (c: Color)
    ensures c != Invalid
    ensures c == Transparent <==> IsNormalState(hover, pressed) && IsToolOrFieldMode(mode)
  {
    if IsPressedState(pressed) then
      (if secondary || mode == ToolButton then PressedSecondary(dark) else PressedPrimary)
    else if IsHoverState(hover, pressed) then
      (if secondary || IsToolOrFieldMode(mode) then HoverSecondary(dark) else HoverPrimary)
    else
      (if IsToolOrFieldMode(mode) then Transparent else if secondary then NormalSecondary(dark) else NormalPrimary)
  }

  /** The background paintEvent picks, statement by statement: the disabled
      colour first, then the normal, hover and pressed colours, each overwriting
      what came before when its state holds. Whether the button is enabled never
      shows: one of the three later states always holds. */
  method PaintBackground(enabled: bool, hover: bool, pressed: bool, secondary: bool, dark: bool, mode: DisplayMode)
    returns (background: Color)
    ensures background != Invalid
    ensures background == StateBackground(hover, pressed, secondary, dark, mode)
  {
    background := Invalid;
    if IsDisabledState(enabled) {
      if IsToolOrFieldMode(mode) {
        background := Transparent;
      } else {
        background := if secondary then DisabledSecondary(dark) else DisabledPrimary;
      }
    }
    if IsNormalState(hover, pressed) {
      background := if IsToolOrFieldMode(mode) then Transparent
                    else if secondary then NormalSecondary(dark) else NormalPrimary;
    }
    if IsHoverState(hover, pressed) {
      background := if secondary || IsToolOrFieldMode(mode) then HoverSecondary(dark) else HoverPrimary;
    }
    if IsPressedState(pressed) {
      background := if secondary || mode == ToolButton then PressedSecondary(dark) else PressedPrimary;
    }
  }

  /** No disabled colour is ever painted. */
  lemma DisabledColourNeverPainted(hover: bool, pressed: bool, secondary: bool, dark: bool, mode: DisplayMode)
    ensures StateBackground(hover, pressed, secondary, dark, mode) != DisabledPrimary
    ensures StateBackground(hover, pressed, secondary, dark, mode) != DisabledSecondary(dark)
  {
  }

  /** Hover paints the secondary hover colour exactly when the button is
      secondary or in a tool or field mode. */
  lemma HoverUsesSecondaryIff(secondary: bool, dark: bool, mode: DisplayMode)
    ensures StateBackground(true, false, secondary, dark, mode) == HoverSecondary(dark)
            <==> secondary || IsToolOrFieldMode(mode)
  {
  }

  /** A pressed button paints the secondary pressed colour exactly when it is
      secondary or a tool button, whatever the hover flag. */
  lemma PressedUsesSecondaryIff(hover: bool, secondary: bool, dark: bool, mode: DisplayMode)
    ensures StateBackground(hover, true, secondary, dark, mode) == PressedSecondary(dark)
            <==> secondary || mode == ToolButton
  {
  }

  /** The border is drawn only for secondary buttons outside the tool and field modes. */
  function ShowBorder(secondary: bool, mode: DisplayMode): (show: bool)
    ensures show <==> secondary && mode != ToolButton && mode != TextFieldButton
  {
    if secondary then (if IsToolOrFieldMode(mode) then false else true) else false
  }

  /** A border is drawn only around a button painted from the secondary
      palette, never around a primary or a transparent one. */
  lemma BorderOnlyOnSecondaryPalette(hover: bool, pressed: bool, secondary: bool, dark: bool, mode: DisplayMode)
    ensures !secondary ==> !ShowBorder(secondary, mode)
    ensures ShowBorder(secondary, mode) ==>
              StateBackground(hover, pressed, secondary, dark, mode)
              in {NormalSecondary(dark), HoverSecondary(dark), PressedSecondary(dark)}
    ensures ShowBorder(secondary, mode) ==> StateBackground(hover, pressed, secondary, dark, mode) != Transparent
  {
  }

  /** The icon file paintEvent loads: a primary button always uses the dark icon,
      a secondary one the icon of its theme. */
  function IconPath(secondary: bool, dark: bool, lightIcon: string, darkIcon: string): string
  {
    if !secondary then darkIcon else if dark then darkIcon else lightIcon
  }

  /** A primary button's icon never depends on the theme, the dark theme always
      loads the dark icon, and the light icon is loaded only by a secondary
      button in the light theme. */
  lemma IconFollowsTheme(secondary: bool, dark: bool, lightIcon: string, darkIcon: string)
    ensures IconPath(false, true, lightIcon, darkIcon) == IconPath(false, false, lightIcon, darkIcon)
    ensures IconPath(secondary, true, lightIcon, darkIcon) == darkIcon
    ensures IconPath(secondary, dark, lightIcon, darkIcon) == lightIcon && lightIcon != darkIcon ==> secondary && !dark
  {
  }

  /** The least size setSize allows in a mode; a tool button has none, and every
      other mode asks for at least 28x28. */
  function MinimumSize(mode: DisplayMode): (r: Option<Size>)
    ensures r.None? <==> mode == ToolButton
    ensures r.Some? ==> r.value.w >= 28 && r.value.h >= 28
  {
    match mode
    case IconText => Some(Size(120, 36))
    case IconOnly => Some(Size(36, 36))
    case ToolButton => None
    case TextUnderIcon => Some(Size(56, 50))
    case TextOnly => Some(Size(120, 36))
    case TextFieldButton => Some(Size(28, 28))
  }

  /** The fixed size setSize gives for a requested size. */
  function SizeFor(mode: DisplayMode, s: Size): (r: Size)
    ensures mode == ToolButton ==> r == s
    ensures mode != ToolButton ==>
              var least := MinimumSize(mode).value;
              && r.w >= s.w && r.h >= s.h && r.w >= least.w && r.h >= least.h
              && (r.w == s.w || r.w == least.w) && (r.h == s.h || r.h == least.h)
  {
    match MinimumSize(mode)
    case None => s
    case Some(least) => ExpandedTo(s, least)
  }

  /** A request that already meets the mode's minimum is kept as it is. */
  lemma LargeEnoughRequestKept(mode: DisplayMode, s: Size)
    requires mode != ToolButton
    requires s.w >= MinimumSize(mode).value.w && s.h >= MinimumSize(mode).value.h
    ensures SizeFor(mode, s) == s
  {
  }

  /** The hover shadow's colour: a primary button's shadow is its own resting
      colour, a secondary one's a theme grey or white that is never the accent. */
  function ShadowColor(secondary: bool, dark: bool): (c: Color)
    ensures c != Invalid && c != Transparent
    ensures !secondary ==> c == NormalPrimary
    ensures secondary ==> c != NormalPrimary
  {
    if !secondary then Hex("#32CCFE") else if dark then Hex("#333333") else Hex("#FFFFFF")
  }

  class Button {
    var isHover: bool
    var isPressed: bool
    var isDarkMode: bool
    var secondary: bool
    var hasShadow: bool
    var customSize: bool
    var useUnicodeIcon: bool
    var isEnabled: bool
    var lightIcon: string
    var darkIcon: string
    var iconSize: Size
    var displayMode: DisplayMode
    var unicodeIcon: string
    var unicodeIconSize: int
    /** The fixed size set by setSize; None while the toolkit's sizing applies. */
    var fixedSize: Option<Size>
    /** The shadow colour the last enter event chose. */
    var shadowColor: Color

    /** The header's defaults: an enabled IconText button, neither hovered nor
        pressed, light, primary, without shadow or custom size. */
    constructor()
      ensures !isHover && !isPressed && !isDarkMode && !secondary && !hasShadow
      ensures !customSize && !useUnicodeIcon && isEnabled
      ensures lightIcon == "" && darkIcon == "" && iconSize == Size(20, 20)
      ensures displayMode == IconText && unicodeIcon == "" && unicodeIconSize == 16
      ensures fixedSize == None && shadowColor == Invalid
    {
      isHover := false;
      isPressed := false;
      isDarkMode := false;
      secondary := false;
      hasShadow := false;
      customSize := false;
      useUnicodeIcon := false;
      isEnabled := true;
      lightIcon := "";
      darkIcon := "";
      iconSize := Size(20, 20);
      displayMode := IconText;
      unicodeIcon := "";
      unicodeIconSize := 16;
      fixedSize := None;
      shadowColor := Invalid;
    }

    /** The background the button paints in its present state. */
    function Background(): (c: Color)
      reads this
      ensures c != Invalid
    {
      StateBackground(isHover, isPressed, secondary, isDarkMode, displayMode)
    }

    method SetShadow(value: bool)
      modifies this`hasShadow
      ensures hasShadow == value
    {
      hasShadow := value;
    }

    method SetDarkMode(value: bool)
      modifies this`isDarkMode
      ensures isDarkMode == value
    {
      isDarkMode := value;
    }

    method SetSecondary(value: bool)
      modifies this`secondary
      ensures secondary == value
    {
      secondary := value;
    }

    /** QWidget::setEnabled. */
    method SetEnabled(value: bool)
      modifies this`isEnabled
      ensures isEnabled == value
    {
      isEnabled := value;
    }

    /** setSize: the requested size, raised to the mode's minimum, becomes the
        fixed size, and the size counts as custom from then on. */
    method SetSize(s: Size)
      modifies this`customSize, this`fixedSize
      ensures customSize
      ensures fixedSize == Some(SizeFor(displayMode, s))
    {
      customSize := true;
      match displayMode {
        case IconText => fixedSize := Some(ExpandedTo(s, Size(120, 36)));
        case IconOnly => fixedSize := Some(ExpandedTo(s, Size(36, 36)));
        case ToolButton => fixedSize := Some(s);
        case TextUnderIcon => fixedSize := Some(ExpandedTo(s, Size(56, 50)));
        case TextOnly => fixedSize := Some(ExpandedTo(s, Size(120, 36)));
        case TextFieldButton => fixedSize := Some(ExpandedTo(s, Size(28, 28)));
      }
    }

    /** setDisplayMode: a field button is always secondary, and a button whose size
        was never set takes the mode's minimum. */
    method SetDisplayMode(mode: DisplayMode)
      modifies this`displayMode, this`secondary, this`customSize, this`fixedSize
      ensures displayMode == mode && customSize
      ensures mode == TextFieldButton ==> secondary
      ensures mode != TextFieldButton ==> secondary == old(secondary)
      ensures !old(customSize) ==> fixedSize == Some(SizeFor(mode, Size(0, 0)))
      ensures old(customSize) ==> fixedSize == old(fixedSize)
    {
      displayMode := mode;
      if displayMode == TextFieldButton {
        SetSecondary(true);
      }
      if !customSize {
        SetSize(Size(0, 0));
      }
    }

    method SetIconPaths(light: string, dark: string)
      modifies this`lightIcon, this`darkIcon, this`useUnicodeIcon
      ensures lightIcon == light && darkIcon == dark && !useUnicodeIcon
    {
      lightIcon := light;
      darkIcon := dark;
      useUnicodeIcon := false;
    }

    method SetUnicodeIcon(unicode: string, pointSize: int)
      modifies this`unicodeIcon, this`unicodeIconSize, this`useUnicodeIcon
      ensures unicodeIcon == unicode && unicodeIconSize == pointSize && useUnicodeIcon
    {
      unicodeIcon := unicode;
      unicodeIconSize := pointSize;
      useUnicodeIcon := true;
    }

    method SetIconSize(s: Size)
      modifies this`iconSize, this`useUnicodeIcon
      ensures iconSize == s && !useUnicodeIcon
    {
      iconSize := s;
      useUnicodeIcon := false;
    }

    method MousePress()
      modifies this`isPressed
      ensures isPressed
    {
      isPressed := true;
    }

    method MouseRelease()
      modifies this`isPressed
      ensures !isPressed
    {
      isPressed := false;
    }

    /** hideEvent forgets both the press and the hover. */
    method HideEvent()
      modifies this`isPressed, this`isHover
      ensures !isPressed && !isHover
      ensures Background() == StateBackground(false, false, secondary, isDarkMode, displayMode)
    {
      isPressed := false;
      isHover := false;
    }

    /** enterEvent: hovered; with a shadow, the shadow takes the colour of the
        button's kind and theme. */
    method EnterEvent()
      modifies this`isHover, this`shadowColor
      ensures isHover
      ensures hasShadow ==> shadowColor == ShadowColor(secondary, isDarkMode)
      ensures !hasShadow ==> shadowColor == old(shadowColor)
    {
      isHover := true;
      if hasShadow {
        if !secondary {
          shadowColor := Hex("#32CCFE");
        } else {
          shadowColor := if isDarkMode then Hex("#333333") else Hex("#FFFFFF");
        }
      }
    }

    method LeaveEvent()
      modifies this`isHover
      ensures !isHover
    {
      isHover := false;
    }
  }
}
