/** IconManager::icon: the table from the Icons enumeration to resource paths. */
module IconManager {
  import opened Wrappers

  /** The enumerators of Icons, each with its underlying value. */
  datatype Icon =
    | ArrowDown | ArrowRight | CheckBoxCheck
    | Cut | Copy | MenuDelete | Hide | Show | Paste | Redo | SelectAll | Undo | Clear
    | DelegateCheck | Dot | Search

  function Code(i: Icon): int {
    match i
    case ArrowDown => 0x13
    case ArrowRight => 0x14
    case CheckBoxCheck => 0x15
    case Cut => 0x16
    case Copy => 0x17
    case MenuDelete => 0x18
    case Hide => 0x19
    case Show => 0x1A
    case Paste => 0x1B
    case Redo => 0x1C
    case SelectAll => 0x1D
    case Undo => 0x1E
    case Clear => 0x1F
    case DelegateCheck => 0x40
    case Dot => 0x41
    case Search => 0x42
  }

  /** The enumerator with a given underlying value, if there is one. */
  function FromCode(c: int): (r: Option<Icon>)
    ensures r.Some? ==> Code(r.value) == c
  {
    if 0x13 <= c <= 0x1F then
      Some([ArrowDown, ArrowRight, CheckBoxCheck, Cut, Copy, MenuDelete, Hide, Show,
            Paste, Redo, SelectAll, Undo, Clear][c - 0x13])
    else if 0x40 <= c <= 0x42 then
      Some([DelegateCheck, Dot, Search][c - 0x40])
    else None
  }

  /** Every enumerator is found again from its value. */
  lemma CodeRoundTrip(i: Icon)
    ensures FromCode(Code(i)) == Some(i)
  {
  }

  /** The base name of each icon's file. */
  function BaseName(i: Icon): string {
    match i
    case ArrowDown => "arrow-down"
    case ArrowRight => "arrow-right"
    case CheckBoxCheck => "checkbox-check"
    case DelegateCheck => "delegate-check"
    case Dot => "dot"
    case Search => "search"
    case Cut => "cut"
    case Copy => "copy"
    case MenuDelete => "menuDelete"
    case Hide => "hide"
    case Show => "show"
    case Paste => "paste"
    case Redo => "redo"
    case SelectAll => "select-all"
    case Undo => "undo"
    case Clear => "x"
  }

  const Prefix: string := ":/icons/"
  const Suffix: string := ".svg"

  /** The switch of IconManager::icon for an enumerator. */
  function IconPath(i: Icon): (p: string)
    ensures |p| > |Prefix| + |Suffix|
    ensures p[..|Prefix|] == Prefix
    ensures p[|p| - |Suffix|..] == Suffix
  {
    Prefix + BaseName(i) + Suffix
  }

  /** IconManager::icon for any value of the enum type: values outside the
      enumeration fall through the switch to the empty string. */
  function IconForCode(c: int): (p: string)
    ensures p == "" <==> FromCode(c).None?
  {
    match FromCode(c)
    case Some(i) => IconPath(i)
    case None => ""
  }

  /** The icon whose path this is, read back from the base name. */
  function IconOfPath(p: string): Option<Icon> {
    if |p| >= |Prefix| + |Suffix| && p[..|Prefix|] == Prefix && p[|p| - |Suffix|..] == Suffix then
      var name := p[|Prefix|..|p| - |Suffix|];
      if name == "arrow-down" then Some(ArrowDown)
      else if name == "arrow-right" then Some(ArrowRight)
      else if name == "checkbox-check" then Some(CheckBoxCheck)
      else if name == "delegate-check" then Some(DelegateCheck)
      else if name == "dot" then Some(Dot)
      else if name == "search" then Some(Search)
      else if name == "cut" then Some(Cut)
      else if name == "copy" then Some(Copy)
      else if name == "menuDelete" then Some(MenuDelete)
      else if name == "hide" then Some(Hide)
      else if name == "show" then Some(Show)
      else if name == "paste" then Some(Paste)
      else if name == "redo" then Some(Redo)
      else if name == "select-all" then Some(SelectAll)
      else if name == "undo" then Some(Undo)
      else if name == "x" then Some(Clear)
      else None
    else None
  }

  /** Every path leads back to its icon. */
  lemma {:induction false} PathRoundTrip(i: Icon)
    ensures IconOfPath(IconPath(i)) == Some(i)
  {
    var p := IconPath(i);
    assert p[|Prefix|..|p| - |Suffix|] == BaseName(i);
  }

  /** Distinct enumerators have distinct paths. */
  lemma PathsDistinct(a: Icon, b: Icon)
    requires a != b
    ensures IconPath(a) != IconPath(b)
  {
    PathRoundTrip(a);
    PathRoundTrip(b);
  }

  /** Every enumerator has a non-empty path, and the empty fallback is reached
      exactly for the values outside the enumeration. */
  lemma FallbackOnlyOutsideEnumeration(c: int)
    ensures (exists i :: Code(i) == c) <==> IconForCode(c) != ""
  {
    if IconForCode(c) != "" {
      assert Code(FromCode(c).value) == c;
    } else {
      forall i ensures Code(i) != c {
        CodeRoundTrip(i);
      }
    }
  }
}
