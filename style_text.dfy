/** The pieces the widgets' stylesheet builders share: QString::arg(int) writes an
    int in decimal, and a stylesheet is a run of `property: value;` declarations. */
module StyleText {
  import opened Wrappers

  predicate IsDigit(c: char) { '0' <= c <= '9' }

  function DigitChar(d: nat): (c: char)
    requires d < 10
    ensures IsDigit(c)
  {
    ['0', '1', '2', '3', '4', '5', '6', '7', '8', '9'][d]
  }

  function DigitValue(c: char): (d: nat)
    requires IsDigit(c)
    ensures d < 10
  {
    (c as int - '0' as int) as nat
  }

  lemma DigitValueOfChar(d: nat)
    requires d < 10
    ensures DigitValue(DigitChar(d)) == d
  {
  }

  /** The decimal digits of a natural number, most significant first, without
      leading zeros. */
  function DigitsOf(n: nat): (s: string)
    ensures |s| > 0
    ensures forall i :: 0 <= i < |s| ==> IsDigit(s[i])
    ensures |s| > 1 ==> s[0] != '0'
  {
    if n < 10 then [DigitChar(n)] else DigitsOf(n / 10) + [DigitChar(n % 10)]
  }

  /** QString::arg(int): the decimal form, with a leading minus sign when negative. */
  function Decimal(n: int): (s: string)
    ensures |s| > 0
    ensures forall i :: 0 <= i < |s| ==> IsDigit(s[i]) || s[i] == '-'
  {
    if n < 0 then "-" + DigitsOf(-n) else DigitsOf(n)
  }

  /** The value of a run of decimal digits. */
  function DigitsValue(s: string): nat
    requires forall i :: 0 <= i < |s| ==> IsDigit(s[i])
  {
    if |s| == 0 then 0 else 10 * DigitsValue(s[..|s| - 1]) + DigitValue(s[|s| - 1])
  }

  /** Reads back an int written by Decimal; anything else is refused. */
  function ParseDecimal(s: string): Option<int> {
    if |s| > 0 && s[0] == '-' then
      (if |s| > 1 && forall i :: 1 <= i < |s| ==> IsDigit(s[i]) then Some(-(DigitsValue(s[1..]) as int)) else None)
    else if |s| > 0 && forall i :: 0 <= i < |s| ==> IsDigit(s[i]) then Some(DigitsValue(s) as int)
    else None
  }

  lemma {:induction false} DigitsRoundTrip(n: nat)
    ensures DigitsValue(DigitsOf(n)) == n
  {
    if n < 10 {
      DigitValueOfChar(n);
    } else {
      var s := DigitsOf(n / 10);
      DigitsRoundTrip(n / 10);
      DigitValueOfChar(n % 10);
      assert (s + [DigitChar(n % 10)])[..|s|] == s;
    }
  }

  /** Writing an int and reading it back gives the same int. */
  lemma DecimalRoundTrip(n: int)
    ensures ParseDecimal(Decimal(n)) == Some(n)
  {
    if n < 0 {
      assert Decimal(n) == "-" + DigitsOf(-n);
      NegativeReadsBack(-n);
    } else {
      assert Decimal(n) == DigitsOf(n);
      NonNegativeReadsBack(n);
    }
  }

  lemma NegativeReadsBack(m: nat)
    ensures ParseDecimal("-" + DigitsOf(m)) == Some(-(m as int))
  {
    var ds := DigitsOf(m);
    var s := "-" + ds;
    assert s[0] == '-' && |s| > 1;
    assert s[1..] == ds;
    assert forall i :: 1 <= i < |s| ==> IsDigit(s[i]) by {
      forall i | 1 <= i < |s| ensures IsDigit(s[i]) {
        assert s[i] == ds[i - 1];
      }
    }
    DigitsRoundTrip(m);
  }

  lemma NonNegativeReadsBack(m: nat)
    ensures ParseDecimal(DigitsOf(m)) == Some(m)
  {
    var ds := DigitsOf(m);
    assert ds[0] != '-' by {
      assert IsDigit(ds[0]);
    }
    DigitsRoundTrip(m);
  }

  /** Different ints are written differently. */
  lemma DecimalInjective(a: int, b: int)
    requires Decimal(a) == Decimal(b)
    ensures a == b
  {
    DecimalRoundTrip(a);
    DecimalRoundTrip(b);
  }

  /** One `name: value;` declaration of a stylesheet. */
  datatype Declaration = Declaration(name: string, value: string)

  function Render(decls: seq<Declaration>): (s: string)
    ensures |s| >= |decls| * 3
  {
    if |decls| == 0 then ""
    else decls[0].name + ": " + decls[0].value + ";" + Render(decls[1..])
  }

  /** The property names of some declarations, in order. */
  function Names(decls: seq<Declaration>): seq<string> {
    seq(|decls|, i requires 0 <= i < |decls| => decls[i].name)
  }

  /** Their values, in order. */
  function Values(decls: seq<Declaration>): seq<string> {
    seq(|decls|, i requires 0 <= i < |decls| => decls[i].value)
  }

  /** The first index of c in s, or |s| when c does not occur. */
  function IndexOf(s: string, c: char): (k: nat)
    ensures k <= |s|
    ensures k < |s| ==> s[k] == c
    ensures forall j :: 0 <= j < k ==> s[j] != c
  {
    if |s| == 0 then 0 else if s[0] == c then 0 else 1 + IndexOf(s[1..], c)
  }

  /** The first c of a + [c] + b is the one after a when a holds none. */
  lemma IndexOfAfter(a: string, c: char, b: string)
    requires c !in a
    ensures IndexOf(a + [c] + b, c) == |a|
  {
    var s := a + [c] + b;
    assert s[|a|] == c;
    assert forall j :: 0 <= j < |a| ==> s[j] == a[j];
  }

  /** Splits one chunk `name: value` at its first colon. */
  function ParseDeclaration(chunk: string): Option<Declaration> {
    var k := IndexOf(chunk, ':');
    if k + 1 < |chunk| && chunk[k + 1] == ' ' then Some(Declaration(chunk[..k], chunk[k + 2..])) else None
  }

  /** Reads a stylesheet back as the run of declarations it is made of: chunks
      ending at each semicolon, each split at its first colon. */
  function ParseStyle(s: string): Option<seq<Declaration>>
    decreases |s|
  {
    if |s| == 0 then Some([])
    else
      var k := IndexOf(s, ';');
      if k == |s| then None
      else match ParseDeclaration(s[..k])
        case None => None
        case Some(d) =>
          match ParseStyle(s[k + 1..])
          case None => None
          case Some(ds) => Some([d] + ds)
  }

  /** A declaration the reader can split back out: no colon or semicolon in the
      property name and no semicolon in the value. */
  predicate WellFormed(d: Declaration) {
    ':' !in d.name && ';' !in d.name && ';' !in d.value
  }

  /** Reading a rendered stylesheet gives back the declarations it was rendered
      from. */
  lemma {:induction false} ParseRender(decls: seq<Declaration>)
    requires forall i :: 0 <= i < |decls| ==> WellFormed(decls[i])
    ensures ParseStyle(Render(decls)) == Some(decls)
    decreases |decls|
  {
    if |decls| > 0 {
      var d := decls[0];
      var chunk := d.name + ": " + d.value;
      var rest := Render(decls[1..]);
      var s := Render(decls);
      assert s == chunk + [';'] + rest;
      assert WellFormed(d);
      assert ';' !in chunk by {
        forall i | 0 <= i < |chunk| ensures chunk[i] != ';' {
          if i < |d.name| {
            assert chunk[i] == d.name[i];
          } else if i >= |d.name| + 2 {
            assert chunk[i] == d.value[i - |d.name| - 2];
          }
        }
      }
      IndexOfAfter(chunk, ';', rest);
      assert s[..|chunk|] == chunk;
      assert s[|chunk| + 1..] == rest;
      assert chunk == d.name + [':'] + (" " + d.value);
      IndexOfAfter(d.name, ':', " " + d.value);
      assert chunk[..|d.name|] == d.name;
      assert chunk[|d.name| + 2..] == d.value;
      assert ParseDeclaration(chunk) == Some(d);
      ParseRender(decls[1..]);
      assert [d] + decls[1..] == decls;
    }
  }

  /** A length in pixels, as `%npx` writes it. */
  function Px(n: int): string {
    Decimal(n) + "px"
  }

  /** Reads a pixel length back. */
  function ReadPx(v: string): Option<int> {
    if |v| >= 2 && v[|v| - 2..] == "px" then ParseDecimal(v[..|v| - 2]) else None
  }

  lemma PxRoundTrip(n: int)
    ensures ReadPx(Px(n)) == Some(n)
  {
    var v := Px(n);
    assert v[..|v| - 2] == Decimal(n);
    assert v[|v| - 2..] == "px";
    DecimalRoundTrip(n);
  }

  /** A border or outline shorthand, `%npx style color`. */
  function Line(width: int, style: string, color: string): string {
    Decimal(width) + "px " + style + " " + color
  }

  /** Reads a shorthand back: the width up to the `px `, then the style up to the
      next space, then the colour. */
  function ReadLine(v: string): Option<(int, string, string)> {
    var k := IndexOf(v, 'p');
    if k + 3 <= |v| && v[k..k + 3] == "px " then
      match ParseDecimal(v[..k])
      case None => None
      case Some(w) => ReadStyleAndColor(w, v[k + 3..])
    else None
  }

  /** The part of a shorthand after the width: the style up to the first space,
      then the colour. */
  function ReadStyleAndColor(width: int, rest: string): Option<(int, string, string)> {
    var j := IndexOf(rest, ' ');
    if j < |rest| then Some((width, rest[..j], rest[j + 1..])) else None
  }

  /** A shorthand whose style has no space reads back as written. */
  lemma LineRoundTrip(width: int, style: string, color: string)
    requires ' ' !in style
    ensures ReadLine(Line(width, style, color)) == Some((width, style, color))
  {
    var tail := style + " " + color;
    assert ReadLine(Line(width, style, color)) == ReadStyleAndColor(width, tail) by {
      assert Line(width, style, color) == Decimal(width) + "px " + tail;
      WidthReadsBack(width, tail);
    }
    SplitAtSpace(style, color);
  }

  /** The width of a shorthand reads back, leaving what follows `px `. */
  lemma WidthReadsBack(width: int, tail: string)
    ensures ReadLine(Decimal(width) + "px " + tail) == ReadStyleAndColor(width, tail)
  {
    var d := Decimal(width);
    var v := d + "px " + tail;
    assert v == d + ['p'] + ("x " + tail);
    NoLetterPInDecimal(width);
    IndexOfAfter(d, 'p', "x " + tail);
    assert v[..|d|] == d;
    assert v[|d|..|d| + 3] == "px ";
    assert v[|d| + 3..] == tail;
    DecimalRoundTrip(width);
  }

  lemma NoLetterPInDecimal(n: int)
    ensures 'p' !in Decimal(n)
  {
    var d := Decimal(n);
    forall i | 0 <= i < |d| ensures d[i] != 'p' {
      assert IsDigit(d[i]) || d[i] == '-';
    }
  }

  /** A word, a space and the rest split back at the first space. */
  lemma SplitAtSpace(word: string, rest: string)
    requires ' ' !in word
    ensures IndexOf(word + " " + rest, ' ') == |word|
    ensures (word + " " + rest)[..|word|] == word
    ensures (word + " " + rest)[|word| + 1..] == rest
  {
    IndexOfAfter(word, ' ', rest);
    assert word + " " + rest == word + [' '] + rest;
  }

  /** The border, outline and corner radii that Text and Rectangle both write. */
  datatype Frame = Frame(
    borderWidth: int, borderStyle: string, borderColor: string,
    outlineWidth: int, outlineStyle: string, outlineColor: string,
    topLeftRadius: int, topRightRadius: int, bottomLeftRadius: int, bottomRightRadius: int)

  const FrameNames: seq<string> := [
    "border", "outline",
    "border-top-left-radius", "border-top-right-radius",
    "border-bottom-left-radius", "border-bottom-right-radius"]

  /** The frame's part of a stylesheet, in the order both widgets write it. */
  function FrameDeclarations(f: Frame): (ds: seq<Declaration>)
    ensures |ds| == |FrameNames|
    ensures forall i :: 0 <= i < |ds| ==> ds[i].name == FrameNames[i]
  {
    [ Declaration("border", Line(f.borderWidth, f.borderStyle, f.borderColor)),
      Declaration("outline", Line(f.outlineWidth, f.outlineStyle, f.outlineColor)),
      Declaration("border-top-left-radius", Px(f.topLeftRadius)),
      Declaration("border-top-right-radius", Px(f.topRightRadius)),
      Declaration("border-bottom-left-radius", Px(f.bottomLeftRadius)),
      Declaration("border-bottom-right-radius", Px(f.bottomRightRadius)) ]
  }

  /** Reads a frame back from its six declarations. */
  function ReadFrame(ds: seq<Declaration>): Option<Frame> {
    if |ds| != |FrameNames| || exists i :: 0 <= i < |ds| && ds[i].name != FrameNames[i] then None
    else
      match (ReadLine(ds[0].value), ReadLine(ds[1].value), ReadPx(ds[2].value), ReadPx(ds[3].value),
             ReadPx(ds[4].value), ReadPx(ds[5].value))
      case (Some(b), Some(o), Some(tl), Some(tr), Some(bl), Some(br)) =>
        Some(Frame(b.0, b.1, b.2, o.0, o.1, o.2, tl, tr, bl, br))
      case _ => None
  }

  /** A frame the stylesheet can carry unambiguously: styles are single words and
      no colour or style holds a semicolon. */
  predicate FrameWellFormed(f: Frame) {
    && ' ' !in f.borderStyle && ';' !in f.borderStyle && ';' !in f.borderColor
    && ' ' !in f.outlineStyle && ';' !in f.outlineStyle && ';' !in f.outlineColor
  }

  /** The decimal form of an int holds no semicolon. */
  lemma DecimalPlain(n: int)
    ensures ';' !in Decimal(n)
  {
    var d := Decimal(n);
    forall i | 0 <= i < |d| ensures d[i] != ';' {
      assert IsDigit(d[i]) || d[i] == '-';
    }
  }

  /** The frame's declarations can be split back out of a stylesheet. */
  lemma FrameDeclarationsWellFormed(f: Frame)
    requires FrameWellFormed(f)
    ensures forall i :: 0 <= i < 6 ==> WellFormed(FrameDeclarations(f)[i])
  {
    forall i | 0 <= i < 6
      ensures WellFormed(FrameDeclarations(f)[i])
    {
      FrameNamePlain(i);
      FrameValuePlain(f, i);
    }
  }

  lemma FrameNamePlain(i: nat)
    requires i < 6
    ensures ':' !in FrameNames[i] && ';' !in FrameNames[i]
  {
  }

  lemma FrameValuePlain(f: Frame, i: nat)
    requires FrameWellFormed(f) && i < 6
    ensures ';' !in FrameDeclarations(f)[i].value
  {
    var ds := FrameDeclarations(f);
    match i
    case 0 =>
      assert ds[0].value == Line(f.borderWidth, f.borderStyle, f.borderColor);
      LinePlain(f.borderWidth, f.borderStyle, f.borderColor);
    case 1 =>
      assert ds[1].value == Line(f.outlineWidth, f.outlineStyle, f.outlineColor);
      LinePlain(f.outlineWidth, f.outlineStyle, f.outlineColor);
    case 2 =>
      assert ds[2].value == Px(f.topLeftRadius);
      PxPlain(f.topLeftRadius);
    case 3 =>
      assert ds[3].value == Px(f.topRightRadius);
      PxPlain(f.topRightRadius);
    case 4 =>
      assert ds[4].value == Px(f.bottomLeftRadius);
      PxPlain(f.bottomLeftRadius);
    case 5 =>
      assert ds[5].value == Px(f.bottomRightRadius);
      PxPlain(f.bottomRightRadius);
  }

  lemma PxPlain(n: int)
    ensures ';' !in Px(n)
  {
    DecimalPlain(n);
  }

  lemma LinePlain(width: int, style: string, color: string)
    requires ';' !in style && ';' !in color
    ensures ';' !in Line(width, style, color)
  {
    DecimalPlain(width);
  }

  /** The frame's declarations read back as the frame. */
  lemma FrameRoundTrip(f: Frame)
    requires FrameWellFormed(f)
    ensures ReadFrame(FrameDeclarations(f)) == Some(f)
  {
    LineRoundTrip(f.borderWidth, f.borderStyle, f.borderColor);
    LineRoundTrip(f.outlineWidth, f.outlineStyle, f.outlineColor);
    PxRoundTrip(f.topLeftRadius);
    PxRoundTrip(f.topRightRadius);
    PxRoundTrip(f.bottomLeftRadius);
    PxRoundTrip(f.bottomRightRadius);
  }

  /** A stylesheet made of some well-formed declarations followed by a frame reads
      back as those declarations and the frame's. */
  lemma PrefixedFrameParses(prefix: seq<Declaration>, f: Frame)
    requires forall i :: 0 <= i < |prefix| ==> WellFormed(prefix[i])
    requires FrameWellFormed(f)
    ensures ParseStyle(Render(prefix + FrameDeclarations(f))) == Some(prefix + FrameDeclarations(f))
  {
    var ds := prefix + FrameDeclarations(f);
    FrameDeclarationsWellFormed(f);
    forall i | 0 <= i < |ds| ensures WellFormed(ds[i]) {
      if i >= |prefix| {
        assert ds[i] == FrameDeclarations(f)[i - |prefix|];
      }
    }
    ParseRender(ds);
  }

  /** Reads a stylesheet that starts with the given properties and ends with a
      frame: the values of those properties, then the frame. */
  function ReadWithFrame(s: string, names: seq<string>): Option<(seq<string>, Frame)> {
    match ParseStyle(s)
    case None => None
    case Some(ds) =>
      if |ds| == |names| + 6 && Names(ds[..|names|]) == names then
        match ReadFrame(ds[|names|..])
        case None => None
        case Some(f) => Some((Values(ds[..|names|]), f))
      else None
  }

  /** The declarations pairing each name with the value at the same place. */
  function Declarations(names: seq<string>, values: seq<string>): (ds: seq<Declaration>)
    requires |names| == |values|
    ensures Names(ds) == names && Values(ds) == values
  {
    seq(|names|, i requires 0 <= i < |names| => Declaration(names[i], values[i]))
  }

  /** A property name the reader can split back out. */
  predicate PlainName(name: string) {
    ':' !in name && ';' !in name
  }

  /** A stylesheet that starts with some plain properties and ends with a
      well-formed frame reads back as the values of those properties and the
      frame. */
  lemma PrefixedFrameRoundTrip(names: seq<string>, values: seq<string>, f: Frame)
    requires |names| == |values|
    requires forall i :: 0 <= i < |names| ==> PlainName(names[i]) && ';' !in values[i]
    requires FrameWellFormed(f)
    ensures ReadWithFrame(Render(Declarations(names, values) + FrameDeclarations(f)), names) == Some((values, f))
  {
    var prefix := Declarations(names, values);
    var ds := prefix + FrameDeclarations(f);
    assert forall i :: 0 <= i < |prefix| ==> WellFormed(prefix[i]);
    PrefixedFrameParses(prefix, f);
    assert ds[..|prefix|] == prefix;
    assert ds[|prefix|..] == FrameDeclarations(f);
    FrameRoundTrip(f);
  }
}
