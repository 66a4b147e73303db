/** Text: a label whose colours, font, alignment, word wrap, border, outline and
    corner radii are set one field at a time (Text.cpp). Each setter stores its
    field and then rebuilds the label's font or its stylesheet; the label's font,
    alignment, word wrap and stylesheet are fields of the model. */
module Texts {
  import opened Wrappers
  import opened StyleText

  /** A transparent solid border and outline of width 0 and square corners. */
  const DefaultFrame := Frame(0, "solid", "transparent", 0, "solid", "transparent", 0, 0, 0, 0)

  /** Qt::AlignLeft and Qt::AlignVCenter. */
  const AlignLeft := 0x0001
  const AlignVCenter := 0x0080

  /** The QFont that updateFont builds. The letter spacing is absolute. */
  datatype Font = Font(
    family: string, pointSize: int, bold: bool, italic: bool,
    underline: bool, strikeOut: bool, letterSpacing: int)

  /** The properties updateStyle writes before the frame. */
  const ColorNames: seq<string> := ["color", "background-color"]

  const TextPropertyNames: seq<string> := ColorNames + FrameNames

  /** The declarations updateStyle writes, in its order. */
  function TextDeclarations(textColor: string, backgroundColor: string, f: Frame): seq<Declaration> {
    Declarations(ColorNames, [textColor, backgroundColor]) + FrameDeclarations(f)
  }

  /** The stylesheet lists color, background, border, outline and the four radii,
      in that order, with the colours as given. */
  lemma TextDeclarationOrder(textColor: string, backgroundColor: string, f: Frame)
    ensures |TextDeclarations(textColor, backgroundColor, f)| == |TextPropertyNames| == 8
    ensures forall i :: 0 <= i < 8 ==> TextDeclarations(textColor, backgroundColor, f)[i].name == TextPropertyNames[i]
    ensures TextDeclarations(textColor, backgroundColor, f)[0].value == textColor
    ensures TextDeclarations(textColor, backgroundColor, f)[1].value == backgroundColor
  {
    var ds := TextDeclarations(textColor, backgroundColor, f);
    assert ds[2..] == FrameDeclarations(f);
  }

  /** The stylesheet updateStyle gives the label. */
  function TextStyleSheet(textColor: string, backgroundColor: string, f: Frame): string {
    Render(TextDeclarations(textColor, backgroundColor, f))
  }

  /** Reads a Text stylesheet back as its colours and frame. */
  function ReadTextStyleSheet(s: string): Option<(string, string, Frame)> {
    match ReadWithFrame(s, ColorNames)
    case None => None
    case Some((values, f)) => if |values| == 2 then Some((values[0], values[1], f)) else None
  }

  lemma ColorNamesPlain()
    ensures forall i :: 0 <= i < |ColorNames| ==> PlainName(ColorNames[i])
  {
    assert PlainName(ColorNames[0]);
    assert PlainName(ColorNames[1]);
  }

  /** The stylesheet carries every styled field: reading it back gives the text
      colour, the background and the frame it was written from. */
  lemma TextStyleSheetRoundTrip(textColor: string, backgroundColor: string, f: Frame)
    requires ';' !in textColor && ';' !in backgroundColor && FrameWellFormed(f)
    ensures ReadTextStyleSheet(TextStyleSheet(textColor, backgroundColor, f)) == Some((textColor, backgroundColor, f))
  {
    ColorNamesPlain();
    PrefixedFrameRoundTrip(ColorNames, [textColor, backgroundColor], f);
  }

  /** So two Texts with different styled fields never share a stylesheet. */
  lemma TextStyleSheetInjective(c1: string, b1: string, f1: Frame, c2: string, b2: string, f2: Frame)
    requires ';' !in c1 && ';' !in b1 && FrameWellFormed(f1)
    requires ';' !in c2 && ';' !in b2 && FrameWellFormed(f2)
    requires TextStyleSheet(c1, b1, f1) == TextStyleSheet(c2, b2, f2)
    ensures c1 == c2 && b1 == b2 && f1 == f2
  {
    TextStyleSheetRoundTrip(c1, b1, f1);
    TextStyleSheetRoundTrip(c2, b2, f2);
  }

  class Text {
    var textColor: string
    var backgroundColor: string
    /** fontFamily, fontSize, fontBold, fontItalic, fontUnderline, fontStrikeOut
        and letterSpacing, kept together in the shape updateFont gives them. */
    var fontSpec: Font
    var wordSpacing: int
    var textAlignment: int
    var wordWrap: bool
    /** borderColor, borderWidth, borderStyle, outlineColor, outlineWidth,
        outlineStyle and the four corner radii, kept together. */
    var frame: Frame
    /** What the label itself was last given. */
    var font: Font
    var alignment: int
    var labelWordWrap: bool
    var styleSheet: string

    /** The label always shows what the fields say. */
    ghost predicate Valid()
      reads this
    {
      && font == fontSpec
      && styleSheet == TextStyleSheet(textColor, backgroundColor, frame)
      && alignment == textAlignment
      && labelWordWrap == wordWrap
    }

    /** The constructor's defaults: black text on a transparent background in
        12pt Arial, left and vertically centred, no wrap, a transparent solid
        border and outline of width 0 and square corners. */
    constructor()
      ensures Valid()
      ensures textColor == "#000000" && backgroundColor == "transparent"
      ensures fontSpec == Font("Arial", 12, false, false, false, false, 0)
      ensures wordSpacing == 0 && textAlignment == AlignLeft + AlignVCenter && !wordWrap
      ensures frame == DefaultFrame
    {
      alignment := AlignLeft + AlignVCenter;
      textColor := "#000000";
      backgroundColor := "transparent";
      fontSpec := Font("Arial", 12, false, false, false, false, 0);
      wordSpacing := 0;
      textAlignment := AlignLeft + AlignVCenter;
      wordWrap := false;
      labelWordWrap := false;
      frame := DefaultFrame;
      // updateFont and updateStyle on the defaults
      font := Font("Arial", 12, false, false, false, false, 0);
      styleSheet := TextStyleSheet("#000000", "transparent", DefaultFrame);
    }

    /** updateFont: the label's font is built from the font fields; the word
        spacing is not among them. */
    method UpdateFont()
      modifies this`font
      ensures font == fontSpec
    {
      font := Font(fontSpec.family, fontSpec.pointSize, fontSpec.bold, fontSpec.italic,
                   fontSpec.underline, fontSpec.strikeOut, fontSpec.letterSpacing);
    }

    method UpdateStyle()
      modifies this`styleSheet
      ensures styleSheet == TextStyleSheet(textColor, backgroundColor, frame)
    {
      styleSheet := TextStyleSheet(textColor, backgroundColor, frame);
    }

    method SetTextColor(color: string)
      requires Valid()
      modifies this`textColor, this`styleSheet
      ensures Valid() && textColor == color
    {
      textColor := color;
      UpdateStyle();
    }

    method SetBackgroundColor(color: string)
      requires Valid()
      modifies this`backgroundColor, this`styleSheet
      ensures Valid() && backgroundColor == color
    {
      backgroundColor := color;
      UpdateStyle();
    }

    method SetFontSize(size: int)
      requires Valid()
      modifies this`fontSpec, this`font
      ensures Valid() && fontSpec == old(fontSpec).(pointSize := size)
    {
      fontSpec := fontSpec.(pointSize := size);
      UpdateFont();
    }

    method SetFontFamily(family: string)
      requires Valid()
      modifies this`fontSpec, this`font
      ensures Valid() && fontSpec == old(fontSpec).(family := family)
    {
      fontSpec := fontSpec.(family := family);
      UpdateFont();
    }

    method SetFontBold(bold: bool)
      requires Valid()
      modifies this`fontSpec, this`font
      ensures Valid() && fontSpec == old(fontSpec).(bold := bold)
    {
      fontSpec := fontSpec.(bold := bold);
      UpdateFont();
    }

    method SetFontItalic(italic: bool)
      requires Valid()
      modifies this`fontSpec, this`font
      ensures Valid() && fontSpec == old(fontSpec).(italic := italic)
    {
      fontSpec := fontSpec.(italic := italic);
      UpdateFont();
    }

    method SetFontUnderline(underline: bool)
      requires Valid()
      modifies this`fontSpec, this`font
      ensures Valid() && fontSpec == old(fontSpec).(underline := underline)
    {
      fontSpec := fontSpec.(underline := underline);
      UpdateFont();
    }

    method SetFontStrikeOut(strike: bool)
      requires Valid()
      modifies this`fontSpec, this`font
      ensures Valid() && fontSpec == old(fontSpec).(strikeOut := strike)
    {
      fontSpec := fontSpec.(strikeOut := strike);
      UpdateFont();
    }

    method SetLetterSpacing(spacing: int)
      requires Valid()
      modifies this`fontSpec, this`font
      ensures Valid() && fontSpec == old(fontSpec).(letterSpacing := spacing)
    {
      fontSpec := fontSpec.(letterSpacing := spacing);
      UpdateFont();
    }

    /** setWordSpacing stores the spacing and rebuilds the font, which does not
        read it: the label's font stays what it was. */
    method SetWordSpacing(spacing: int)
      requires Valid()
      modifies this`wordSpacing, this`font
      ensures Valid() && wordSpacing == spacing
      ensures font == old(font)
    {
      wordSpacing := spacing;
      UpdateFont();
    }

    /** setTextAlignment hands the alignment straight to the label; neither the
        font nor the stylesheet is rebuilt. */
    method SetTextAlignment(a: int)
      requires Valid()
      modifies this`textAlignment, this`alignment
      ensures Valid() && textAlignment == a
    {
      textAlignment := a;
      alignment := a;
    }

    method SetWordWrap(wrap: bool)
      requires Valid()
      modifies this`wordWrap, this`labelWordWrap
      ensures Valid() && wordWrap == wrap
    {
      wordWrap := wrap;
      labelWordWrap := wrap;
    }

    /** setFont(family, size). */
    method SetFont(family: string, size: int)
      requires Valid()
      modifies this`fontSpec, this`font
      ensures Valid() && fontSpec == old(fontSpec).(family := family, pointSize := size)
    {
      SetFontFamily(family);
      SetFontSize(size);
    }

    /** setFont(family, size, bold). */
    method SetFontWithWeight(family: string, size: int, bold: bool)
      requires Valid()
      modifies this`fontSpec, this`font
      ensures Valid() && fontSpec == old(fontSpec).(family := family, pointSize := size, bold := bold)
    {
      SetFont(family, size);
      SetFontBold(bold);
    }

    /** setFont(family, size, bold, italic). */
    method SetFontWithStyle(family: string, size: int, bold: bool, italic: bool)
      requires Valid()
      modifies this`fontSpec, this`font
      ensures Valid()
      ensures fontSpec == old(fontSpec).(family := family, pointSize := size, bold := bold, italic := italic)
    {
      SetFontWithWeight(family, size, bold);
      SetFontItalic(italic);
    }

    /** setFont(family, size, bold, italic, alignment): the font through the
        smaller overloads, then the alignment. */
    method SetFontAndAlignment(family: string, size: int, bold: bool, italic: bool, a: int)
      requires Valid()
      modifies this`fontSpec, this`font, this`textAlignment, this`alignment
      ensures Valid()
      ensures fontSpec == old(fontSpec).(family := family, pointSize := size, bold := bold, italic := italic)
      ensures textAlignment == a
    {
      SetFontWithStyle(family, size, bold, italic);
      SetTextAlignment(a);
    }

    method SetBorderColor(color: string)
      requires Valid()
      modifies this`frame, this`styleSheet
      ensures Valid() && frame == old(frame).(borderColor := color)
    {
      frame := frame.(borderColor := color);
      UpdateStyle();
    }

    method SetBorderWidth(width: int)
      requires Valid()
      modifies this`frame, this`styleSheet
      ensures Valid() && frame == old(frame).(borderWidth := width)
    {
      frame := frame.(borderWidth := width);
      UpdateStyle();
    }

    method SetBorderStyle(style: string)
      requires Valid()
      modifies this`frame, this`styleSheet
      ensures Valid() && frame == old(frame).(borderStyle := style)
    {
      frame := frame.(borderStyle := style);
      UpdateStyle();
    }

    method SetOutlineColor(color: string)
      requires Valid()
      modifies this`frame, this`styleSheet
      ensures Valid() && frame == old(frame).(outlineColor := color)
    {
      frame := frame.(outlineColor := color);
      UpdateStyle();
    }

    method SetOutlineWidth(width: int)
      requires Valid()
      modifies this`frame, this`styleSheet
      ensures Valid() && frame == old(frame).(outlineWidth := width)
    {
      frame := frame.(outlineWidth := width);
      UpdateStyle();
    }

    method SetOutlineStyle(style: string)
      requires Valid()
      modifies this`frame, this`styleSheet
      ensures Valid() && frame == old(frame).(outlineStyle := style)
    {
      frame := frame.(outlineStyle := style);
      UpdateStyle();
    }

    method SetTopLeftRadius(radius: int)
      requires Valid()
      modifies this`frame, this`styleSheet
      ensures Valid() && frame == old(frame).(topLeftRadius := radius)
    {
      frame := frame.(topLeftRadius := radius);
      UpdateStyle();
    }

    method SetTopRightRadius(radius: int)
      requires Valid()
      modifies this`frame, this`styleSheet
      ensures Valid() && frame == old(frame).(topRightRadius := radius)
    {
      frame := frame.(topRightRadius := radius);
      UpdateStyle();
    }

    method SetBottomLeftRadius(radius: int)
      requires Valid()
      modifies this`frame, this`styleSheet
      ensures Valid() && frame == old(frame).(bottomLeftRadius := radius)
    {
      frame := frame.(bottomLeftRadius := radius);
      UpdateStyle();
    }

    method SetBottomRightRadius(radius: int)
      requires Valid()
      modifies this`frame, this`styleSheet
      ensures Valid() && frame == old(frame).(bottomRightRadius := radius)
    {
      frame := frame.(bottomRightRadius := radius);
      UpdateStyle();
    }

    /** setRadius: the four corners from the arguments, in order. */
    method SetRadius(topLeft: int, topRight: int, bottomLeft: int, bottomRight: int)
      requires Valid()
      modifies this`frame, this`styleSheet
      ensures Valid()
      ensures frame == old(frame).(topLeftRadius := topLeft, topRightRadius := topRight,
                                   bottomLeftRadius := bottomLeft, bottomRightRadius := bottomRight)
    {
      frame := frame.(topLeftRadius := topLeft, topRightRadius := topRight,
                      bottomLeftRadius := bottomLeft, bottomRightRadius := bottomRight);
      UpdateStyle();
    }
  }
}
