/** Rectangle: a plain styled box whose background, border, outline and corner
    radii are set one field at a time (Rectangle.cpp). Every setter stores its
    field and regenerates the widget's stylesheet, which is a field of the model. */
module Rectangles {
  import opened Wrappers
  import opened StyleText

  /** The constructor's frame: a solid border and outline of width 0, the outline
      transparent, square corners, and a border colour the constructor never
      assigns, so it stays the empty string. */
  const DefaultFrame := Frame(0, "solid", "", 0, "solid", "transparent", 0, 0, 0, 0)

  /** The property updateStyleSheet writes before the frame. */
  const BackgroundNames: seq<string> := ["background-color"]

  /** The declarations updateStyleSheet writes, in its order. */
  function RectangleDeclarations(backgroundColor: string, f: Frame): seq<Declaration> {
    Declarations(BackgroundNames, [backgroundColor]) + FrameDeclarations(f)
  }

  /** The stylesheet updateStyleSheet gives the widget. */
  function RectangleStyleSheet(backgroundColor: string, f: Frame): string {
    Render(RectangleDeclarations(backgroundColor, f))
  }

  /** The stylesheet lists background, border, outline and the four radii, in
      that order. */
  lemma RectangleDeclarationOrder(backgroundColor: string, f: Frame)
    ensures |RectangleDeclarations(backgroundColor, f)| == 7
    ensures RectangleDeclarations(backgroundColor, f)[0] == Declaration("background-color", backgroundColor)
    ensures forall i :: 1 <= i < 7 ==> RectangleDeclarations(backgroundColor, f)[i].name == FrameNames[i - 1]
  {
    var ds := RectangleDeclarations(backgroundColor, f);
    assert ds[1..] == FrameDeclarations(f);
  }

  /** Reads a Rectangle stylesheet back as its background and frame. */
  function ReadRectangleStyleSheet(s: string): Option<(string, Frame)> {
    match ReadWithFrame(s, BackgroundNames)
    case None => None
    case Some((values, f)) => if |values| == 1 then Some((values[0], f)) else None
  }

  /** The stylesheet carries every field: reading it back gives the background
      and the frame it was written from. */
  lemma RectangleStyleSheetRoundTrip(backgroundColor: string, f: Frame)
    requires ';' !in backgroundColor && FrameWellFormed(f)
    ensures ReadRectangleStyleSheet(RectangleStyleSheet(backgroundColor, f)) == Some((backgroundColor, f))
  {
    assert PlainName(BackgroundNames[0]);
    PrefixedFrameRoundTrip(BackgroundNames, [backgroundColor], f);
  }

  /** So the stylesheet changes whenever a field does. */
  lemma RectangleStyleSheetInjective(b1: string, f1: Frame, b2: string, f2: Frame)
    requires ';' !in b1 && FrameWellFormed(f1)
    requires ';' !in b2 && FrameWellFormed(f2)
    requires RectangleStyleSheet(b1, f1) == RectangleStyleSheet(b2, f2)
    ensures b1 == b2 && f1 == f2
  {
    RectangleStyleSheetRoundTrip(b1, f1);
    RectangleStyleSheetRoundTrip(b2, f2);
  }

  class Rectangle {
    var backgroundColor: string
    /** borderColor, borderWidth, borderStyle, outlineColor, outlineWidth,
        outlineStyle and the four corner radii, kept together. */
    var frame: Frame
    var styleSheet: string

    /** The widget always carries the stylesheet of its fields. */
    ghost predicate Valid()
      reads this
    {
      styleSheet == RectangleStyleSheet(backgroundColor, frame)
    }

    /** The constructor: a transparent background and the default frame. */
    constructor()
      ensures Valid()
      ensures backgroundColor == "transparent" && frame == DefaultFrame
      ensures frame.borderColor == ""
    {
      backgroundColor := "transparent";
      frame := DefaultFrame;
      // updateStyleSheet on the defaults
      styleSheet := RectangleStyleSheet("transparent", DefaultFrame);
    }

    /** updateStyleSheet: the stylesheet of the current fields, which is the one
        the widget already has whenever the fields have not changed since. */
    method UpdateStyleSheet()
      modifies this`styleSheet
      ensures Valid()
      ensures old(Valid()) ==> styleSheet == old(styleSheet)
    {
      styleSheet := RectangleStyleSheet(backgroundColor, frame);
    }

    method SetBackgroundColor(color: string)
      modifies this`backgroundColor, this`styleSheet
      ensures Valid() && backgroundColor == color
    {
      backgroundColor := color;
      UpdateStyleSheet();
    }

    method SetBorderColor(color: string)
      modifies this`frame, this`styleSheet
      ensures Valid() && frame == old(frame).(borderColor := color)
    {
      frame := frame.(borderColor := color);
      UpdateStyleSheet();
    }

    method SetBorderWidth(width: int)
      modifies this`frame, this`styleSheet
      ensures Valid() && frame == old(frame).(borderWidth := width)
    {
      frame := frame.(borderWidth := width);
      UpdateStyleSheet();
    }

    method SetBorderStyle(style: string)
      modifies this`frame, this`styleSheet
      ensures Valid() && frame == old(frame).(borderStyle := style)
    {
      frame := frame.(borderStyle := style);
      UpdateStyleSheet();
    }

    method SetOutlineColor(color: string)
      modifies this`frame, this`styleSheet
      ensures Valid() && frame == old(frame).(outlineColor := color)
    {
      frame := frame.(outlineColor := color);
      UpdateStyleSheet();
    }

    method SetOutlineWidth(width: int)
      modifies this`frame, this`styleSheet
      ensures Valid() && frame == old(frame).(outlineWidth := width)
    {
      frame := frame.(outlineWidth := width);
      UpdateStyleSheet();
    }

    method SetOutlineStyle(style: string)
      modifies this`frame, this`styleSheet
      ensures Valid() && frame == old(frame).(outlineStyle := style)
    {
      frame := frame.(outlineStyle := style);
      UpdateStyleSheet();
    }

    method SetTopLeftRadius(radius: int)
      modifies this`frame, this`styleSheet
      ensures Valid() && frame == old(frame).(topLeftRadius := radius)
    {
      frame := frame.(topLeftRadius := radius);
      UpdateStyleSheet();
    }

    method SetTopRightRadius(radius: int)
      modifies this`frame, this`styleSheet
      ensures Valid() && frame == old(frame).(topRightRadius := radius)
    {
      frame := frame.(topRightRadius := radius);
      UpdateStyleSheet();
    }

    method SetBottomLeftRadius(radius: int)
      modifies this`frame, this`styleSheet
      ensures Valid() && frame == old(frame).(bottomLeftRadius := radius)
    {
      frame := frame.(bottomLeftRadius := radius);
      UpdateStyleSheet();
    }

    method SetBottomRightRadius(radius: int)
      modifies this`frame, this`styleSheet
      ensures Valid() && frame == old(frame).(bottomRightRadius := radius)
    {
      frame := frame.(bottomRightRadius := radius);
      UpdateStyleSheet();
    }

    /** setRadius: the four corners from the arguments, in order. */
    method SetRadius(topLeft: int, topRight: int, bottomLeft: int, bottomRight: int)
      modifies this`frame, this`styleSheet
      ensures Valid()
      ensures frame == old(frame).(topLeftRadius := topLeft, topRightRadius := topRight,
                                   bottomLeftRadius := bottomLeft, bottomRightRadius := bottomRight)
    {
      frame := frame.(topLeftRadius := topLeft, topRightRadius := topRight,
                      bottomLeftRadius := bottomLeft, bottomRightRadius := bottomRight);
      UpdateStyleSheet();
    }
  }
}
