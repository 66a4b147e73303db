/** ToolTip: a delayed hover tooltip attached to a target widget (ToolTip.cpp).
    Its timer, its 150ms delayed checks and its fade animations appear as flags
    and counters; the geometry of the target, the tooltip's size hint and the
    screen are parameters. */
module ToolTips {
  import opened Wrappers
  import opened Geometry

  /** The position above the target, centred, 3px apart. */
  function AboveCandidate(target: Rect, s: Size): Point {
    Point(CenterX(target) - TruncDiv(s.w, 2), Top(target) - s.h - 3)
  }

  /** The position below the target, centred, 3px apart. */
  function BelowCandidate(target: Rect, s: Size): Point {
    Point(CenterX(target) - TruncDiv(s.w, 2), Bottom(target) + 3)
  }

  /** The position left of the target, level with its centre, 3px apart. */
  function LeftCandidate(target: Rect, s: Size): Point {
    Point(Left(target) - s.w - 3, CenterY(target) - TruncDiv(s.h, 2))
  }

  /** The position right of the target, level with its centre, 3px apart. */
  function RightCandidate(target: Rect, s: Size): Point {
    Point(Right(target) + 3, CenterY(target) - TruncDiv(s.h, 2))
  }

  /** The candidates of position() in the order it tries them. */
  function Candidates(target: Rect, s: Size): seq<Point> {
    [AboveCandidate(target, s), BelowCandidate(target, s), LeftCandidate(target, s), RightCandidate(target, s)]
  }

  /** A candidate that lies on the screen with a pixel to spare on the right and
      at the bottom, which the clamp then leaves where it is. */
  predicate Roomy(screen: Rect, p: Point, s: Size) {
    Fits(screen, p, s) && Right(RectAt(p, s)) < Right(screen) && Bottom(RectAt(p, s)) < Bottom(screen)
  }

  /** position(): the first of above, below, left and right that the screen
      contains, else below; then clamped into [left, right - w] x [top, bottom - h]. */
  function TooltipPosition(target: Rect, s: Size, screen: Rect): (r: Point)
    requires CanClamp(s, screen)
    ensures Left(screen) <= r.x <= Right(screen) - s.w && Top(screen) <= r.y <= Bottom(screen) - s.h
    ensures forall k :: 0 <= k < 4 && Fits(screen, Candidates(target, s)[k], s)
                        && (forall j :: 0 <= j < k ==> !Fits(screen, Candidates(target, s)[j], s))
                        ==> r == ClampToScreen(Candidates(target, s)[k], s, screen)
    ensures (forall j :: 0 <= j < 4 ==> !Fits(screen, Candidates(target, s)[j], s))
            ==> r == ClampToScreen(BelowCandidate(target, s), s, screen)
  {
    Place(Candidates(target, s), BelowCandidate(target, s), s, screen)
  }

  /** The above position wins whenever it has room; the ordering of the others
      only matters when it does not fit. */
  lemma AboveComesFirst(target: Rect, s: Size, screen: Rect)
    requires CanClamp(s, screen)
    requires Roomy(screen, AboveCandidate(target, s), s)
    ensures TooltipPosition(target, s, screen) == AboveCandidate(target, s)
  {
    assert Candidates(target, s)[0] == AboveCandidate(target, s);
  }

  /** The right position is used only when none of the other three fit. */
  lemma RightComesLast(target: Rect, s: Size, screen: Rect)
    requires CanClamp(s, screen)
    requires !Fits(screen, AboveCandidate(target, s), s) && !Fits(screen, BelowCandidate(target, s), s)
    requires !Fits(screen, LeftCandidate(target, s), s)
    requires Roomy(screen, RightCandidate(target, s), s)
    ensures TooltipPosition(target, s, screen) == RightCandidate(target, s)
  {
    var c := Candidates(target, s);
    assert c[0] == AboveCandidate(target, s) && c[1] == BelowCandidate(target, s);
    assert c[2] == LeftCandidate(target, s) && c[3] == RightCandidate(target, s);
    assert forall j :: 0 <= j < 3 ==> !Fits(screen, c[j], s);
  }

  /** The objects whose events the tooltip filters: a widget (the target or any
      other) or the tooltip's own box. */
  datatype ObjectRef = Widget(id: nat) | TooltipBox

  datatype EventType =
    | Enter | Leave | MouseButtonPress | MouseButtonDblClick | Wheel | FocusIn | Destroy | Hide
    | ApplicationStateChange | OtherEvent

  /** The target events that stop the timer and schedule the 150ms check. */
  predicate StopsTimer(e: EventType) {
    e in {Leave, MouseButtonPress, MouseButtonDblClick, Wheel, FocusIn, Destroy, Hide}
  }

  class ToolTip {
    /** The target widget, None for a null pointer. */
    var target: Option<nat>
    /** Whether the 2000ms single-shot timer is running. */
    var timerActive: bool
    var isHovering: bool
    var isDarkMode: bool
    /** The theme the tooltip box was last given by onThemeModeChanged. */
    var boxDarkMode: bool
    /** The values themeModeChanged has been emitted with, in order. */
    var themeSignals: seq<bool>
    var boxText: string
    /** Whether the tooltip box is shown (the fade-out's hide is taken as done). */
    var visible: bool
    var pos: Point
    /** The 150ms checks scheduled by target events and by leaving the box. */
    var pendingTargetChecks: nat
    var pendingBoxChecks: nat

    /** Only a tooltip with a target runs its timer. */
    ghost predicate Valid()
      reads this
    {
      timerActive ==> target.Some?
    }

    /** The constructor: a hidden box, the timer stopped. The initial theme is a
        parameter, as the declaration of isDarkMode is not part of this model. */
    constructor(target: Option<nat>, darkMode: bool, initialPos: Point)
      ensures Valid()
      ensures this.target == target && !timerActive && !isHovering && !visible
      ensures isDarkMode == darkMode && boxDarkMode == darkMode && themeSignals == []
      ensures pendingTargetChecks == 0 && pendingBoxChecks == 0
    {
      this.target := target;
      timerActive := false;
      isHovering := false;
      isDarkMode := darkMode;
      boxDarkMode := darkMode;
      themeSignals := [];
      boxText := "";
      visible := false;
      pos := initialPos;
      pendingTargetChecks := 0;
      pendingBoxChecks := 0;
    }

    /** fadeOutAnimation, at the end of which the box hides. */
    method FadeOut()
      modifies this`visible
      ensures !visible
    {
      visible := false;
    }

    /** eventFilter: starts or stops the timer for events on the target, tracks
        the pointer over the box, and fades out when the application state
        changes. It never consumes an event. */
    method EventFilter(obj: ObjectRef, ev: EventType) returns (consumed: bool)
      requires Valid()
      modifies this`timerActive, this`isHovering, this`visible, this`pendingTargetChecks, this`pendingBoxChecks
      ensures Valid()
      ensures !consumed
      ensures ev == ApplicationStateChange ==> !timerActive && !visible
      ensures ev != ApplicationStateChange ==> visible == old(visible)
      ensures obj.Widget? && target == Some(obj.id) && ev == Enter ==> timerActive
      ensures obj.Widget? && target == Some(obj.id) && StopsTimer(ev) ==>
                !timerActive && pendingTargetChecks == old(pendingTargetChecks) + 1
      ensures !(obj.Widget? && target == Some(obj.id) && StopsTimer(ev)) ==>
                pendingTargetChecks == old(pendingTargetChecks)
      ensures (!(obj.Widget? && target == Some(obj.id) && (ev == Enter || StopsTimer(ev)))
               && ev != ApplicationStateChange) ==> timerActive == old(timerActive)
      ensures obj == TooltipBox && ev == Enter ==> isHovering
      ensures obj == TooltipBox && ev == Leave ==> !isHovering && pendingBoxChecks == old(pendingBoxChecks) + 1
      ensures !(obj == TooltipBox && (ev == Enter || ev == Leave)) ==> isHovering == old(isHovering)
      ensures !(obj == TooltipBox && ev == Leave) ==> pendingBoxChecks == old(pendingBoxChecks)
    {
      if obj.Widget? && target == Some(obj.id) {
        if ev == Enter {
          timerActive := true;
        } else if StopsTimer(ev) {
          timerActive := false;
          pendingTargetChecks := pendingTargetChecks + 1;
        }
      }
      if obj == TooltipBox {
        if ev == Enter {
          isHovering := true;
        } else if ev == Leave {
          isHovering := false;
          pendingBoxChecks := pendingBoxChecks + 1;
        }
      }
      if ev == ApplicationStateChange {
        timerActive := false;
        FadeOut();
      }
      consumed := false;
    }

    /** A 150ms check scheduled by a target event runs: the box fades out unless
        the pointer is over it. */
    method TargetCheckFires()
      requires pendingTargetChecks > 0
      modifies this`visible, this`pendingTargetChecks
      ensures pendingTargetChecks == old(pendingTargetChecks) - 1
      ensures !isHovering ==> !visible
      ensures isHovering ==> visible == old(visible)
    {
      pendingTargetChecks := pendingTargetChecks - 1;
      if !isHovering {
        FadeOut();
      }
    }

    /** A 150ms check scheduled by leaving the box runs, as written: it asks the
        target whether the pointer is over it (underMouse is the toolkit's) and
        fades the box out when it is not. Asking needs a target: with a null
        target the check dereferences a null pointer. */
    method BoxCheckFiresAsWritten(targetUnderMouse: bool)
      requires pendingBoxChecks > 0
      requires target.Some?
      modifies this`visible, this`pendingBoxChecks
      ensures pendingBoxChecks == old(pendingBoxChecks) - 1
      ensures !targetUnderMouse ==> !visible
      ensures targetUnderMouse ==> visible == old(visible)
    {
      pendingBoxChecks := pendingBoxChecks - 1;
      if !targetUnderMouse {
        FadeOut();
      }
    }

    /** The same check with the target tested first: it runs in every state with
        a pending check, does what the code as written does whenever there is a
        target, and leaves the box alone when the target was cleared (which
        already hid it). */
    method BoxCheckFires(targetUnderMouse: bool)
      requires pendingBoxChecks > 0
      modifies this`visible, this`pendingBoxChecks
      ensures pendingBoxChecks == old(pendingBoxChecks) - 1
      ensures target.Some? && !targetUnderMouse ==> !visible
      ensures target.None? || targetUnderMouse ==> visible == old(visible)
    {
      pendingBoxChecks := pendingBoxChecks - 1;
      if target.Some? && !targetUnderMouse {
        FadeOut();
      }
    }

    /** onTimeout: the timer has run out; the box is placed around the target and
        faded in. The target's global rectangle, the box's size hint and the
        screen are the toolkit's. */
    method OnTimeout(targetRect: Rect, boxSize: Size, screen: Rect)
      requires Valid() && timerActive
      requires CanClamp(boxSize, screen)
      modifies this`timerActive, this`pos, this`visible
      ensures Valid()
      ensures !timerActive && visible
      ensures pos == TooltipPosition(targetRect, boxSize, screen)
    {
      timerActive := false;
      pos := TooltipPosition(targetRect, boxSize, screen);
      visible := true;
    }

    /** setDarkMode: nothing for the current theme; a new theme is stored and
        themeModeChanged is emitted once, which hands it to the box. */
    method SetDarkMode(enable: bool)
      modifies this`isDarkMode, this`themeSignals, this`boxDarkMode
      ensures isDarkMode == enable
      ensures enable == old(isDarkMode) ==> themeSignals == old(themeSignals) && boxDarkMode == old(boxDarkMode)
      ensures enable != old(isDarkMode) ==> themeSignals == old(themeSignals) + [enable] && boxDarkMode == enable
    {
      if isDarkMode == enable {
        return;
      }
      isDarkMode := enable;
      themeSignals := themeSignals + [isDarkMode];
      boxDarkMode := isDarkMode;
    }

    /** setText emits textEntered, which hands the text to the box. */
    method SetText(text: string)
      modifies this`boxText
      ensures boxText == text
    {
      boxText := text;
    }

    /** setTargetWidget: a null target stops the timer and hides the box; any
        target is stored. */
    method SetTargetWidget(newTarget: Option<nat>)
      requires Valid()
      modifies this`target, this`timerActive, this`visible
      ensures Valid()
      ensures target == newTarget
      ensures newTarget.None? ==> !timerActive && !visible
      ensures newTarget.Some? ==> timerActive == old(timerActive) && visible == old(visible)
    {
      target := newTarget;
      if newTarget.None? {
        timerActive := false;
        visible := false;
        return;
      }
    }
  }

  /** The pointer rests on the target until the tooltip shows, moves onto the box
      and leaves it, which schedules a box check; clearing the target within the
      next 150ms leaves that check pending with no target, the state in which the
      check as written dereferences a null pointer. */
  method NullTargetUnderPendingCheck() returns (t: ToolTip)
    ensures t.pendingBoxChecks > 0 && t.target.None?
  {
    var screen := Rect(0, 0, 1920, 1080);
    t := new ToolTip(Some(0), false, Point(0, 0));
    var consumed := t.EventFilter(Widget(0), Enter);
    t.OnTimeout(Rect(100, 100, 80, 30), Size(120, 28), screen);
    consumed := t.EventFilter(Widget(0), Leave);
    consumed := t.EventFilter(TooltipBox, Enter);
    consumed := t.EventFilter(TooltipBox, Leave);
    t.SetTargetWidget(None);
  }
}
