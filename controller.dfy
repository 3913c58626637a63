/** The presentation controller: the object that owns the sheet's logical position and
    drag direction, moves the presented view and the dimming view while a pan is in
    progress, and asks the animation engine for the resting geometry when it ends.
    Each method is proved to change the state exactly as the functions of PanPolicy say. */
module Controller {
  import opened Positions
  import opened PanPolicy

  class DraggablePresentationController {
    var position: Position
    var dragDirection: DragDirection
    /** The presenting area (the screen bounds); its origin is (0, 0). */
    const maxFrame: Container
    /** y of the presented view's frame origin. */
    var presentedOriginY: real
    /** Opacity of the dimming view. */
    var dimmingAlpha: real
    /** The last target handed to the animation engine. */
    var animation: Option<AnimationTarget>

    /** The fields of the controller, as one value. */
    ghost function State(): SheetState
      reads this
    {
      SheetState(position, dragDirection, presentedOriginY, dimmingAlpha, animation)
    }

    ghost predicate Valid()
      reads this
    {
      maxFrame.height > 0.0 && AnimationMatches(maxFrame, State())
    }

    /** A controller just laid out: middle, drag direction up, the presented view at
        middle's origin, no dimming and nothing animated yet. */
    constructor (screen: Container)
      requires screen.height > 0.0
      ensures Valid() && maxFrame == screen
      ensures position == Middle && dragDirection == Up
      ensures presentedOriginY == Middle.YOrigin(screen.height) && dimmingAlpha == 0.0
      ensures animation == None
    {
      maxFrame := screen;
      position := Middle;
      dragDirection := Up;
      presentedOriginY := Middle.YOrigin(screen.height);
      dimmingAlpha := 0.0;
      animation := None;
    }

    function FrameOfPresentedViewInContainerView(): Rect
      reads this
    {
      PresentedFrame(position, maxFrame)
    }

    /** The pan handler, called once per sample of the gesture. */
    method UserDidPan(translationY: real, velocityY: real, ended: bool)
      requires Valid()
      modifies this
      ensures Valid()
      ensures State() == PanStep(maxFrame, old(State()), PanSample(translationY, velocityY, ended))
      ensures !ended ==> position == old(position) && animation == old(animation)
    {
      ghost var before := State();
      ghost var sample := PanSample(translationY, velocityY, ended);
      ghost var live := DragUpdate(maxFrame, before, sample);
      var currentOriginY := position.YOrigin(maxFrame.height);
      var newOffset := currentOriginY + translationY;

      dragDirection := if newOffset > currentOriginY then Down else Up;

      var canDragInProposedDirection := if dragDirection == Up && position == Open then false else true;

      if canDragInProposedDirection {
        presentedOriginY := newOffset;
        var nextOriginY := position.NextPosition(dragDirection).YOrigin(maxFrame.height);
        var frameY := FrameOfPresentedViewInContainerView().y;
        var area := if dragDirection == Up then frameY - 0.0 else -(frameY - nextOriginY);
        if (newOffset != area && position == Open) || position.NextPosition(dragDirection) == Open {
          PreviewAreaPositive(maxFrame, position, dragDirection, newOffset);
          dimmingAlpha := PreviewAlpha(area, newOffset);
        }
      }

      assert State() == live;

      if ended {
        if velocityY < -1000.0 {
          AnimateTo(position.NextPosition(Up));
        } else if velocityY > 1000.0 {
          AnimateTo(position.NextPosition(Down));
        } else {
          Animate(newOffset);
        }
      }
    }

    /** The distance snap at the end of a slow gesture. */
    method Animate(dragOffset: real)
      requires Valid()
      modifies this
      ensures Valid()
      ensures State() == Commit(maxFrame, old(State()), DistanceSnap(maxFrame, old(dragDirection), dragOffset))
    {
      var distanceFromBottom := maxFrame.height - dragOffset;

      match dragDirection
      case Up =>
        if distanceFromBottom > maxFrame.height * Open.UpBoundary() {
          AnimateTo(Open);
          position := Open;
        } else if distanceFromBottom > maxFrame.height * Middle.UpBoundary() {
          AnimateTo(Middle);
          position := Middle;
        } else {
          AnimateTo(Collapsed);
          position := Collapsed;
        }
      case Down =>
        if distanceFromBottom > maxFrame.height * Open.DownBoundary() {
          AnimateTo(Open);
          position := Open;
        } else if distanceFromBottom > maxFrame.height * Middle.DownBoundary() {
          AnimateTo(Middle);
          position := Middle;
        } else {
          AnimateTo(Collapsed);
          position := Collapsed;
        }
    }

    /** Hand the target's resting origin and alpha to the animation engine and make the
        target the logical position. */
    method AnimateTo(target: Position)
      requires Valid()
      modifies this
      ensures Valid()
      ensures State() == Commit(maxFrame, old(State()), target)
      ensures position == target
      ensures animation == Some(AnimationTarget(target.YOrigin(maxFrame.height), target.DimAlpha()))
    {
      animation := Some(AnimationTarget(target.YOrigin(maxFrame.height), target.DimAlpha()));
      position := target;
    }
  }

  /** A fling up from the initial middle position opens the sheet; a slow drag down that
      leaves half of the height uncovered then settles it in middle again. */
  method FlingOpenThenDragToMiddle(screen: Container)
    requires screen.height > 0.0
  {
    var sheet := new DraggablePresentationController(screen);
    sheet.UserDidPan(-20.0, -1500.0, true);
    assert sheet.position == Open;
    assert sheet.animation == Some(AnimationTarget(Open.YOrigin(screen.height), 0.45));
    sheet.UserDidPan(0.4 * screen.height, 0.0, true);
    assert sheet.position == Middle;
    assert sheet.animation == Some(AnimationTarget(Middle.YOrigin(screen.height), 0.0));
  }
}
