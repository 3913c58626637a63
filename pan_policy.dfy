/** What one pan-gesture sample does to the sheet, as functions of the state before it:
    the drag direction, the drag guard, the live origin and dim-alpha preview, the
    velocity override and the distance snap at the end of the gesture, and the commit
    that records the animation target. A gesture is a stream of such samples. */
module PanPolicy {
  import opened Positions

  datatype Option<T> = None | Some(value: T)

  /** What an "animate to position" request asks the animation engine for. */
  datatype AnimationTarget = AnimationTarget(originY: real, alpha: real)

  /** One call of the pan handler: the translation since the gesture began, the
      current velocity (both vertical, positive downwards) and whether the gesture
      has ended. */
  datatype PanSample = PanSample(translationY: real, velocityY: real, ended: bool)

  /** Everything the pan handler reads or writes: the logical position, the last drag
      direction, the live origin of the presented view, the alpha of the dimming
      view, and the last animation requested. */
  datatype SheetState = SheetState(
    position: Position,
    direction: DragDirection,
    originY: real,
    dimAlpha: real,
    animation: Option<AnimationTarget>)

  /** A fling faster than this (points per second) overrides the distance snap. */
  const FlingVelocity: real := 1000.0

  /** A move to a larger y is a drag down; no move at all counts as up. */
  function DirectionOf(currentOriginY: real, newOffset: real): DragDirection {
    if newOffset > currentOriginY then Down else Up
  }

  /** The sheet follows the finger except when it is open and pulled further up. */
  predicate CanDrag(p: Position, d: DragDirection) {
    !(d == Up && p == Open)
  }

  /** The span used by the dim preview. Going up it is the resting origin measured
      from the container's top edge (the container's origin y is 0); going down it is
      the distance from the resting origin down to the next position's origin. */
  function PreviewArea(c: Container, p: Position, d: DragDirection): (area: real)
    ensures c.height > 0.0 && d == Up ==> area == p.YOrigin(c.height) > 0.0
    ensures c.height > 0.0 ==> (area == 0.0 <==> d == Down && p == Collapsed)
    ensures c.height > 0.0 && !(d == Down && p == Collapsed) ==> area > 0.0
  {
    var frameY := PresentedFrame(p, c).y;
    if d == Up then frameY - 0.0 else -(frameY - p.NextPosition(d).YOrigin(c.height))
  }

  /** When the dim alpha follows the drag: the sheet is open (and the new offset is not
      exactly the span), or the drag heads towards open. */
  predicate PreviewApplies(p: Position, d: DragDirection, newOffset: real, area: real) {
    (newOffset != area && p == Open) || p.NextPosition(d) == Open
  }

  /** The live dim alpha, computed through a one-percent step as the handler does;
      it is the fraction (area - newOffset) / area of the open position's alpha. */
  function PreviewAlpha(area: real, newOffset: real): (alpha: real)
    requires area != 0.0
    ensures alpha == (area - newOffset) / area * Open.DimAlpha()
  {
    var onePercent := area / 100.0;
    var percentage := (area - newOffset) / onePercent / 100.0;
    percentage * Open.DimAlpha()
  }

  /** The geometry the animation engine is asked to reach for position p. */
  function AnimationFor(c: Container, p: Position): (a: AnimationTarget)
    ensures c.height > 0.0 ==> 0.0 < a.originY < c.height
    ensures 0.0 <= a.alpha <= 1.0 && (a.alpha > 0.0 <==> p == Open)
  {
    AnimationTarget(p.YOrigin(c.height), p.DimAlpha())
  }

  /** "Animate to position": request the target's resting geometry and make the target
      the logical position at once, without waiting for the animation. */
  function Commit(c: Container, s: SheetState, target: Position): (r: SheetState)
    ensures r.position == target && r.animation == Some(AnimationFor(c, target))
    ensures AnimationMatches(c, r)
    ensures r.direction == s.direction && r.originY == s.originY && r.dimAlpha == s.dimAlpha
  {
    s.(position := target, animation := Some(AnimationFor(c, target)))
  }

  /** The distance snap: measured from the container's bottom edge, the drag offset
      picks the highest position whose boundary it exceeds, with the up or the down
      boundaries according to the drag direction. In either direction, a release at or
      above open's origin snaps open, at middle's origin middle, and at or below
      collapsed's origin collapsed. */
  function DistanceSnap(c: Container, d: DragDirection, dragOffset: real): (r: Position)
    ensures c.height > 0.0 && dragOffset <= Open.YOrigin(c.height) ==> r == Open
    ensures c.height > 0.0 && dragOffset == Middle.YOrigin(c.height) ==> r == Middle
    ensures c.height > 0.0 && dragOffset >= Collapsed.YOrigin(c.height) ==> r == Collapsed
  {
    var distanceFromBottom := c.height - dragOffset;
    match d
    case Up =>
      if distanceFromBottom > c.height * Open.UpBoundary() then Open
      else if distanceFromBottom > c.height * Middle.UpBoundary() then Middle
      else Collapsed
    case Down =>
      if distanceFromBottom > c.height * Open.DownBoundary() then Open
      else if distanceFromBottom > c.height * Middle.DownBoundary() then Middle
      else Collapsed
  }

  /** The position committed when the gesture ends: a fast fling moves one step in its
      own direction whatever the offset; otherwise the distance snap decides, and a
      sheet released where it rests stays there. */
  function EndTarget(c: Container, p: Position, d: DragDirection, newOffset: real, velocityY: real): (r: Position)
    ensures velocityY < -FlingVelocity ==> Rank(p) <= Rank(r) <= Rank(p) + 1
    ensures velocityY > FlingVelocity ==> Rank(p) - 1 <= Rank(r) <= Rank(p)
    ensures (c.height > 0.0 && -FlingVelocity <= velocityY <= FlingVelocity
             && newOffset == p.YOrigin(c.height)) ==> r == p
  {
    if velocityY < -FlingVelocity then p.NextPosition(Up)
    else if velocityY > FlingVelocity then p.NextPosition(Down)
    else DistanceSnap(c, d, newOffset)
  }

  /** Whenever the preview runs on a draggable move in a container of positive height,
      its span is positive, so the division in the preview is defined. */
  lemma PreviewAreaPositive(c: Container, p: Position, d: DragDirection, newOffset: real)
    requires c.height > 0.0
    requires CanDrag(p, d) && PreviewApplies(p, d, newOffset, PreviewArea(c, p, d))
    ensures PreviewArea(c, p, d) > 0.0
  {
  }

  /** The live part of one call of the pan handler: record the direction and, unless the
      guard blocks the drag, move the presented view and update the dim preview. */
  function DragUpdate(c: Container, s: SheetState, sample: PanSample): (r: SheetState)
    requires c.height > 0.0
    ensures r.position == s.position && r.animation == s.animation
  {
    var currentOriginY := s.position.YOrigin(c.height);
    var newOffset := currentOriginY + sample.translationY;
    var d := DirectionOf(currentOriginY, newOffset);
    if CanDrag(s.position, d) then
      var area := PreviewArea(c, s.position, d);
      var alpha :=
        if PreviewApplies(s.position, d, newOffset, area) then
          PreviewAreaPositive(c, s.position, d, newOffset);
          PreviewAlpha(area, newOffset)
        else s.dimAlpha;
      s.(direction := d, originY := newOffset, dimAlpha := alpha)
    else
      s.(direction := d)
  }

  /** One call of the pan handler: the live update, then, if the gesture has ended, the
      commit to the end target. */
  function PanStep(c: Container, s: SheetState, sample: PanSample): (r: SheetState)
    requires c.height > 0.0
    ensures !sample.ended ==> r.position == s.position && r.animation == s.animation
    ensures sample.ended ==> r.animation == Some(AnimationFor(c, r.position))
    ensures sample.ended ==> AnimationMatches(c, r)
  {
    var live := DragUpdate(c, s, sample);
    if sample.ended then
      var newOffset := s.position.YOrigin(c.height) + sample.translationY;
      Commit(c, live, EndTarget(c, live.position, live.direction, newOffset, sample.velocityY))
    else live
  }

  /** The pan handler applied to a stream of samples, in order. */
  function Run(c: Container, s: SheetState, samples: seq<PanSample>): SheetState
    requires c.height > 0.0
    decreases |samples|
  {
    if samples == [] then s else Run(c, PanStep(c, s, samples[0]), samples[1..])
  }

  /** The recorded animation, if any, is the resting geometry of the current position. */
  predicate AnimationMatches(c: Container, s: SheetState) {
    s.animation.Some? ==> s.animation.value == AnimationFor(c, s.position)
  }

  // ---------------------------------------------------------------------------------
  // Properties of a single sample

  /** The direction is down exactly when the translation is positive. */
  lemma DirectionOfTranslation(c: Container, s: SheetState, sample: PanSample)
    requires c.height > 0.0
    ensures PanStep(c, s, sample).direction == Down <==> sample.translationY > 0.0
  {
  }

  /** The drag guard: an open sheet pulled up (or not moved) keeps its origin and its dim
      alpha; in every other case the sheet's origin follows the translation. */
  lemma DragGuard(c: Container, s: SheetState, sample: PanSample)
    requires c.height > 0.0
    ensures var r := PanStep(c, s, sample);
      if s.position == Open && sample.translationY <= 0.0 then
        r.originY == s.originY && r.dimAlpha == s.dimAlpha
      else
        r.originY == s.position.YOrigin(c.height) + sample.translationY
  {
  }

  /** The dim preview is recomputed exactly for a move up from middle, or a move down
      from open that does not land on the span itself; then its value is the fraction
      (area - newOffset) / area of open's alpha with a positive span. Otherwise the
      alpha is left as it was. */
  lemma DimPreview(c: Container, s: SheetState, sample: PanSample)
    requires c.height > 0.0
    ensures var o := s.position.YOrigin(c.height);
      var newOffset := o + sample.translationY;
      var d := DirectionOf(o, newOffset);
      var area := PreviewArea(c, s.position, d);
      var recomputed := (s.position == Middle && sample.translationY <= 0.0)
        || (s.position == Open && sample.translationY > 0.0 && newOffset != area);
      (recomputed ==> area > 0.0 && PanStep(c, s, sample).dimAlpha == (area - newOffset) / area * Open.DimAlpha())
      && (!recomputed ==> PanStep(c, s, sample).dimAlpha == s.dimAlpha)
  {
  }

  /** The preview in terms of the translation alone: pulling up from middle dims in
      proportion to the distance pulled, measured against middle's origin; pulling down
      from open starts below open's own alpha and falls below zero once the translation
      exceeds 0.32 of the height. */
  lemma PreviewByTranslation(c: Container, s: SheetState, sample: PanSample)
    requires c.height > 0.0
    ensures var H, t, a := c.height, sample.translationY, PanStep(c, s, sample).dimAlpha;
      (s.position == Middle && t <= 0.0 ==> a == -t / (0.52 * H) * 0.45 && a >= 0.0)
      && (s.position == Open && t > 0.0 && t != 0.32 * H ==>
            a == (0.32 * H - t) / (0.42 * H) * 0.45 && a < Open.DimAlpha()
            && (a < 0.0 <==> t > 0.32 * H))
  {
    var H, t := c.height, sample.translationY;
    if s.position == Middle && t <= 0.0 {
      DimPreview(c, s, sample);
      assert Middle.YOrigin(H) == 0.52 * H;
      assert PreviewArea(c, Middle, Up) == 0.52 * H;
    } else if s.position == Open && t > 0.0 && t != 0.32 * H {
      DimPreview(c, s, sample);
      assert PreviewArea(c, Open, Down) == 0.42 * H;
      QuotientBounds(0.32 * H - t, 0.42 * H);
    }
  }

  /** Sign and size of a quotient by a positive divisor. */
  lemma QuotientBounds(n: real, d: real)
    requires d > 0.0
    ensures n < d ==> n / d < 1.0
    ensures n / d < 0.0 <==> n < 0.0
  {
  }

  /** A sample of an unfinished gesture never changes the logical position nor the
      recorded animation. */
  lemma OngoingKeepsPosition(c: Container, s: SheetState, sample: PanSample)
    requires c.height > 0.0 && !sample.ended
    ensures PanStep(c, s, sample).position == s.position
    ensures PanStep(c, s, sample).animation == s.animation
  {
  }

  /** At the end of a gesture the controller commits to the end target: the new position
      is the target and the recorded animation is the target's resting origin and alpha. */
  lemma EndCommits(c: Container, s: SheetState, sample: PanSample)
    requires c.height > 0.0 && sample.ended
    ensures var o := s.position.YOrigin(c.height);
      var target := EndTarget(c, s.position, DirectionOf(o, o + sample.translationY),
                              o + sample.translationY, sample.velocityY);
      var r := PanStep(c, s, sample);
      r.position == target
      && r.animation == Some(AnimationTarget(target.YOrigin(c.height), target.DimAlpha()))
  {
  }

  /** A fast fling commits the next position in the fling's direction, whatever the
      translation; it moves at most one step. */
  lemma VelocityOverride(c: Container, s: SheetState, t1: real, t2: real, v: real)
    requires c.height > 0.0
    requires v < -FlingVelocity || v > FlingVelocity
    ensures var r1 := PanStep(c, s, PanSample(t1, v, true));
      var r2 := PanStep(c, s, PanSample(t2, v, true));
      r1.position == r2.position
      && (v < -FlingVelocity ==> r1.position == s.position.NextPosition(Up))
      && (v > FlingVelocity ==> r1.position == s.position.NextPosition(Down))
      && -1 <= Rank(r1.position) - Rank(s.position) <= 1
  {
  }

  /** The distance snap is monotone: a higher offset (nearer the bottom) never yields a
      higher position, and for the same offset a downward drag never snaps higher than an
      upward one. */
  lemma DistanceSnapMonotone(c: Container, d: DragDirection, offset1: real, offset2: real)
    requires c.height > 0.0
    ensures offset2 <= offset1 ==> Rank(DistanceSnap(c, d, offset1)) <= Rank(DistanceSnap(c, d, offset2))
    ensures Rank(DistanceSnap(c, Down, offset1)) <= Rank(DistanceSnap(c, Up, offset1))
  {
  }

  /** The distance snap can skip a position, unlike a fling: from collapsed, pulling up
      until more than 0.65 of the height is uncovered opens the sheet. */
  lemma LongDragUpFromCollapsedOpens(c: Container, s: SheetState, t: real, v: real)
    requires c.height > 0.0 && s.position == Collapsed
    requires -FlingVelocity <= v <= FlingVelocity
    requires c.height - (Collapsed.YOrigin(c.height) + t) > 0.65 * c.height
    ensures PanStep(c, s, PanSample(t, v, true)).position == Open
  {
  }

  /** From open, dragging down without a fling so that between 0.35 and 0.8 of the height
      stays uncovered settles in middle, not collapsed. */
  lemma DragDownFromOpenToMiddle(c: Container, s: SheetState, t: real, v: real)
    requires c.height > 0.0 && s.position == Open && t > 0.0
    requires -FlingVelocity <= v <= FlingVelocity
    requires 0.35 * c.height < c.height - (Open.YOrigin(c.height) + t) <= 0.8 * c.height
    ensures PanStep(c, s, PanSample(t, v, true)).position == Middle
  {
  }

  /** Open is sticky under an upward gesture: the sheet does not move and, unless the
      gesture ends with a downward fling, stays open; a downward fling still moves it to
      middle, because the velocity override ignores the drag direction. */
  lemma OpenStaysOpenUnderUpwardDrag(c: Container, s: SheetState, sample: PanSample)
    requires c.height > 0.0 && s.position == Open && sample.translationY <= 0.0
    ensures var r := PanStep(c, s, sample);
      r.originY == s.originY && r.dimAlpha == s.dimAlpha
      && (!sample.ended || sample.velocityY <= FlingVelocity ==> r.position == Open)
      && (sample.ended && sample.velocityY > FlingVelocity ==> r.position == Middle)
  {
  }

  /** Every sample keeps the recorded animation in step with the logical position. */
  lemma PanStepKeepsAnimationMatch(c: Container, s: SheetState, sample: PanSample)
    requires c.height > 0.0 && AnimationMatches(c, s)
    ensures AnimationMatches(c, PanStep(c, s, sample))
  {
  }

  // ---------------------------------------------------------------------------------
  // Properties of a stream of samples

  /** Feeding one more sample extends the run by one step. */
  lemma {:induction false} RunAppend(c: Container, s: SheetState, samples: seq<PanSample>, last: PanSample)
    requires c.height > 0.0
    ensures Run(c, s, samples + [last]) == PanStep(c, Run(c, s, samples), last)
    decreases |samples|
  {
    if samples == [] {
      assert samples + [last] == [last];
    } else {
      assert (samples + [last])[1..] == samples[1..] + [last];
      RunAppend(c, PanStep(c, s, samples[0]), samples[1..], last);
    }
  }

  /** The last commit wins: after a stream whose final sample ends a gesture, the position
      is that sample's end target, taken from the state the earlier samples left, and the
      recorded animation is that target's resting geometry. */
  lemma RunEndsInLastCommit(c: Container, s: SheetState, samples: seq<PanSample>, last: PanSample)
    requires c.height > 0.0 && last.ended
    ensures var before := Run(c, s, samples);
      var o := before.position.YOrigin(c.height);
      var newOffset := o + last.translationY;
      var r := Run(c, s, samples + [last]);
      r.position == EndTarget(c, before.position, DirectionOf(o, newOffset), newOffset, last.velocityY)
      && r.animation == Some(AnimationFor(c, r.position))
  {
    RunAppend(c, s, samples, last);
  }

  /** While no sample ends the gesture, the position and the recorded animation stay as
      they were. */
  lemma {:induction false} RunWithoutEndKeepsPosition(c: Container, s: SheetState, samples: seq<PanSample>)
    requires c.height > 0.0
    requires forall i :: 0 <= i < |samples| ==> !samples[i].ended
    ensures Run(c, s, samples).position == s.position
    ensures Run(c, s, samples).animation == s.animation
    decreases |samples|
  {
    if samples != [] {
      OngoingKeepsPosition(c, s, samples[0]);
      RunWithoutEndKeepsPosition(c, PanStep(c, s, samples[0]), samples[1..]);
    }
  }

  /** A stream of samples that all pull up, and end (if at all) without a downward fling,
      leaves an open sheet open, with its origin and dim alpha untouched. */
  lemma {:induction false} RunOpenStaysOpen(c: Container, s: SheetState, samples: seq<PanSample>)
    requires c.height > 0.0 && s.position == Open
    requires forall i :: 0 <= i < |samples| ==>
      samples[i].translationY <= 0.0 && (samples[i].ended ==> samples[i].velocityY <= FlingVelocity)
    ensures Run(c, s, samples).position == Open
    ensures Run(c, s, samples).originY == s.originY && Run(c, s, samples).dimAlpha == s.dimAlpha
    decreases |samples|
  {
    if samples != [] {
      OpenStaysOpenUnderUpwardDrag(c, s, samples[0]);
      RunOpenStaysOpen(c, PanStep(c, s, samples[0]), samples[1..]);
    }
  }

  /** The recorded animation matches the position after any stream of samples. */
  lemma {:induction false} RunKeepsAnimationMatch(c: Container, s: SheetState, samples: seq<PanSample>)
    requires c.height > 0.0 && AnimationMatches(c, s)
    ensures AnimationMatches(c, Run(c, s, samples))
    decreases |samples|
  {
    if samples != [] {
      PanStepKeepsAnimationMatch(c, s, samples[0]);
      RunKeepsAnimationMatch(c, PanStep(c, s, samples[0]), samples[1..]);
    }
  }
}
