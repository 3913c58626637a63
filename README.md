# Draggable bottom sheet: position policy and pan state machine

This project models the core of DraggableBottomSheet, an iOS presentation controller
that shows a sheet resting at one of three heights (`collapsed`, `middle`, `open`) over a
dimming view, follows the user's vertical pan, and at the end of the pan snaps to one
position, either by a fast fling (one step in the fling's direction) or by how far from
the bottom of the screen the sheet was released.

- `positions.dfy` (module `Positions`): the `DragDirection` and `DraggablePosition` enums
  as datatypes with their constant tables (height multiplier, down and up snap
  boundaries, dim alpha), the resting origin `yOrigin`, the one-step transition table
  `nextPostion` (`NextPosition` here), and the presented view's resting frame.
- `pan_policy.dfy` (module `PanPolicy`): the pan handler as a pure step function
  `PanStep` over a `SheetState` value (position, drag direction, presented origin y, dim
  alpha, last animation target), with the pieces it is made of (direction, drag guard,
  dim-preview span and formula, distance snap, velocity override, commit), a `Run` over
  a stream of pan samples, and the lemmas about both.
- `controller.dfy` (module `Controller`): the controller as a class whose fields the
  methods update in place, as the source does; `UserDidPan`, `Animate` and `AnimateTo` are
  each proved to leave the fields exactly as `PanStep` and `Commit` say, and to keep the
  invariant that the last animation target is the resting geometry of the current
  position.
  `FlingOpenThenDragToMiddle` at the end of the file is a worked example (a fling up
  from middle commits `open`, then a slow drag down commits `middle`) that exercises
  these contracts; it does not model a function of the source.

CGFloat arithmetic is modelled with Dafny's `real`: the constants (0.1, 0.48, 0.9, ...)
are exact and the computations use only `+ - * /`. The screen bounds become a
`Container(width, height)` with `height > 0`; its origin is (0, 0) as in the source.

Three points about the code's behaviour that are easy to misread:

- An upward gesture that starts at `open` does not always leave the sheet open. The
  velocity override at DraggableBottomSheet/DraggablePresentationController.swift lines
  144-147 ignores the drag direction, which only the distance snap at lines 158-182 uses;
  so a gesture that moved up but ends with a velocity above 1000 commits
  `nextPostion(open, down)`, i.e. `middle`. `OpenStaysOpenUnderUpwardDrag` states both halves.
- By Swift precedence the condition at line 136 is
  `(newOffset != area && position == .open) || next == .open`, and an open sheet pulled up
  never reaches it because of the drag guard at line 130. So the dim preview runs exactly
  for "up from middle" and for "down from open unless the new offset equals the span"
  (`DimPreview`).
- The live preview is not continuous with the resting alpha: dragging down from `open`
  starts at about 0.34 rather than 0.45 and becomes negative once the translation exceeds
  0.32 of the height (`PreviewByTranslation`). The model keeps the code's formula.

## Model

| member | source | states |
|---|---|---|
| Positions.Position.HeightMultiplier | DraggableBottomSheet/DraggablePresentationController.swift:21-30 | each resting height is a proper fraction of the container, strictly between 0 and 1 |
| Positions.Position.DownBoundary | DraggableBottomSheet/DraggablePresentationController.swift:32-38 | each down threshold is non-negative and below the position's own resting height, so a sheet released where it rests keeps clear of it |
| Positions.Position.UpBoundary | DraggableBottomSheet/DraggablePresentationController.swift:40-46 | each up threshold is non-negative and at most the position's down threshold |
| Positions.Position.DimAlpha | DraggableBottomSheet/DraggablePresentationController.swift:48-53 | the dim alpha is an opacity in [0, 1] and is positive exactly at `open` |
| Positions.Position.YOrigin | DraggableBottomSheet/DraggablePresentationController.swift:55-57 | the resting origin is H * (1 - heightmultiplier), and for a positive height it lies strictly inside the container (0 < y < H) |
| Positions.Position.NextPosition | DraggableBottomSheet/DraggablePresentationController.swift:59-68 | the transition table agrees with an independent rank definition: up moves one rank higher saturating at `open`, down one rank lower saturating at `collapsed` |
| Positions.PresentedFrame | DraggableBottomSheet/DraggablePresentationController.swift:89-94 | the resting frame has origin (0, yOrigin(H)) and size (W, H + 40); for H > 0 its top edge is inside the container and its bottom edge lies below the container's bottom |
| Positions.NextPositionTable | DraggableBottomSheet/DraggablePresentationController.swift:59-68 | all six entries of the table; `open`+up stays `open`, `collapsed`+down stays `collapsed` |
| Positions.NextPositionAdjacent | DraggableBottomSheet/DraggablePresentationController.swift:59-68 | up never leads lower, down never higher, no step skips a position, and the position is unchanged exactly at the two saturating entries |
| Positions.YOriginOrdered | DraggableBottomSheet/DraggablePresentationController.swift:21-57 | for H > 0 a higher rank has a strictly smaller origin and vice versa (open < middle < collapsed), and the rank order is the order of the height multipliers |
| Positions.BoundariesOrdered | DraggableBottomSheet/DraggablePresentationController.swift:32-46 | open's boundary exceeds middle's, which exceeds collapsed's, in each direction; every down boundary is at least the matching up boundary |
| PanPolicy.DirectionOf | DraggableBottomSheet/DraggablePresentationController.swift:128 | definition, no contract |
| PanPolicy.CanDrag | DraggableBottomSheet/DraggablePresentationController.swift:130 | definition, no contract |
| PanPolicy.PreviewArea | DraggableBottomSheet/DraggablePresentationController.swift:134-135 | for H > 0 the span is the resting origin when going up, zero exactly for collapsed going down, and positive in every other case |
| PanPolicy.PreviewApplies | DraggableBottomSheet/DraggablePresentationController.swift:136 | definition, no contract |
| PanPolicy.AnimationFor | DraggableBottomSheet/DraggablePresentationController.swift:189-192 | for H > 0 the requested origin lies inside the container; the requested alpha is in [0, 1] and positive exactly for `open` |
| PanPolicy.Commit | DraggableBottomSheet/DraggablePresentationController.swift:185-195 | the position becomes the target, an animation is always recorded and it is `Some` of the target's resting origin and alpha, and direction, live origin and live alpha are left to the animation engine |
| PanPolicy.DistanceSnap | DraggableBottomSheet/DraggablePresentationController.swift:154-183 | in either direction, a release at or above open's origin snaps open, at middle's origin middle, and at or below collapsed's origin collapsed |
| PanPolicy.EndTarget | DraggableBottomSheet/DraggablePresentationController.swift:143-151 | an upward fling moves at most one step up, a downward fling at most one step down, and a slow release where the sheet rests keeps its position |
| PanPolicy.DragUpdate | DraggableBottomSheet/DraggablePresentationController.swift:125-141 | the live part of a sample never changes the position nor the recorded animation |
| PanPolicy.PanStep | DraggableBottomSheet/DraggablePresentationController.swift:122-152 | a sample of an unfinished gesture keeps position and recorded animation; after a final sample an animation is recorded and it is `Some` of the new position's resting geometry |
| PanPolicy.Run | DraggableBottomSheet/DraggablePresentationController.swift:122-152 | definition, no contract |
| PanPolicy.PreviewAlpha | DraggableBottomSheet/DraggablePresentationController.swift:137-139 | the one-percent computation of the live alpha equals (area - newOffset) / area times open's alpha |
| PanPolicy.PreviewAreaPositive | DraggableBottomSheet/DraggablePresentationController.swift:134-139 | whenever the preview branch runs on a draggable move with H > 0 the span is positive, so the division is defined |
| PanPolicy.DirectionOfTranslation | DraggableBottomSheet/DraggablePresentationController.swift:125-128 | the drag direction is down exactly when the translation is positive; zero translation is up |
| PanPolicy.DragGuard | DraggableBottomSheet/DraggablePresentationController.swift:125-133 | an open sheet pulled up keeps its origin and dim alpha; in every other case the origin becomes the resting origin plus the translation |
| PanPolicy.DimPreview | DraggableBottomSheet/DraggablePresentationController.swift:134-140 | the dim alpha is recomputed exactly for up-from-middle and for down-from-open with newOffset != area, then equals (area - newOffset) / area * 0.45 with area > 0; otherwise it is unchanged |
| PanPolicy.PreviewByTranslation | DraggableBottomSheet/DraggablePresentationController.swift:134-139 | the preview in terms of the translation t: -t / 0.52H * 0.45 (non-negative) up from middle; (0.32H - t) / 0.42H * 0.45 down from open, below open's alpha and negative exactly when t > 0.32H |
| PanPolicy.OngoingKeepsPosition | DraggableBottomSheet/DraggablePresentationController.swift:143-151 | a sample of an unfinished gesture changes neither the position nor the recorded animation |
| PanPolicy.EndCommits | DraggableBottomSheet/DraggablePresentationController.swift:143-195 | at gesture end the position becomes the end target and the recorded animation is that target's resting origin and dim alpha |
| PanPolicy.VelocityOverride | DraggableBottomSheet/DraggablePresentationController.swift:143-147 | a fling below -1000 commits nextPostion(position, up), above 1000 nextPostion(position, down), independently of the translation, moving at most one step |
| PanPolicy.DistanceSnapMonotone | DraggableBottomSheet/DraggablePresentationController.swift:154-182 | a larger distance from the bottom never snaps to a lower position, and a down drag never snaps higher than an up drag at the same offset |
| PanPolicy.LongDragUpFromCollapsedOpens | DraggableBottomSheet/DraggablePresentationController.swift:156-169 | without a fling, releasing an upward drag from collapsed with more than 0.65H uncovered commits `open`, skipping `middle` |
| PanPolicy.DragDownFromOpenToMiddle | DraggableBottomSheet/DraggablePresentationController.swift:171-181 | without a fling, releasing a downward drag from open with between 0.35H and 0.8H uncovered commits `middle` |
| PanPolicy.OpenStaysOpenUnderUpwardDrag | DraggableBottomSheet/DraggablePresentationController.swift:128-162 | from open an upward sample leaves origin and alpha unchanged and the position open, except that a gesture ending with velocity above 1000 commits `middle` |
| PanPolicy.PanStepKeepsAnimationMatch | DraggableBottomSheet/DraggablePresentationController.swift:185-195 | every sample keeps the recorded animation target equal to the current position's resting origin and alpha |
| PanPolicy.RunAppend | DraggableBottomSheet/DraggablePresentationController.swift:122-152 | processing one more sample extends the processing of a stream by one step |
| PanPolicy.RunEndsInLastCommit | DraggableBottomSheet/DraggablePresentationController.swift:143-195 | after a stream whose final sample ends a gesture, the position is that sample's end target computed from the state the earlier samples left, and the recorded animation is its resting geometry |
| PanPolicy.RunWithoutEndKeepsPosition | DraggableBottomSheet/DraggablePresentationController.swift:143-151 | a stream of samples none of which ends the gesture leaves position and recorded animation unchanged |
| PanPolicy.RunOpenStaysOpen | DraggableBottomSheet/DraggablePresentationController.swift:128-162 | a stream of upward samples without a downward fling at its ends keeps an open sheet open, unmoved and with unchanged dim alpha |
| PanPolicy.RunKeepsAnimationMatch | DraggableBottomSheet/DraggablePresentationController.swift:185-195 | after any stream the recorded animation target is the resting geometry of the current position |
| Controller.DraggablePresentationController.constructor | DraggableBottomSheet/DraggablePresentationController.swift:81-83 | a new controller rests at middle with direction up, its view at middle's origin, no dimming and no animation |
| Controller.DraggablePresentationController.FrameOfPresentedViewInContainerView | DraggableBottomSheet/DraggablePresentationController.swift:89-94 | definition, no contract (it is `PresentedFrame` of the current position) |
| Controller.DraggablePresentationController.UserDidPan | DraggableBottomSheet/DraggablePresentationController.swift:122-152 | the new fields are exactly PanStep of the old ones (the live alpha is computed by `PreviewAlpha`, the one-percent formula of lines 137-139); an unfinished gesture keeps position and animation; the animation invariant is kept |
| Controller.DraggablePresentationController.Animate | DraggableBottomSheet/DraggablePresentationController.swift:154-183 | the new fields are the commit of the distance snap for the current drag direction and offset |
| Controller.DraggablePresentationController.AnimateTo | DraggableBottomSheet/DraggablePresentationController.swift:185-200 | the position becomes the target and the recorded animation is the target's resting origin and dim alpha; nothing else changes |

## Left out

- The presentation lifecycle (`presentationTransitionWillBegin`, `presentationTransitionDidEnd`, `containerViewWillLayoutSubviews`, lines 96-120): view insertion, colours, the gesture recognizer set-up and the layout pass are framework plumbing; the constructor starts from the state the first layout pass leaves (the view at middle's origin, alpha 0).
- The animation engine (`UIViewPropertyAnimator`, spring timing, 0.6 s duration, `isInterruptible`, `startAnimation`): `AnimateTo` records the requested target instead; the model therefore does not move the presented view or the dimming view to the target, which the engine does asynchronously.
- The `guard let animator` early return (line 187): the model assumes the animator exists, i.e. gestures arrive after the presentation transition has ended. Without it the fling path would not change `position`, while the distance-snap path still would (lines 162-180).
- `presentedView?` being nil: the model assumes the presented view exists.
- `UIScreen.main.bounds` (line 83): replaced by the constructor's `Container` parameter with positive height.
- IEEE floating-point behaviour of `CGFloat` (rounding, NaN, infinities): the model uses exact reals, so, for instance, a positive translation too small to change the sum is still a drag down here.
- DraggableBottomSheet/TouchForwardingView.swift: its hit-test forwarding depends on UIKit's own `hitTest` and `convert`, which are not part of this model.
- DraggableBottomSheet/DraggableTransitionAnimator.swift: transitioning-delegate glue that only constructs the controller.
