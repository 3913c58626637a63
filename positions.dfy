/** The resting positions of the bottom sheet and the fixed tables attached to them:
    how much of the container each position covers, the snap thresholds, the dim
    alpha, the origin each position maps to, and the one-step transition table. */
module Positions {

  /** The direction of a drag, recomputed from every pan sample. */
  datatype DragDirection = Up | Down

  /** The three places the sheet can rest. */
  datatype Position = Collapsed | Open | Middle {

    /** Fraction of the container height the sheet covers when resting here. */
    function HeightMultiplier(): (m: real)
      ensures 0.0 < m < 1.0
    {
      match this
      case Collapsed => 0.1
      case Middle => 0.48
      case Open => 0.9
    }

    /** Snap threshold (fraction of the height) used when the drag goes down; it lies
        below the resting height, so a sheet released where it rests keeps clear of it. */
    function DownBoundary(): (b: real)
      ensures 0.0 <= b < HeightMultiplier()
    {
      match this
      case Collapsed => 0.0
      case Middle => 0.35
      case Open => 0.8
    }

    /** Snap threshold (fraction of the height) used when the drag goes up; never above
        the down threshold of the same position. */
    function UpBoundary(): (b: real)
      ensures 0.0 <= b <= DownBoundary()
    {
      match this
      case Collapsed => 0.0
      case Middle => 0.27
      case Open => 0.65
    }

    /** Opacity of the dimming overlay when the sheet rests here. */
    function DimAlpha(): (a: real)
      ensures 0.0 <= a <= 1.0
      ensures a > 0.0 <==> this == Open
    {
      match this
      case Collapsed => 0.0
      case Middle => 0.0
      case Open => 0.45
    }

    /** Top edge of the sheet when resting here, in a container of height maxHeight. */
    function YOrigin(maxHeight: real): (y: real)
      ensures maxHeight > 0.0 ==> 0.0 < y < maxHeight
      ensures y == maxHeight * (1.0 - HeightMultiplier())
    {
      maxHeight - maxHeight * HeightMultiplier()
    }

    /** The position a drag in direction d leads to: one step up or down, saturating
        at the two ends. */
    function NextPosition(d: DragDirection): (r: Position)
      ensures d == Up ==> Rank(r) == if Rank(this) == 2 then 2 else Rank(this) + 1
      ensures d == Down ==> Rank(r) == if Rank(this) == 0 then 0 else Rank(this) - 1
    {
      match (this, d)
      case (Collapsed, Up) => Middle
      case (Collapsed, Down) => Collapsed
      case (Middle, Up) => Open
      case (Middle, Down) => Collapsed
      case (Open, Up) => Open
      case (Open, Down) => Middle
    }
  }

  /** Height order of the positions: collapsed is lowest on screen, open highest. */
  function Rank(p: Position): nat {
    match p
    case Collapsed => 0
    case Middle => 1
    case Open => 2
  }

  /** A rectangle in container coordinates (origin at the top left, y grows downwards). */
  datatype Rect = Rect(x: real, y: real, width: real, height: real)

  /** The presenting area. Its origin is always (0, 0), so only the size is kept. */
  datatype Container = Container(width: real, height: real)

  /** Frame of the presented sheet when resting at p: it starts at the position's
      origin and is 40 points taller than the container, so that a spring overshoot
      never uncovers its bottom edge. */
  function PresentedFrame(p: Position, c: Container): (r: Rect)
    ensures r.x == 0.0 && r.y == p.YOrigin(c.height)
    ensures r.width == c.width && r.height == c.height + 40.0
    ensures c.height > 0.0 ==> 0.0 < r.y < c.height && r.y + r.height > c.height + 40.0
  {
    Rect(0.0, p.YOrigin(c.height), c.width, c.height + 40.0)
  }

  /** The transition table, case by case: the two ends saturate. */
  lemma NextPositionTable()
    ensures Open.NextPosition(Up) == Open && Collapsed.NextPosition(Down) == Collapsed
    ensures Collapsed.NextPosition(Up) == Middle && Middle.NextPosition(Up) == Open
    ensures Middle.NextPosition(Down) == Collapsed && Open.NextPosition(Down) == Middle
  {
  }

  /** A drag up never leads lower, a drag down never higher, and no transition skips
      a position. */
  lemma NextPositionAdjacent(p: Position, d: DragDirection)
    ensures d == Up ==> Rank(p) <= Rank(p.NextPosition(d))
    ensures d == Down ==> Rank(p.NextPosition(d)) <= Rank(p)
    ensures -1 <= Rank(p.NextPosition(d)) - Rank(p) <= 1
    ensures p.NextPosition(d) == p <==> (p == Open && d == Up) || (p == Collapsed && d == Down)
  {
  }

  /** Higher positions sit strictly nearer the top of the container: the origin order
      is the reverse of the rank order (open < middle < collapsed). */
  lemma YOriginOrdered(p: Position, q: Position, maxHeight: real)
    requires maxHeight > 0.0
    ensures Rank(p) < Rank(q) <==> q.YOrigin(maxHeight) < p.YOrigin(maxHeight)
    ensures p.HeightMultiplier() < q.HeightMultiplier() <==> Rank(p) < Rank(q)
  {
  }

  /** The snap thresholds are ordered: open's above middle's in each direction, and each
      down threshold at least the matching up threshold (the band is wider going down). */
  lemma BoundariesOrdered()
    ensures Open.UpBoundary() > Middle.UpBoundary() > Collapsed.UpBoundary()
    ensures Open.DownBoundary() > Middle.DownBoundary() > Collapsed.DownBoundary()
    ensures forall p: Position :: p.DownBoundary() >= p.UpBoundary()
  {
  }
}
