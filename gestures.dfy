/** The drag-direction choice of `onMove` and the snap rule of `onRelease`. */
module Gestures {
  import opened AgentConstants

  function Abs(x: int): nat { if x < 0 then -x else x }

  /** The move category for a drag from (oldX, oldY) to (newX, newY): the
      axis with the strictly larger displacement wins, ties go to the
      vertical axis, and no movement at all counts as "up". */
  function DragDirection(oldX: int, oldY: int, newX: int, newY: int): (c: string)
    ensures c == ON_MOVE_RIGHT <==> newX - oldX > Abs(newY - oldY)
    ensures c == ON_MOVE_LEFT <==> oldX - newX > Abs(newY - oldY)
    ensures c == ON_MOVE_DOWN <==> newY > oldY && newY - oldY >= Abs(newX - oldX)
    ensures c == ON_MOVE_UP <==> oldY - newY >= Abs(newX - oldX)
  {
    var xDiff := Abs(oldX - newX);
    var yDiff := Abs(oldY - newY);
    if xDiff > yDiff then
      if newX > oldX then ON_MOVE_RIGHT else ON_MOVE_LEFT
    else
      if newY > oldY then ON_MOVE_DOWN else ON_MOVE_UP
  }

  function Opposite(c: string): string
  {
    if c == ON_MOVE_RIGHT then ON_MOVE_LEFT
    else if c == ON_MOVE_LEFT then ON_MOVE_RIGHT
    else if c == ON_MOVE_DOWN then ON_MOVE_UP
    else ON_MOVE_DOWN
  }

  /** Dragging back along the same path gives the opposite direction, as
      long as the character actually moved. */
  lemma DragReversed(oldX: int, oldY: int, newX: int, newY: int)
    requires oldX != newX || oldY != newY
    ensures DragDirection(newX, newY, oldX, oldY) == Opposite(DragDirection(oldX, oldY, newX, newY))
  {
  }

  /** Whether a release snaps the character back: it was released higher
      than `RELEASE_MARGIN` above the bottom edge. */
  predicate SnapsBack(currentY: int, screenHeight: int)
  {
    currentY < screenHeight - RELEASE_MARGIN
  }
}
