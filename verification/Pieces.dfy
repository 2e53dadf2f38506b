/** Piece objects, updated in place. */
module Pieces {
  import opened Common
  import opened Chess
  import opened PieceMotion

  class Piece {
    const kind: Kind
    ghost const id: nat
    var absoluteX: U16
    var absoluteY: U16
    var targetX: U16
    var targetY: U16
    var isMoving: bool
    var priorityDraw: bool
    var change: bool
    var pawnMoved: bool

    function State(): PieceState
      reads this
    {
      PieceState(kind, absoluteX, absoluteY, targetX, targetY, isMoving, priorityDraw, change, pawnMoved)
    }

    /** initPiece. */
    constructor (kind: Kind, x: U16, y: U16, ghost id: nat)
      ensures this.id == id && this.kind == kind
      ensures State() == PieceState(kind, x, y, 0, 0, false, false, false, false)
    {
      this.kind := kind;
      this.id := id;
      absoluteX, absoluteY := x, y;
      targetX, targetY := 0, 0;
      isMoving, priorityDraw, change, pawnMoved := false, false, false, false;
    }

    /** updatePiece: true when the piece has just arrived. */
    method Update() returns (arrived: bool)
      modifies this
      ensures State() == Animate(old(State()))
      ensures arrived == (old(isMoving) && !isMoving)
    {
      if absoluteX == targetX && absoluteY == targetY {
        if isMoving {
          isMoving := false;
          priorityDraw := false;
          change := true;
          return true;
        }
        return false;
      }
      var addX := targetX - absoluteX;
      if addX > 0 {
        absoluteX := absoluteX + 1;
      } else if addX < 0 {
        absoluteX := absoluteX - 1;
      }
      var addY := targetY - absoluteY;
      if addY > 0 {
        absoluteY := absoluteY + 1;
      } else if addY < 0 {
        absoluteY := absoluteY - 1;
      }
      if (kind == B_PAWN || kind == W_PAWN) && !pawnMoved {
        pawnMoved := true;
      }
      return false;
    }

    /** updatePiece_no_animation. */
    method UpdateNoAnimation() returns (arrived: bool)
      modifies this
      ensures State() == Snap(old(State()))
      ensures arrived == (old(isMoving) && !isMoving)
    {
      absoluteX := targetX;
      absoluteY := targetY;
      if isMoving {
        isMoving := false;
        priorityDraw := false;
        change := true;
        return true;
      }
      return false;
    }

    /** movePiece. */
    method MovePiece(x: int, y: int)
      modifies this
      ensures State() == MoveTo(old(State()), x, y)
    {
      change := true;
      isMoving := true;
      priorityDraw := true;
      targetX := ToU16(x);
      targetY := ToU16(y);
    }

    /** setPiecePosition. */
    method SetPosition(x: int, y: int)
      modifies this
      ensures State() == PlaceAt(old(State()), x, y)
    {
      absoluteX := ToU16(x);
      absoluteY := ToU16(y);
    }

    /** changePiecePriority. */
    method ChangePriority(priority: bool)
      modifies this
      ensures State() == old(State()).(priority := priority, change := true)
    {
      priorityDraw := priority;
      change := true;
    }
  }
}
