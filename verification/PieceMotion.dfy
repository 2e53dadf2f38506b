/** Piece records and their movement on the screen, with and without animation. */
module PieceMotion {
  import opened Common
  import opened Chess

  datatype PieceState = PieceState(
    kind: Kind,
    x: U16, y: U16,
    targetX: U16, targetY: U16,
    moving: bool, priority: bool, change: bool,
    pawnMoved: bool)
  {
    predicate AtTarget() { x == targetX && y == targetY }

    /** Calls still needed on the slower axis. */
    function Distance(): nat { Max(Abs(targetX - x), Abs(targetY - y)) }
  }

  function Toward(v: U16, target: U16): U16 {
    if v < target then v + 1 else if v > target then v - 1 else v
  }

  /** updatePiece: one pixel on each axis; a call at the target stops. */
  function Animate(p: PieceState): PieceState {
    if p.AtTarget() then
      if p.moving then p.(moving := false, priority := false, change := true) else p
    else
      p.(x := Toward(p.x, p.targetX), y := Toward(p.y, p.targetY),
         pawnMoved := p.pawnMoved || IsPawn(p.kind))
  }

  /** updatePiece_no_animation: jump to the target. */
  function Snap(p: PieceState): PieceState {
    var q := p.(x := p.targetX, y := p.targetY);
    if p.moving then q.(moving := false, priority := false, change := true) else q
  }

  /** movePiece. */
  function MoveTo(p: PieceState, x: int, y: int): PieceState {
    p.(change := true, moving := true, priority := true, targetX := ToU16(x), targetY := ToU16(y))
  }

  /** setPiecePosition. */
  function PlaceAt(p: PieceState, x: int, y: int): PieceState {
    p.(x := ToU16(x), y := ToU16(y))
  }

  /** One frame of a piece on the board: a moving piece is advanced, and the
      change flag is consumed. */
  function Frame(p: PieceState, animation: bool): PieceState {
    var q := if p.moving then (if animation then Animate(p) else Snap(p)) else p;
    q.(change := false)
  }

  /** Frames under a schedule of the animation switch. */
  function Frames(p: PieceState, schedule: seq<bool>): PieceState
    decreases |schedule|
  {
    if schedule == [] then p else Frames(Frame(p, schedule[0]), schedule[1..])
  }

  /** v is on the way from a to b, ends included. */
  predicate OnTheWay(a: int, v: int, b: int) { a <= v <= b || b <= v <= a }

  /** However the switch is flipped, neither axis overshoots and the target
      never changes. */
  lemma {:induction false} NeverOvershoots(p: PieceState, schedule: seq<bool>)
    ensures var q := Frames(p, schedule);
            OnTheWay(p.x, q.x, p.targetX) && OnTheWay(p.y, q.y, p.targetY) &&
            q.targetX == p.targetX && q.targetY == p.targetY && q.kind == p.kind
    decreases |schedule|
  {
    if schedule != [] {
      NeverOvershoots(Frame(p, schedule[0]), schedule[1..]);
    }
  }

  /** However the switch is flipped, a moving piece has stopped at its target
      after Distance() + 1 frames. */
  lemma {:induction false} StopsInTime(p: PieceState, schedule: seq<bool>)
    requires p.moving && |schedule| > p.Distance()
    ensures !Frames(p, schedule).moving && Frames(p, schedule).AtTarget()
    decreases |schedule|
  {
    var q := Frame(p, schedule[0]);
    if q.moving {
      StopsInTime(q, schedule[1..]);
    } else {
      StillStays(q, schedule[1..]);
    }
  }

  lemma {:induction false} StillStays(p: PieceState, schedule: seq<bool>)
    requires !p.moving
    ensures Frames(p, schedule) == if schedule == [] then p else p.(change := false)
    decreases |schedule|
  {
    if schedule != [] {
      StillStays(Frame(p, schedule[0]), schedule[1..]);
    }
  }

  /** v moved n pixels towards a target, or to it. */
  function Advanced(v: int, target: int, n: nat): int {
    if v <= target then Min(v + n, target) else Max(v - n, target)
  }

  lemma StepAdvances(v: U16, target: U16, n: nat)
    requires n > 0
    ensures Advanced(Toward(v, target), target, n - 1) == Advanced(v, target, n)
  {
  }

  /** With animation on, a moving piece is after n frames n pixels further on
      each axis, or there; one frame more and it stands still. */
  lemma {:induction false} AnimatedPath(p: PieceState, n: nat)
    requires p.moving
    ensures var q := Frames(p, seq(n, _ => true));
            && q.x == Advanced(p.x, p.targetX, n) && q.y == Advanced(p.y, p.targetY, n)
            && q.targetX == p.targetX && q.targetY == p.targetY && q.kind == p.kind
            && q.moving == (n <= p.Distance()) && (n > 0 ==> !q.change)
            && q.priority == (p.priority && q.moving)
            && q.pawnMoved == (p.pawnMoved || (n > 0 && p.Distance() > 0 && (p.kind == B_PAWN || p.kind == W_PAWN)))
    decreases n
  {
    hide Advanced;
    StaysThere(p.x, p.targetX, n);
    StaysThere(p.y, p.targetY, n);
    if n > 0 {
      var s := seq(n, _ => true);
      var q := Frame(p, true);
      assert s[1..] == seq(n - 1, _ => true);
      if p.AtTarget() {
        StillStays(q, s[1..]);
      } else {
        assert q.Distance() == p.Distance() - 1;
        StepAdvances(p.x, p.targetX, n);
        StepAdvances(p.y, p.targetY, n);
        AnimatedPath(q, n - 1);
      }
    }
  }

  lemma StaysThere(v: U16, target: U16, n: nat)
    ensures n == 0 || v == target ==> Advanced(v, target, n) == v
  {
  }

  /** With animation off, one frame puts a moving piece on its target. */
  lemma SnappedAtOnce(p: PieceState)
    requires p.moving
    ensures Frame(p, false) == p.(x := p.targetX, y := p.targetY, moving := false, priority := false, change := false)
  {
  }

  /** With animation always on the piece stops on exactly that frame, in the
      state the unanimated update reaches at once, except for pawnMoved, which
      only an animated step sets. */
  lemma {:induction false} AnimatedRun(p: PieceState, n: nat)
    requires p.moving
    ensures n <= p.Distance() ==> Frames(p, seq(n, _ => true)).moving
    ensures n == p.Distance() + 1 ==>
      Frames(p, seq(n, _ => true)) ==
      Frame(p, false).(pawnMoved := p.pawnMoved || (IsPawn(p.kind) && !p.AtTarget()))
    decreases n
  {
    if n > 0 {
      var s := seq(n, _ => true);
      var q := Frame(p, true);
      assert s[1..] == seq(n - 1, _ => true);
      if p.AtTarget() {
        StillStays(q, s[1..]);
      } else {
        assert q.Distance() == p.Distance() - 1;
        AnimatedRun(q, n - 1);
      }
    }
  }
}
