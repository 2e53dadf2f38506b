/** The mouse cursor: movement clamped to the screen and button edges. */
module Pointer {
  import opened Common
  import opened Geometry
  import opened MouseDecoder

  const X_MAX := H_RES - 12
  const Y_MAX := V_RES - 20

  function Clamp(v: int, hi: int): int
    requires 0 <= hi
  {
    Max(0, Min(v, hi))
  }

  datatype CursorState = CursorState(x: U16, y: U16, pressed: bool, released: bool)

  /** The packet as a clamped movement and a button edge. */
  function Moved(c: CursorState, p: Packet): CursorState {
    CursorState(Clamp(c.x + p.dx, X_MAX), Clamp(c.y - p.dy, Y_MAX), p.lb, c.pressed && !p.lb)
  }

  class Cursor {
    var x: U16
    var y: U16
    var pressed: bool
    var released: bool

    ghost function State(): CursorState
      reads this
    {
      CursorState(x, y, pressed, released)
    }

    ghost predicate OnScreen()
      reads this
    {
      x <= X_MAX && y <= Y_MAX
    }

    constructor ()
      ensures State() == CursorState(0, 0, false, false)
    {
      x, y, pressed, released := 0, 0, false, false;
    }

    /** updateCursor. */
    method Update(p: Packet)
      requires OnScreen()
      modifies this
      ensures OnScreen() && State() == Moved(old(State()), p)
    {
      var dx, dy := p.dx, p.dy;
      released := false;
      if x < -dx {
        x := 0;
      } else if x + dx + 11 >= H_RES {
        x := H_RES - 12;
      } else {
        x := x + dx;
      }
      if y < dy {
        y := 0;
      } else if y - dy + 19 >= V_RES {
        y := V_RES - 20;
      } else {
        y := y - dy;
      }
      if p.lb && !pressed {
        pressed := true;
      } else if !p.lb && pressed {
        pressed := false;
        released := true;
      }
    }
  }

  /** A whole packet sequence. */
  function Trail(c: CursorState, ps: seq<Packet>): CursorState
    decreases |ps|
  {
    if ps == [] then c else Trail(Moved(c, ps[0]), ps[1..])
  }

  /** The left button after a packet sequence, from the state before it. */
  function Button(before: bool, ps: seq<Packet>): bool {
    if ps == [] then before else ps[|ps| - 1].lb
  }

  /** Over every packet sequence the cursor stays on the screen, follows the
      button, and reports a release exactly when the last packet lets it go. */
  lemma {:induction false} EdgesOnly(c: CursorState, ps: seq<Packet>)
    requires c.x <= X_MAX && c.y <= Y_MAX && ps != []
    ensures var r := Trail(c, ps);
            && 0 <= r.x <= X_MAX && 0 <= r.y <= Y_MAX && r.pressed == Button(c.pressed, ps)
            && (r.released <==> Button(c.pressed, ps[..|ps| - 1]) && !Button(c.pressed, ps))
    decreases |ps|
  {
    if |ps| > 1 {
      EdgesOnly(Moved(c, ps[0]), ps[1..]);
      assert ps[1..][..|ps| - 2] == ps[..|ps| - 1][1..];
    }
  }

  /** A packet moves the cursor right by its first and up by its second movement,
      as far as the screen allows: 0..788 and 0..580. */
  lemma MovesToTheEdge(c: CursorState, p: Packet)
    requires c.x <= 788 && c.y <= 580
    ensures var r := Moved(c, p);
            && (c.x + p.dx < 0 ==> r.x == 0) && (c.x + p.dx > 788 ==> r.x == 788)
            && (0 <= c.x + p.dx <= 788 ==> r.x - c.x == p.dx)
            && (c.y < p.dy ==> r.y == 0) && (c.y - p.dy > 580 ==> r.y == 580)
            && (0 <= c.y - p.dy <= 580 ==> c.y - r.y == p.dy)
            && r.pressed == p.lb
  {
  }

  /** The sum of one kind of movement over a packet sequence. */
  function Right(ps: seq<Packet>): int { if ps == [] then 0 else ps[0].dx + Right(ps[1..]) }

  function Up(ps: seq<Packet>): int { if ps == [] then 0 else ps[0].dy + Up(ps[1..]) }

  /** As long as no packet leads off the screen, the cursor is where the sums
      of the movements put it. */
  lemma {:induction false} MovesAddUp(c: CursorState, ps: seq<Packet>)
    requires c.x <= 788 && c.y <= 580
    requires forall k :: 0 <= k <= |ps| ==> 0 <= c.x + Right(ps[..k]) <= 788 && 0 <= c.y - Up(ps[..k]) <= 580
    ensures Trail(c, ps).x == c.x + Right(ps) && Trail(c, ps).y == c.y - Up(ps)
    decreases |ps|
  {
    if ps != [] {
      var r := Moved(c, ps[0]);
      assert ps[..1][0] == ps[0] && ps[..1][1..] == [];
      assert 0 <= c.x + Right(ps[..1]) <= 788 && 0 <= c.y - Up(ps[..1]) <= 580;
      forall k | 0 <= k <= |ps| - 1
        ensures 0 <= r.x + Right(ps[1..][..k]) <= 788 && 0 <= r.y - Up(ps[1..][..k]) <= 580
      {
        assert ps[..k + 1][0] == ps[0] && ps[..k + 1][1..] == ps[1..][..k];
        assert 0 <= c.x + Right(ps[..k + 1]) <= 788 && 0 <= c.y - Up(ps[..k + 1]) <= 580;
      }
      MovesAddUp(r, ps[1..]);
    } else {
      assert ps[..0] == [];
    }
  }

  /** A run of the cursor over a packet sequence. */
  method Follow(ps: seq<Packet>) returns (c: Cursor)
    ensures c.OnScreen() && c.State() == Trail(CursorState(0, 0, false, false), ps)
  {
    c := new Cursor();
    var i := 0;
    assert ps[0..] == ps;
    while i < |ps|
      invariant i <= |ps| && fresh(c) && c.OnScreen()
      invariant Trail(c.State(), ps[i..]) == Trail(CursorState(0, 0, false, false), ps)
    {
      assert ps[i..][1..] == ps[i + 1..];
      c.Update(ps[i]);
      i := i + 1;
    }
  }
}
