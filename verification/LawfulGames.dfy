/** Games by the Laws: in runs without corner moves in which neither peer snaps
    a pawn, every move on record is one the Laws allow, the double step of a
    pawn included. */
module LawfulGames {
  import opened Common
  import opened Chess
  import opened Game
  import opened GameInvariants
  import opened HandlerSummary
  import opened Network
  import opened NetworkInvariant
  import opened Theorems
  import opened GameRecord
  import opened PawnFlags

  /** The k-th move is pseudo-legal where it is made, and a pawn has moved before
      exactly if it is not on the square it started on. */
  ghost predicate LawfulAt(rec: seq<Ply>, k: nat)
    requires k < |rec|
  {
    var b, from := Position(rec[..k]), rec[k].0;
    && b[from.Index()].Some? && b[from.Index()].value < PIECES
    && LegalFor(b, from.Index() != HomeOf(b[from.Index()].value), from, rec[k].1)
  }

  ghost predicate Lawful(rec: seq<Ply>) {
    forall k :: 0 <= k < |rec| ==> LawfulAt(rec, k)
  }

  lemma FlagOrHome(c: Core, from: Square, to: Square)
    requires LocalInv(c) && c.myTurn && Shape(c) && PawnInv(c) && from.OnBoard() && to.OnBoard()
    requires KindOn(c.board, from).Some? && Owns(c.player, KindOn(c.board, from).value)
    requires LegalFor(c.board, FlagOn(c, from), from, to)
    ensures var cell := c.board[from.Index()];
            cell.Some? && cell.value < PIECES && LegalFor(c.board, from.Index() != HomeOf(cell.value), from, to)
  {
    hide LocalInv, PawnInv, KindOf, HomeOf, PseudoLegal, KindsOn;
    TurnParts(c);
    var id := c.board[from.Index()].value;
    if IsPawn(KindOf(id)) {
      SettledFlags(c, from.Index());
    } else {
      FlagIsForPawns(KindsOn(c.board), KindOf(id), from, to);
    }
  }

  lemma GrowsLawfully(c: Core, rec: seq<Ply>, more: seq<Ply>)
    requires LocalInv(c) && Shape(c) && PawnInv(c) && Grew(c, rec, more) && Lawful(rec)
    ensures Lawful(more)
  {
    hide LocalInv, PawnInv, Shape, LegalFor, KindOn, FlagOn, Position, HomeOf, LawfulAt;
    if more != rec {
      var from, to := more[|rec|].0, more[|rec|].1;
      FlagOrHome(c, from, to);
      LastIsLawful(c.board, rec, more);
      forall k | 0 <= k < |more|
        ensures LawfulAt(more, k)
      {
        if k < |rec| {
          StaysLawful(rec, more, k);
        }
      }
    }
  }

  lemma LastIsLawful(b: seq<Option<nat>>, rec: seq<Ply>, more: seq<Ply>)
    requires |more| == |rec| + 1 && more[..|rec|] == rec && b == Position(rec)
    requires var from := more[|rec|].0;
             && b[from.Index()].Some? && b[from.Index()].value < PIECES
             && LegalFor(b, from.Index() != HomeOf(b[from.Index()].value), from, more[|rec|].1)
    ensures LawfulAt(more, |rec|)
  {
    hide Position, LegalFor, HomeOf;
  }

  lemma StaysLawful(rec: seq<Ply>, more: seq<Ply>, k: nat)
    requires k < |rec| < |more| && more[..|rec|] == rec && LawfulAt(rec, k)
    ensures LawfulAt(more, k)
  {
    hide Position, LegalFor, HomeOf;
    assert more[..k] == more[..|rec|][..k] && more[k] == more[..|rec|][k];
  }

  lemma {:induction false} RunIsLawful(n: Net, s: Schedule, rec: seq<Ply>) returns (more: seq<Ply>)
    requires NetInv(true, n) && Recorded(n, rec) && NetShape(n) && Clean(true, n, s) && Lawful(rec)
    requires NoSnap(true, n, s) && NoSnap(false, n, s)
    requires Shape(n.me.core) && Shape(n.you.core) && PawnInv(n.me.core) && PawnInv(n.you.core)
    ensures Recorded(Run(n, s), more) && Lawful(more)
    decreases |s|
  {
    hide NetInv, LocalInv, NetShape, Recorded, Step, Crossing, CornerMove, PawnInv, Shape, Lawful, Grew, SnapsPawn;
    more := rec;
    if s != [] {
      var first, a := s[0].0, s[0].1;
      InvLocal(true, n);
      more := StepRecords(n, first, a, rec);
      GrowsLawfully(if first then n.me.core else n.you.core, rec, more);
      ViewFlags(true, n, first, a);
      ViewFlags(false, n, first, a);
      StepKeeps(true, n, first, a);
      more := RunIsLawful(Step(n, first, a), s[1..], more);
    }
  }

  /** In every run in which no handshakes cross, no move touches (0, 0) and
      neither peer snaps a pawn, the two boards show one game played by
      Articles 3.1 to 3.8: White and Black make pseudo-legal moves in turn, a
      pawn steps two squares only from the square it started on, the player who
      moved last sees the position after the last move and the other that
      position or the one before. */
  lemma BoardsShowALawfulGame(s: Schedule, n: Net) returns (rec: seq<Ply>)
    requires Unsnapped(true, s, n) && Unsnapped(false, s, Swap(n))
    ensures Lawful(rec) && LegalGame(rec) && |rec| == n.me.core.moves + n.you.core.moves
    ensures GameRecord.Shows(n.me.core, rec) && GameRecord.Shows(n.you.core, rec)
  {
    hide NetInv, LocalInv, Run, Clean, NoSnap, LegalGame, Shows, PawnInv, InitBoard, InitPieces, Lawful;
    InitShape();
    InitialNetInv(true);
    FreshFlags(InitCore());
    NoRecord();
    NoLaw();
    rec := RunIsLawful(InitNet(), s, []);
  }

  lemma NoLaw()
    ensures Lawful([])
  {
  }
}
