/**
 * What _executePly does to the layout, and when undoPlyResult(getPlyResult())
 * gives the board back: the replay of the undo list restores every square
 * when the list names each square once, which every move data.py accepts
 * does; structs.py's castling does not, and neither copy restores an
 * en-passant flag the ply cleared, nor (structs.py) the draw counter.
 */
module BoardUndo {
  import opened ChessTypes
  import opened BoardRules
  import opened BoardMoves
  import opened BoardPaths

  /** The squares an undo list names, in order. */
  function Positions(moved: seq<Restore>): (ps: seq<Posn>)
    ensures |ps| == |moved| && forall i :: 0 <= i < |moved| ==> ps[i] == moved[i].posn
  {
    seq(|moved|, i requires 0 <= i < |moved| => moved[i].posn)
  }

  predicate Distinct(ps: seq<Posn>)
  {
    forall i, j :: 0 <= i < j < |ps| ==> ps[i] != ps[j]
  }

  /** Outside the squares the undo list names, the stage's layout is still L. */
  ghost predicate Framed(L: seq<seq<Square>>, st: Stage)
  {
    Grid(L) && StageOk(st)
    && forall q :: OnBoard(q) && q !in Positions(st.moved) ==> GetSq(st.layout, q) == GetSq(L, q)
  }

  /** Every entry of the undo list holds what L has on that square. */
  predicate Records(L: seq<seq<Square>>, st: Stage)
  {
    Grid(L) && StageOk(st)
    && forall i :: 0 <= i < |st.moved| ==> st.moved[i].piece == GetSq(L, st.moved[i].posn)
  }

  lemma DistinctPrefix(a: seq<Restore>, b: seq<Restore>)
    requires a <= b && Distinct(Positions(b))
    ensures Distinct(Positions(a))
  {
    forall i, j | 0 <= i < j < |a|
      ensures Positions(a)[i] != Positions(a)[j]
    {
      assert Positions(a)[i] == Positions(b)[i] && Positions(a)[j] == Positions(b)[j];
    }
  }

  lemma LiftKeeps(v: Version, s: BoardState, color: Color, from: Posn, to: Posn)
    requires CanExecute(s, from, to)
    ensures var st := LiftStage(v, s, color, from, to);
      Framed(s.layout, st) && Positions(st.moved) == [from, to]
      && (from != to ==> Records(s.layout, st))
  {
    var st := LiftStage(v, s, color, from, to);
    assert Positions(st.moved) == [from, to];
  }

  lemma PlaceKeeps(L: seq<seq<Square>>, st: Stage, piece: Piece, from: Posn, to: Posn)
    requires Framed(L, st) && OnBoard(to) && to in Positions(st.moved)
    ensures Framed(L, PlaceStage(st, piece, from, to))
    ensures Records(L, st) && Distinct(Positions(PlaceStage(st, piece, from, to).moved))
      ==> Records(L, PlaceStage(st, piece, from, to))
  {
    var r := PlaceStage(st, piece, from, to);
    if IsCastle(piece, from, to) {
      var rd, rf := RookDest(from, to), RookFrom(from, to);
      var n := |st.moved|;
      assert Positions(r.moved) == Positions(st.moved) + [rd, rf];
      if Records(L, st) && Distinct(Positions(r.moved)) {
        assert Positions(r.moved)[n] == rd && Positions(r.moved)[n + 1] == rf;
        forall i | 0 <= i < n
          ensures Positions(st.moved)[i] != rd && Positions(st.moved)[i] != rf
        {
          assert Positions(r.moved)[i] == Positions(st.moved)[i];
        }
        assert rd !in Positions(st.moved) && rf !in Positions(st.moved) && rd != rf;
      }
    }
  }

  lemma EnPassantKeeps(L: seq<seq<Square>>, st: Stage, piece: Piece, color: Color, to: Posn)
    requires Framed(L, st) && OnBoard(to)
    ensures Framed(L, EnPassantStage(st, piece, color, to))
    ensures Records(L, st) && Distinct(Positions(EnPassantStage(st, piece, color, to).moved))
      ==> Records(L, EnPassantStage(st, piece, color, to))
  {
    var r := EnPassantStage(st, piece, color, to);
    if piece.kind == Pawn && st.otherFlags[to.file] && to.rank == EpCaptureRank(color) {
      var victim := EpVictim(color, to);
      var n := |st.moved|;
      assert Positions(r.moved) == Positions(st.moved) + [victim];
      if Records(L, st) && Distinct(Positions(r.moved)) {
        forall i | 0 <= i < n
          ensures Positions(st.moved)[i] != victim
        {
          assert Positions(r.moved)[i] == Positions(st.moved)[i] && Positions(r.moved)[n] == victim;
        }
        assert victim !in Positions(st.moved);
      }
    }
  }

  /**
   * _executePly changes only the squares its undo list names; when the list
   * names each square once, each entry holds what stood there before.
   */
  lemma ExecutePlyFrame(v: Version, s: BoardState, color: Color, from: Posn, to: Posn)
    requires CanExecute(s, from, to)
    ensures var e := ExecutePly(v, s, color, from, to);
      forall q :: OnBoard(q) && q !in Positions(e.moved) ==> GetSq(e.state.layout, q) == GetSq(s.layout, q)
    ensures var e := ExecutePly(v, s, color, from, to);
      Distinct(Positions(e.moved)) ==>
        forall i :: 0 <= i < |e.moved| ==> e.moved[i].piece == GetSq(s.layout, e.moved[i].posn)
  {
    var piece := At(s, from).value;
    var st1 := LiftStage(v, s, color, from, to);
    var st2 := PlaceStage(st1, piece, from, to);
    var st3 := EnPassantStage(st2, piece, color, to);
    LiftKeeps(v, s, color, from, to);
    PlaceKeeps(s.layout, st1, piece, from, to);
    EnPassantKeeps(s.layout, st2, piece, color, to);
    if Distinct(Positions(st3.moved)) {
      DistinctPrefix(st2.moved, st3.moved);
      DistinctPrefix(st1.moved, st3.moved);
      assert Positions(st1.moved)[0] == from && Positions(st1.moved)[1] == to;
    }
  }

  /** Replaying an undo list whose entries all hold L's squares puts L back on those squares. */
  lemma {:induction false} ReplayRecords(L: seq<seq<Square>>, cur: seq<seq<Square>>, moved: seq<Restore>)
    requires Grid(L) && Grid(cur) && forall i :: 0 <= i < |moved| ==> OnBoard(moved[i].posn)
    requires forall i :: 0 <= i < |moved| ==> moved[i].piece == GetSq(L, moved[i].posn)
    ensures forall q :: OnBoard(q) ==>
      GetSq(Replay(cur, moved), q) == if q in Positions(moved) then GetSq(L, q) else GetSq(cur, q)
    decreases |moved|
  {
    if |moved| > 0 {
      var n := |moved| - 1;
      ReplayRecords(L, cur, moved[..n]);
      assert Positions(moved) == Positions(moved[..n]) + [moved[n].posn];
    }
  }

  lemma GridsEqual(a: seq<seq<Square>>, b: seq<seq<Square>>)
    requires Grid(a) && Grid(b)
    requires forall q :: OnBoard(q) ==> GetSq(a, q) == GetSq(b, q)
    ensures a == b
  {
    forall r | 0 <= r < BoardSize
      ensures a[r] == b[r]
    {
      forall f | 0 <= f < BoardSize
        ensures a[r][f] == b[r][f]
      {
        assert GetSq(a, Posn(r, f)) == GetSq(b, Posn(r, f));
      }
    }
  }

  function MoverColor(s: BoardState, from: Posn): Color
    requires WellFormed(s) && At(s, from).Some?
  {
    At(s, from).value.color
  }

  /** undoPlyResult(getPlyResult(from, to)) restores the layout when the undo list names each square once. */
  lemma UndoRestoresLayout(v: Version, s: BoardState, from: Posn, to: Posn)
    requires CanExecute(s, from, to)
    requires Distinct(Positions(ExecutePly(v, s, MoverColor(s, from), from, to).moved))
    ensures AfterUndo(v, s, from, to).layout == s.layout
  {
    var e := ExecutePly(v, s, MoverColor(s, from), from, to);
    ExecutePlyFrame(v, s, MoverColor(s, from), from, to);
    ReplayRecords(s.layout, e.state.layout, e.moved);
    GridsEqual(Replay(e.state.layout, e.moved), s.layout);
  }

  /** A pawn move onto the capture rank of a file whose opponent flag is set. */
  predicate EnPassantMove(s: BoardState, color: Color, from: Posn, to: Posn)
    requires WellFormed(s) && OnBoard(to)
  {
    At(s, from).Some? && At(s, from).value.kind == Pawn
    && s.enPassant.Get(OtherColor(color))[to.file] && to.rank == EpCaptureRank(color)
  }

  /**
   * Each flag the opponent has set stands for a pawn of theirs that has
   * just advanced two squares and may be taken en passant.
   */
  predicate OpponentFlagsHonest(s: BoardState, color: Color)
    requires WellFormed(s)
  {
    forall f :: 0 <= f < BoardSize && s.enPassant.Get(OtherColor(color))[f] ==>
      At(s, EpVictim(color, Posn(EpCaptureRank(color), f))) == Some(Piece(OtherColor(color), Pawn))
  }

  /**
   * A ply passing the static checks names each square once in its undo
   * list, except a structs.py castle: its landing square is on the rook's
   * corner file, so the rook square is the king's own destination.
   */
  lemma AcceptedMoveDistinct(v: Version, s: BoardState, color: Color, from: Posn, to: Posn)
    requires WellFormed(s) && StaticChecks(v, s, color, from, to) == Ok(true)
    requires OpponentFlagsHonest(s, color)
    requires v == Legacy || !IsCastle(At(s, from).value, from, to)
    ensures CanExecute(s, from, to) && MoverColor(s, from) == color
    ensures Distinct(Positions(ExecutePly(v, s, color, from, to).moved))
  {
    PassingStaticChecks(v, s, color, from, to);
    var piece := At(s, from).value;
    if IsCastle(piece, from, to) {
      CastleMoveDistinct(v, s, color, from, to);
    } else {
      OtherMoveDistinct(v, s, color, from, to);
    }
  }

  lemma CastleMoveDistinct(v: Version, s: BoardState, color: Color, from: Posn, to: Posn)
    requires WellFormed(s) && StaticChecks(v, s, color, from, to) == Ok(true)
    requires CanExecute(s, from, to) && At(s, from).value.color == color
    requires v == Legacy && IsCastle(At(s, from).value, from, to)
    ensures Distinct(Positions(ExecutePly(v, s, color, from, to).moved))
  {
    var piece := At(s, from).value;
    var st1 := LiftStage(v, s, color, from, to);
    var st2 := PlaceStage(st1, piece, from, to);
    var st3 := EnPassantStage(st2, piece, color, to);
    assert ExecutePly(v, s, color, from, to).moved == st3.moved;
    assert MovementInPattern(v, s, color, from, to) == Ok(KingPattern(v, s, color, from, to));
    LegacyCastleLanding(s, color, from, to);
    assert Positions(st3.moved) == [from, to, RookDest(from, to), RookFrom(from, to)];
  }

  lemma OtherMoveDistinct(v: Version, s: BoardState, color: Color, from: Posn, to: Posn)
    requires WellFormed(s) && StaticChecks(v, s, color, from, to) == Ok(true)
    requires CanExecute(s, from, to) && At(s, from).value.color == color
    requires OpponentFlagsHonest(s, color) && !IsCastle(At(s, from).value, from, to)
    ensures Distinct(Positions(ExecutePly(v, s, color, from, to).moved))
  {
    var piece := At(s, from).value;
    var st1 := LiftStage(v, s, color, from, to);
    var st2 := PlaceStage(st1, piece, from, to);
    assert st2.moved == st1.moved && st2.otherFlags == st1.otherFlags;
    var st3 := EnPassantStage(st2, piece, color, to);
    assert ExecutePly(v, s, color, from, to).moved == st3.moved;
    assert Positions(st1.moved) == [from, to];
    if piece.kind == Pawn && st2.otherFlags[to.file] && to.rank == EpCaptureRank(color) {
      var victim := EpVictim(color, to);
      assert Positions(st3.moved) == [from, to, victim];
      assert MovementInPattern(v, s, color, from, to) == PawnPattern(s, color, from, to);
      PawnPatternMeaning(s, color, from, to);
      assert from != victim;
    } else {
      assert st3.moved == st1.moved;
    }
  }

  /**
   * isLegalMove on an accepted ply (other than a structs.py castle) hands
   * back the layout, both colours' castle rights and the mover's flags. The
   * opponent's flags keep only the clearing the ply did; in data.py, away
   * from an en-passant capture, the whole board comes back.
   */
  lemma LegalityCheckRestores(v: Version, s: BoardState, color: Color, from: Posn, to: Posn)
    requires WellFormed(s) && StaticChecks(v, s, color, from, to) == Ok(true)
    requires OpponentFlagsHonest(s, color)
    requires v == Legacy || !IsCastle(At(s, from).value, from, to)
    ensures var t := AfterLegalityCheck(v, s, color, from, to);
      t.layout == s.layout && t.canCastle == s.canCastle
      && t.enPassant.Get(color) == s.enPassant.Get(color)
      && (forall f :: 0 <= f < BoardSize && t.enPassant.Get(OtherColor(color))[f] ==> s.enPassant.Get(OtherColor(color))[f])
    ensures v == Legacy && !EnPassantMove(s, color, from, to) ==> AfterLegalityCheck(v, s, color, from, to) == s
  {
    AcceptedMoveDistinct(v, s, color, from, to);
    UndoRestoresLayout(v, s, from, to);
    var t := AfterLegalityCheck(v, s, color, from, to);
    if v == Legacy && !EnPassantMove(s, color, from, to) {
      var e := ExecutePly(v, s, color, from, to);
      assert e.state.enPassant.Get(OtherColor(color)) == s.enPassant.Get(OtherColor(color));
      assert t.enPassant == s.enPassant;
    }
  }

  /** data.py's makePly returns isLegalMove's verdict: the origin is always back in place. */
  lemma LegacyMakePlyVerdict(s: BoardState, color: Color, from: Posn, to: Posn, inCheck: (BoardState, Color) -> bool)
    requires WellFormed(s) && OpponentFlagsHonest(s, color)
    ensures MakePly(Legacy, s, color, from, to, inCheck).verdict == Legality(Legacy, s, color, from, to, inCheck)
  {
    if StaticChecks(Legacy, s, color, from, to) == Ok(true) {
      LegalityCheckRestores(Legacy, s, color, from, to);
    }
  }

  /**
   * An en-passant capture that isLegalMove accepts: the check clears the
   * opponent's flag for good, so the ply makePly then executes is a plain
   * diagonal step and the passed pawn stays on the board.
   */
  lemma EnPassantCaptureLost(v: Version, s: BoardState, color: Color, from: Posn, to: Posn, inCheck: (BoardState, Color) -> bool)
    requires WellFormed(s) && OpponentFlagsHonest(s, color) && OnBoard(to) && At(s, to).None?
    requires EnPassantMove(s, color, from, to)
    requires Legality(v, s, color, from, to, inCheck) == Ok(true)
    ensures MakePly(v, s, color, from, to, inCheck).verdict == Ok(true)
    ensures At(MakePly(v, s, color, from, to, inCheck).state, EpVictim(color, to)) == Some(Piece(OtherColor(color), Pawn))
  {
    PassingStaticChecks(v, s, color, from, to);
    LegalityCheckRestores(v, s, color, from, to);
    var t := AfterLegalityCheck(v, s, color, from, to);
    var e := ExecutePly(v, s, color, from, to);
    assert t.enPassant.Get(OtherColor(color))[to.file] == e.state.enPassant.Get(OtherColor(color))[to.file];
    assert !t.enPassant.Get(OtherColor(color))[to.file];
    assert At(t, from) == At(s, from) && At(t, to).None?;
    var victim := EpVictim(color, to);
    assert At(s, victim) == Some(Piece(OtherColor(color), Pawn));
    PawnStepKeeps(v, t, color, from, to, victim);
  }

  /**
   * makePly as intended: the undo record holds copies of the flag lists
   * rather than the lists themselves, so isLegalMove hands back the board it
   * was given and the ply is executed on that board.
   */
  function IntendedMakePly(v: Version, s: BoardState, color: Color, from: Posn, to: Posn, inCheck: (BoardState, Color) -> bool): (r: PlyOutcome)
    requires WellFormed(s)
    ensures WellFormed(r.state)
    ensures r.verdict == Legality(v, s, color, from, to, inCheck)
    ensures r.verdict != Ok(true) ==> r.state == s
  {
    var verdict := Legality(v, s, color, from, to, inCheck);
    if verdict == Ok(true) then
      PassingStaticChecks(v, s, color, from, to);
      PlyOutcome(verdict, ExecutePly(v, s, color, from, to).state)
    else PlyOutcome(verdict, s)
  }

  /** With copied flags, an accepted en-passant capture takes the passed pawn off the board. */
  lemma IntendedEnPassantCapture(v: Version, s: BoardState, color: Color, from: Posn, to: Posn, inCheck: (BoardState, Color) -> bool)
    requires WellFormed(s) && OpponentFlagsHonest(s, color) && OnBoard(to) && At(s, to).None?
    requires EnPassantMove(s, color, from, to)
    requires Legality(v, s, color, from, to, inCheck) == Ok(true)
    ensures var r := IntendedMakePly(v, s, color, from, to, inCheck);
      r.verdict == Ok(true)
      && At(s, EpVictim(color, to)) == Some(Piece(OtherColor(color), Pawn))
      && At(r.state, EpVictim(color, to)).None? && At(r.state, to) == At(s, from)
  {
    PassingStaticChecks(v, s, color, from, to);
    ExecutePlyEffect(v, s, color, from, to);
  }

  /** In data.py the copies change nothing but the en-passant capture: every other ply is makePly's own. */
  lemma IntendedMakePlyAgrees(s: BoardState, color: Color, from: Posn, to: Posn, inCheck: (BoardState, Color) -> bool)
    requires WellFormed(s) && OpponentFlagsHonest(s, color)
    requires !(OnBoard(to) && EnPassantMove(s, color, from, to))
    ensures IntendedMakePly(Legacy, s, color, from, to, inCheck) == MakePly(Legacy, s, color, from, to, inCheck)
  {
    if StaticChecks(Legacy, s, color, from, to) == Ok(true) {
      LegalityCheckRestores(Legacy, s, color, from, to);
      PassingStaticChecks(Legacy, s, color, from, to);
    }
  }

  /** A pawn step onto an empty square of a file without an opponent flag writes only its origin and destination. */

  lemma PawnStepKeeps(v: Version, t: BoardState, color: Color, from: Posn, to: Posn, q: Posn)
    requires CanExecute(t, from, to) && At(t, from).value.kind == Pawn && At(t, to).None?
    requires !t.enPassant.Get(OtherColor(color))[to.file]
    requires OnBoard(q) && q != from && q != to
    ensures At(ExecutePly(v, t, color, from, to).state, q) == At(t, q)
  {
    var piece := At(t, from).value;
    var st1 := LiftStage(v, t, color, from, to);
    assert st1.layout == SetSq(t.layout, from, None);
    assert st1.otherFlags == t.enPassant.Get(OtherColor(color));
    var st2 := PlaceStage(st1, piece, from, to);
    assert st2.layout == SetSq(st1.layout, to, Some(piece));
    assert EnPassantStage(st2, piece, color, to) == st2;
  }

  /** The draw counter is not put back: structs.py counts the tried ply, data.py has none to change. */
  lemma UndoDrawCounter(v: Version, s: BoardState, from: Posn, to: Posn)
    requires CanExecute(s, from, to) && from != to
    ensures v == Structs ==> AfterUndo(v, s, from, to).drawCounter == (if At(s, to).Some? then 0 else s.drawCounter) + 1
    ensures v == Legacy ==> AfterUndo(v, s, from, to).drawCounter == s.drawCounter
  {
  }

  /**
   * The squares _executePly writes: the piece leaves the origin for the
   * destination; a castling king (landing on file 2 or 6) carries the rook
   * from the corner to file 3 or 5; an en-passant capture onto an empty
   * square removes the passed pawn and clears its flag.
   */
  lemma ExecutePlyEffect(v: Version, s: BoardState, color: Color, from: Posn, to: Posn)
    requires CanExecute(s, from, to) && from != to
    requires IsCastle(At(s, from).value, from, to) ==> to.file == 2 || to.file == 6
    ensures var l := ExecutePly(v, s, color, from, to).state.layout;
      GetSq(l, to) == At(s, from) && GetSq(l, from) == None
    ensures IsCastle(At(s, from).value, from, to) ==>
      var l := ExecutePly(v, s, color, from, to).state.layout;
      OnBoard(RookFrom(from, to)) && OnBoard(RookDest(from, to))
      && GetSq(l, RookDest(from, to)) == GetSq(s.layout, RookFrom(from, to)) && GetSq(l, RookFrom(from, to)) == None
    ensures EnPassantMove(s, color, from, to) && At(s, to).None? ==>
      var e := ExecutePly(v, s, color, from, to);
      OnBoard(EpVictim(color, to)) && GetSq(e.state.layout, EpVictim(color, to)) == None
      && !e.state.enPassant.Get(OtherColor(color))[to.file]
  {
  }
}
