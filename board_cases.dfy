/**
 * Concrete boards: the default starting position, and the castling
 * divergences of structs.py shown on small positions.
 */
module BoardCases {
  import opened ChessTypes
  import opened BoardRules
  import opened BoardMoves
  import opened Board

  /** The default board: 32 pieces on ranks 0, 1, 6 and 7, no en-passant flags, every castle right held. */
  lemma DefaultBoard()
    ensures WellFormed(InitialState())
    ensures forall p :: OnBoard(p) ==> (At(InitialState(), p).Some? <==> p.rank in {0, 1, 6, 7})
    ensures forall p :: OnBoard(p) && At(InitialState(), p).Some? ==> (At(InitialState(), p).value.color == White <==> p.rank < 2)
    ensures forall p :: OnBoard(p) && (p.rank == 1 || p.rank == 6) ==> At(InitialState(), p).value.kind == Pawn
    ensures At(InitialState(), Posn(0, 4)) == Some(Piece(White, King)) && At(InitialState(), Posn(7, 4)) == Some(Piece(Black, King))
    ensures forall f :: 0 <= f < BoardSize ==> !InitialState().enPassant.white[f] && !InitialState().enPassant.black[f]
    ensures InitialState().canCastle == PerColor(Castle(true, true), Castle(true, true))
  {
  }

  function EmptyLayout(): (l: seq<seq<Square>>)
    ensures Grid(l) && forall q :: OnBoard(q) ==> GetSq(l, q) == None
  {
    Repeat(Repeat(None, BoardSize), BoardSize)
  }

  /** A board holding only the given kings, with every castle right and no flags. */
  function KingsOnly(white: Posn, black: Posn): (s: BoardState)
    requires OnBoard(white) && OnBoard(black) && white != black
    ensures WellFormed(s)
  {
    BoardState(SetSq(SetSq(EmptyLayout(), white, Some(Piece(White, King))), black, Some(Piece(Black, King))),
               PerColor(Repeat(false, BoardSize), Repeat(false, BoardSize)),
               PerColor(Castle(true, true), Castle(true, true)),
               0)
  }

  function NeverInCheck(b: BoardState, c: Color): bool
  {
    false
  }

  /**
   * structs.py accepts the white king from its home square onto (2, 0),
   * which is rank 2, using the queen-side right; data.py does not.
   */
  lemma StructsCastleTargetSwapped()
    ensures StaticChecks(Structs, InitialState(), White, Posn(0, 4), Posn(2, 0)) == Ok(true)
    ensures StaticChecks(Legacy, InitialState(), White, Posn(0, 4), Posn(2, 0)) == Ok(false)
  {
    DefaultBoard();
    assert At(InitialState(), Posn(2, 0)) == None;
  }

  /** With f1 and g1 emptied, data.py accepts the king-side castle e1-g1 and structs.py rejects it. */
  lemma StructsRejectsRealCastle()
    ensures var s := InitialState().(layout := SetSq(SetSq(DefaultInitialLayout(), Posn(0, 5), None), Posn(0, 6), None));
      StaticChecks(Legacy, s, White, Posn(0, 4), Posn(0, 6)) == Ok(true)
      && StaticChecks(Structs, s, White, Posn(0, 4), Posn(0, 6)) == Ok(false)
  {
    DefaultBoard();
  }

  /**
   * structs.py: a white king on (5, 2) may "castle" onto (6, 0), and that
   * square is also where the rook is looked for. Trying the ply in
   * isLegalMove leaves two white kings on the board.
   */
  lemma StructsCheckDuplicatesKing()
    ensures var s := KingsOnly(Posn(5, 2), Posn(7, 7));
      StaticChecks(Structs, s, White, Posn(5, 2), Posn(6, 0)) == Ok(true)
      && At(AfterLegalityCheck(Structs, s, White, Posn(5, 2), Posn(6, 0)), Posn(5, 2)) == Some(Piece(White, King))
      && At(AfterLegalityCheck(Structs, s, White, Posn(5, 2), Posn(6, 0)), Posn(6, 0)) == Some(Piece(White, King))
  {
    var s := KingsOnly(Posn(5, 2), Posn(7, 7));
    var from, to := Posn(5, 2), Posn(6, 0);
    var e := ExecutePly(Structs, s, White, from, to);
    assert At(s, to) == None;
    assert e.moved == [Restore(Some(Piece(White, King)), from), Restore(None, to),
                       Restore(None, Posn(6, 3)), Restore(Some(Piece(White, King)), to)];
    var m := e.moved;
    assert m[..3][..2][..1] == m[..1];
    var l := e.state.layout;
    var r1 := SetSq(l, from, Some(Piece(White, King)));
    var r2 := SetSq(r1, to, None);
    var r3 := SetSq(r2, Posn(6, 3), None);
    var r4 := SetSq(r3, to, Some(Piece(White, King)));
    assert Replay(l, m[..1]) == r1;
    assert Replay(l, m[..2]) == r2 by { assert m[..2][..1] == m[..1]; }
    assert Replay(l, m[..3]) == r3 by { assert m[..3][..2] == m[..2]; }
    assert Replay(l, m) == r4 by { assert m[..3] == m[..|m| - 1]; }
  }

  /**
   * structs.py: the black king on (6, 5) "castles" onto (6, 7). The check
   * leaves the king on (6, 7), so makePly finds the origin empty and raises.
   */
  lemma StructsMakePlyRaises()
    ensures var s := KingsOnly(Posn(0, 0), Posn(6, 5));
      MakePly(Structs, s, Black, Posn(6, 5), Posn(6, 7), NeverInCheck).verdict == Raise(AttributeError)
  {
    var s := KingsOnly(Posn(0, 0), Posn(6, 5));
    var from, to := Posn(6, 5), Posn(6, 7);
    var e := ExecutePly(Structs, s, Black, from, to);
    assert At(s, to) == None;
    assert e.moved == [Restore(Some(Piece(Black, King)), from), Restore(None, to),
                       Restore(None, from), Restore(Some(Piece(Black, King)), to)];
    var m := e.moved;
    var l := e.state.layout;
    var r1 := SetSq(l, from, Some(Piece(Black, King)));
    var r2 := SetSq(r1, to, None);
    var r3 := SetSq(r2, from, None);
    var r4 := SetSq(r3, to, Some(Piece(Black, King)));
    assert Replay(l, m[..1]) == r1;
    assert Replay(l, m[..2]) == r2 by { assert m[..2][..1] == m[..1]; }
    assert Replay(l, m[..3]) == r3 by { assert m[..3][..2] == m[..2]; }
    assert Replay(l, m) == r4 by { assert m[..3] == m[..|m| - 1]; }
    assert StaticChecks(Structs, s, Black, from, to) == Ok(true);
    assert At(AfterLegalityCheck(Structs, s, Black, from, to), from) == None;
  }
}
