/**
 * The ChessBoard object of maverick.data.structs and maverick.data. The
 * layout is a value that the methods reassign square by square; each
 * colour's en-passant flags are a list object (an array here), so that the
 * shallow copy of the flag dict that getPlyResult keeps shares the lists
 * with the board, as in Python.
 */
module Board {
  import opened ChessTypes
  import opened BoardRules
  import BoardMoves

  /** DEFAULT_INITIAL_LAYOUT: White on ranks 0 and 1, Black on ranks 6 and 7. */
  function DefaultInitialLayout(): seq<seq<Square>>
  {
    var back := [Rook, Knight, Bishop, Queen, King, Bishop, Knight, Rook];
    [ seq(8, f requires 0 <= f < 8 => Some(Piece(White, back[f]))),
      Repeat(Some(Piece(White, Pawn)), 8),
      Repeat(None, 8), Repeat(None, 8), Repeat(None, 8), Repeat(None, 8),
      Repeat(Some(Piece(Black, Pawn)), 8),
      seq(8, f requires 0 <= f < 8 => Some(Piece(Black, back[f]))) ]
  }

  /** The fields of a default-constructed ChessBoard. */
  function InitialState(): BoardState
  {
    BoardState(DefaultInitialLayout(),
               PerColor(Repeat(false, BoardSize), Repeat(false, BoardSize)),
               PerColor(Castle(true, true), Castle(true, true)),
               0)
  }

  /** The dict that getPlyResult returns; the flag dict is a shallow copy, so it holds the board's own lists. */
  datatype UndoRecord = UndoRecord(
    oldCastleFlags: PerColor<Castle>,
    oldEnPassantFlags: PerColor<array<bool>>,
    movedPieces: seq<BoardMoves.Restore>)

  /** Row-major position of a square, the order of the enumeration loops. */
  function SquareIndex(p: Posn): int
  {
    p.rank * BoardSize + p.file
  }

  predicate OwnedBy(s: BoardState, p: Posn, color: Color)
    requires WellFormed(s)
  {
    At(s, p).Some? && At(s, p).value.color == color
  }

  class ChessBoard {
    const version: Version
    var layout: seq<seq<Square>>
    var epWhite: array<bool>
    var epBlack: array<bool>
    var canCastle: PerColor<Castle>
    var drawCounter: int

    ghost predicate Valid()
      reads this
    {
      Grid(layout) && epWhite.Length == BoardSize && epBlack.Length == BoardSize && epWhite != epBlack
    }

    /** flag_enpassant[c], the list object itself. */
    function EnPassantList(c: Color): array<bool>
      reads this
    {
      if c == White then epWhite else epBlack
    }

    /** The value of every field. */
    function State(): BoardState
      reads this, epWhite, epBlack
    {
      BoardState(layout, PerColor(epWhite[..], epBlack[..]), canCastle, drawCounter)
    }

    lemma StateWellFormed()
      requires Valid()
      ensures WellFormed(State())
    {
    }

    /** ChessBoard() with every argument defaulted. */
    constructor (v: Version)
      ensures Valid() && version == v && State() == InitialState()
      ensures fresh(epWhite) && fresh(epBlack)
    {
      version := v;
      layout := DefaultInitialLayout();
      epWhite := new bool[BoardSize](_ => false);
      epBlack := new bool[BoardSize](_ => false);
      canCastle := PerColor(Castle(true, true), Castle(true, true));
      drawCounter := 0;
      new;
      assert epWhite[..] == Repeat(false, BoardSize) && epBlack[..] == Repeat(false, BoardSize);
    }

    /**
     * ChessBoard(startLayout, startEnpassantFlags, startCanCastleFlags,
     * drawCounter): deep copies of the arguments. data.py takes no draw counter.
     */
    constructor FromState(v: Version, start: BoardState)
      requires WellFormed(start)
      ensures Valid() && version == v
      ensures State() == if v == Structs then start else start.(drawCounter := 0)
      ensures fresh(epWhite) && fresh(epBlack)
    {
      version := v;
      layout := start.layout;
      epWhite := new bool[BoardSize](i requires 0 <= i < BoardSize => start.enPassant.white[i]);
      epBlack := new bool[BoardSize](i requires 0 <= i < BoardSize => start.enPassant.black[i]);
      canCastle := start.canCastle;
      drawCounter := if v == Structs then start.drawCounter else 0;
      new;
      assert epWhite[..] == start.enPassant.white;
      assert epBlack[..] == start.enPassant.black;
    }

    /** __setitem__. */
    method SetItem(p: Posn, piece: Square)
      requires Valid() && OnBoard(p)
      modifies this
      ensures Valid() && epWhite == old(epWhite) && epBlack == old(epBlack)
      ensures At(State(), p) == piece
      ensures forall q :: q != p ==> At(State(), q) == At(old(State()), q)
      ensures State() == old(State()).(layout := SetSq(old(layout), p, piece))
    {
      layout := SetSq(layout, p, piece);
    }

    /** _executePly: make the ply, assuming it is legal, and return the undo list. */
    method ExecutePly(color: Color, from: Posn, to: Posn) returns (moved: seq<BoardMoves.Restore>)
      requires Valid() && BoardMoves.CanExecute(State(), from, to)
      modifies this, EnPassantList(OtherColor(color))
      ensures Valid()
      ensures fresh(EnPassantList(color)) && EnPassantList(OtherColor(color)) == old(EnPassantList(OtherColor(color)))
      ensures State() == BoardMoves.ExecutePly(version, old(State()), color, from, to).state
      ensures moved == BoardMoves.ExecutePly(version, old(State()), color, from, to).moved
    {
      ghost var s := State();
      var movedPiece := At(State(), from).value;
      ghost var st1 := BoardMoves.LiftStage(version, s, color, from, to);
      moved := LiftPiece(color, from, to);
      ghost var st2 := BoardMoves.PlaceStage(st1, movedPiece, from, to);
      moved := PlacePiece(movedPiece, from, to, moved, st1);
      ghost var st3 := BoardMoves.EnPassantStage(st2, movedPiece, color, to);
      moved := CaptureEnPassant(movedPiece, color, to, moved, st2);
      assert EnPassantList(color)[..] == st3.moverFlags;
      assert EnPassantList(OtherColor(color))[..] == st3.otherFlags;
    }

    /**
     * The first part of _executePly: lift the piece, give the mover a new
     * flag list, update castle rights and the draw counter, note a double
     * step and what stands on the destination.
     */
    method LiftPiece(color: Color, from: Posn, to: Posn) returns (moved: seq<BoardMoves.Restore>)
      requires Valid() && BoardMoves.CanExecute(State(), from, to)
      modifies this, EnPassantList(OtherColor(color))
      ensures Valid()
      ensures fresh(EnPassantList(color)) && EnPassantList(OtherColor(color)) == old(EnPassantList(OtherColor(color)))
      ensures layout == BoardMoves.LiftStage(version, old(State()), color, from, to).layout
      ensures moved == BoardMoves.LiftStage(version, old(State()), color, from, to).moved
      ensures drawCounter == BoardMoves.LiftStage(version, old(State()), color, from, to).counter
      ensures EnPassantList(color)[..] == BoardMoves.LiftStage(version, old(State()), color, from, to).moverFlags
      ensures EnPassantList(OtherColor(color))[..] == BoardMoves.LiftStage(version, old(State()), color, from, to).otherFlags
      ensures canCastle == old(canCastle).Set(color, BoardMoves.LiftStage(version, old(State()), color, from, to).castle)
    {
      ghost var s := State();
      ghost var st := BoardMoves.LiftStage(version, s, color, from, to);
      var movedPiece := At(State(), from).value;
      layout := SetSq(layout, from, None);
      var otherColor := OtherColor(color);
      moved := [BoardMoves.Restore(Some(movedPiece), from)];
      var otherList := EnPassantList(otherColor);
      var newFlags := new bool[BoardSize](_ => false);
      if color == White { epWhite := newFlags; } else { epBlack := newFlags; }

      UpdateCastleRights(color, movedPiece, from);
      UpdateDrawCounter(to);

      var rankDeltaAbs := Abs(to.rank - from.rank);
      if movedPiece.kind == Pawn && from.rank == PawnStartRank(color) && rankDeltaAbs == 2 {
        newFlags[from.file] := true;
      }

      moved := moved + [BoardMoves.Restore(GetSq(layout, to), to)];
      // structs.py pre-emptively clears the flag when a pawn is taken
      if version == Structs && GetSq(layout, to).Some? && GetSq(layout, to).value.kind == Pawn {
        otherList[to.file] := false;
      }
      assert layout == st.layout && moved == st.moved && drawCounter == st.counter;
      assert newFlags[..] == st.moverFlags;
      assert otherList[..] == st.otherFlags;
    }

    /** A king move gives up both castle rights, a rook move from a corner file the right on that side. */
    method UpdateCastleRights(color: Color, movedPiece: Piece, from: Posn)
      modifies this
      ensures canCastle == old(canCastle).Set(color, BoardMoves.CastleAfter(old(canCastle).Get(color), movedPiece, from))
      ensures layout == old(layout) && epWhite == old(epWhite) && epBlack == old(epBlack) && drawCounter == old(drawCounter)
    {
      var prevCastleFlag := canCastle.Get(color);
      if movedPiece.kind == King {
        canCastle := canCastle.Set(color, Castle(false, false));
      } else if movedPiece.kind == Rook {
        if from.file == 0 {
          canCastle := canCastle.Set(color, Castle(false, prevCastleFlag.kingSide));
        } else if from.file == 7 {
          canCastle := canCastle.Set(color, Castle(prevCastleFlag.queenSide, false));
        }
      }
    }

    /** The 50-move counter, in structs.py only: reset by a capture, then counted up. */
    method UpdateDrawCounter(to: Posn)
      requires Grid(layout) && OnBoard(to)
      modifies this
      ensures layout == old(layout) && epWhite == old(epWhite) && epBlack == old(epBlack) && canCastle == old(canCastle)
      ensures drawCounter == if version == Structs then (if GetSq(layout, to).Some? then 0 else old(drawCounter)) + 1 else old(drawCounter)
    {
      if version == Structs {
        if GetSq(layout, to).Some? {
          drawCounter := 0;
        }
        drawCounter := drawCounter + 1;
      }
    }

    /** Put the piece on the destination; a castling king drags the rook along. */
    method PlacePiece(movedPiece: Piece, from: Posn, to: Posn, moved0: seq<BoardMoves.Restore>, ghost st: BoardMoves.Stage)
      returns (moved: seq<BoardMoves.Restore>)
      requires BoardMoves.StageOk(st) && OnBoard(to) && layout == st.layout && moved0 == st.moved
      modifies this
      ensures layout == BoardMoves.PlaceStage(st, movedPiece, from, to).layout
      ensures moved == BoardMoves.PlaceStage(st, movedPiece, from, to).moved
      ensures epWhite == old(epWhite) && epBlack == old(epBlack)
      ensures canCastle == old(canCastle) && drawCounter == old(drawCounter)
    {
      moved := moved0;
      var fileDelta := to.file - from.file;
      layout := SetSq(layout, to, Some(movedPiece));
      if movedPiece.kind == King && Abs(fileDelta) == 2 {
        var movedRookPosn := if fileDelta > 0 then Posn(to.rank, 7) else Posn(to.rank, 0);
        var rookDestPosn := if fileDelta > 0 then Posn(to.rank, 5) else Posn(to.rank, 3);
        moved := moved + [BoardMoves.Restore(GetSq(layout, rookDestPosn), rookDestPosn)];
        var movedRook := GetSq(layout, movedRookPosn);
        layout := SetSq(layout, movedRookPosn, None);
        layout := SetSq(layout, rookDestPosn, movedRook);
        moved := moved + [BoardMoves.Restore(movedRook, movedRookPosn)];
      }
    }

    /** An en-passant capture removes the passed pawn and clears the opponent's flag on that file. */
    method CaptureEnPassant(movedPiece: Piece, color: Color, to: Posn, moved0: seq<BoardMoves.Restore>, ghost st: BoardMoves.Stage)
      returns (moved: seq<BoardMoves.Restore>)
      requires Valid() && BoardMoves.StageOk(st) && OnBoard(to) && layout == st.layout && moved0 == st.moved
      requires EnPassantList(OtherColor(color))[..] == st.otherFlags
      modifies this, EnPassantList(OtherColor(color))
      ensures Valid() && epWhite == old(epWhite) && epBlack == old(epBlack)
      ensures canCastle == old(canCastle) && drawCounter == old(drawCounter)
      ensures EnPassantList(color)[..] == old(EnPassantList(color)[..])
      ensures var r := BoardMoves.EnPassantStage(st, movedPiece, color, to);
        layout == r.layout && moved == r.moved && EnPassantList(OtherColor(color))[..] == r.otherFlags
    {
      moved := moved0;
      var otherColor := OtherColor(color);
      var otherList := EnPassantList(otherColor);
      if movedPiece.kind == Pawn {
        var pawnMoveDir := if otherColor == White then 1 else -1;
        var epCapRnk := PawnStartRank(otherColor) + pawnMoveDir;
        var pawnPosn := Posn(epCapRnk + pawnMoveDir, to.file);
        if otherList[to.file] && to.rank == epCapRnk {
          moved := moved + [BoardMoves.Restore(GetSq(layout, pawnPosn), pawnPosn)];
          layout := SetSq(layout, pawnPosn, None);
          otherList[to.file] := false;
        }
      }
    }

    /** getPlyResult: make the ply on this board and return what undoPlyResult needs. */
    method GetPlyResult(from: Posn, to: Posn) returns (undo: UndoRecord)
      requires Valid() && BoardMoves.CanExecute(State(), from, to)
      modifies this, EnPassantList(OtherColor(At(State(), from).value.color))
      ensures Valid()
      ensures undo.oldCastleFlags == old(canCastle)
      ensures undo.oldEnPassantFlags == PerColor(old(epWhite), old(epBlack))
      ensures EnPassantList(OtherColor(At(old(State()), from).value.color)) == old(EnPassantList(OtherColor(At(State(), from).value.color)))
      ensures State() == BoardMoves.ExecutePly(version, old(State()), At(old(State()), from).value.color, from, to).state
      ensures undo.movedPieces == BoardMoves.ExecutePly(version, old(State()), At(old(State()), from).value.color, from, to).moved
    {
      var color := At(State(), from).value.color;
      var oldCastleFlags := canCastle;
      var oldEnPassantFlags := PerColor(epWhite, epBlack);
      var movedPieces := ExecutePly(color, from, to);
      undo := UndoRecord(oldCastleFlags, oldEnPassantFlags, movedPieces);
    }

    /** undoPlyResult: put the saved flag dicts back, then replay the undo list in order. */
    method UndoPlyResult(undo: UndoRecord)
      requires Grid(layout)
      requires undo.oldEnPassantFlags.white.Length == BoardSize && undo.oldEnPassantFlags.black.Length == BoardSize
      requires undo.oldEnPassantFlags.white != undo.oldEnPassantFlags.black
      requires forall i :: 0 <= i < |undo.movedPieces| ==> OnBoard(undo.movedPieces[i].posn)
      modifies this
      ensures Valid()
      ensures canCastle == undo.oldCastleFlags
      ensures epWhite == undo.oldEnPassantFlags.white && epBlack == undo.oldEnPassantFlags.black
      ensures layout == BoardMoves.Replay(old(layout), undo.movedPieces)
      ensures drawCounter == old(drawCounter)
    {
      canCastle := undo.oldCastleFlags;
      epWhite := undo.oldEnPassantFlags.white;
      epBlack := undo.oldEnPassantFlags.black;
      var i := 0;
      while i < |undo.movedPieces|
        invariant 0 <= i <= |undo.movedPieces|
        invariant Grid(layout) && layout == BoardMoves.Replay(old(layout), undo.movedPieces[..i])
        invariant canCastle == undo.oldCastleFlags && drawCounter == old(drawCounter)
        invariant epWhite == undo.oldEnPassantFlags.white && epBlack == undo.oldEnPassantFlags.black
      {
        assert undo.movedPieces[..i + 1][..i] == undo.movedPieces[..i];
        layout := SetSq(layout, undo.movedPieces[i].posn, undo.movedPieces[i].piece);
        i := i + 1;
      }
      assert undo.movedPieces[..i] == undo.movedPieces;
    }

    /**
     * isLegalMove. `inCheck` is the king-safety test; data.py runs it on the
     * board after the hypothetical ply, structs.py after undoing it.
     */
    method IsLegalMove(color: Color, from: Posn, to: Posn, inCheck: (BoardState, Color) -> bool) returns (r: Outcome<bool>)
      requires Valid()
      modifies this, epWhite, epBlack
      ensures Valid() && epWhite == old(epWhite) && epBlack == old(epBlack)
      ensures r == BoardMoves.Legality(version, old(State()), color, from, to, inCheck)
      ensures State() == BoardMoves.AfterLegalityCheck(version, old(State()), color, from, to)
    {
      ghost var s := State();
      var passed := StaticChecksOf(color, from, to);
      if passed != Ok(true) {
        return passed;
      }
      BoardMoves.PassingStaticChecks(version, s, color, from, to);
      var kingInCheck := TryPly(color, from, to, inCheck);
      r := Ok(!kingInCheck);
    }

    /** The hypothetical ply of isLegalMove: getPlyResult, the king-safety test, undoPlyResult. */
    method TryPly(color: Color, from: Posn, to: Posn, inCheck: (BoardState, Color) -> bool) returns (kingInCheck: bool)
      requires Valid() && BoardMoves.CanExecute(State(), from, to) && At(State(), from).value.color == color
      modifies this, epWhite, epBlack
      ensures Valid() && epWhite == old(epWhite) && epBlack == old(epBlack)
      ensures kingInCheck == inCheck(BoardMoves.CheckedBoard(version, old(State()), from, to), color)
      ensures State() == BoardMoves.AfterUndo(version, old(State()), from, to)
    {
      ghost var s := State();
      ghost var e := BoardMoves.ExecutePly(version, s, color, from, to);
      var undo := GetPlyResult(from, to);
      assert State() == e.state;
      if version == Legacy {
        kingInCheck := inCheck(State(), color);
        UndoPlyResult(undo);
      } else {
        UndoPlyResult(undo);
        kingInCheck := inCheck(State(), color);
      }
      assert State() == BoardMoves.AfterUndo(version, s, from, to);
    }

    /** isLegalMove's checks before the hypothetical ply, in the source's order. */
    method StaticChecksOf(color: Color, from: Posn, to: Posn) returns (r: Outcome<bool>)
      requires Valid()
      ensures r == StaticChecks(version, State(), color, from, to)
    {
      var inPattern := MovementInPattern(version, State(), color, from, to);
      var destin := At(State(), to);
      if inPattern.Raise? {
        return Raise(inPattern.error);
      } else if !inPattern.value {
        return Ok(false);
      } else if destin.Some? && destin.value.color == color {
        return Ok(false);
      } else if destin.Some? && destin.value.kind == King {
        return Ok(false);
      } else if from == to {
        return Ok(false);
      } else if !OnBoard(to) {
        return Ok(false);
      }
      return Ok(true);
    }

    /** makePly: isLegalMove's verdict, and _executePly when it is true. */
    method MakePly(color: Color, from: Posn, to: Posn, inCheck: (BoardState, Color) -> bool) returns (r: Outcome<bool>)
      requires Valid()
      modifies this, epWhite, epBlack
      ensures Valid()
      ensures (epWhite == old(epWhite) || fresh(epWhite)) && (epBlack == old(epBlack) || fresh(epBlack))
      ensures r == BoardMoves.MakePly(version, old(State()), color, from, to, inCheck).verdict
      ensures State() == BoardMoves.MakePly(version, old(State()), color, from, to, inCheck).state
    {
      ghost var s := State();
      ghost var outcome := BoardMoves.MakePly(version, s, color, from, to, inCheck);
      r := IsLegalMove(color, from, to, inCheck);
      ghost var t := State();
      if r == Ok(true) {
        BoardMoves.PassingStaticChecks(version, s, color, from, to);
        if At(State(), from).None? {
          // movedPiece.pieceType on None, after the mover's flags were reset
          ResetFlags(color);
          r := Raise(AttributeError);
        } else {
          var _ := ExecutePly(color, from, to);
          assert State() == BoardMoves.ExecutePly(version, t, color, from, to).state;
        }
      } else {
        assert outcome == BoardMoves.PlyOutcome(r, t);
      }
    }

    /** `self.flag_enpassant[color] = [False] * 8`: a new list for the mover. */
    method ResetFlags(color: Color)
      requires Valid()
      modifies this
      ensures Valid() && fresh(EnPassantList(color)) && EnPassantList(OtherColor(color)) == old(EnPassantList(OtherColor(color)))
      ensures State() == old(State()).(enPassant := old(State()).enPassant.Set(color, Repeat(false, BoardSize)))
    {
      var newFlags := new bool[BoardSize](_ => false);
      if color == White { epWhite := newFlags; } else { epBlack := newFlags; }
      assert newFlags[..] == Repeat(false, BoardSize);
    }

    /** __isLegal_isClearLinearPath. */
    method IsClearLinearPath(from: Posn, to: Posn) returns (clear: bool)
      requires Valid()
      ensures clear == ClearPath(State(), from, to)
    {
      var pathPosns := GetSquaresInPath(from, to);
      if |pathPosns| == 0 && (Abs(to.rank - from.rank) > 1 || Abs(to.file - from.file) > 1) {
        return false;
      }
      var i := 0;
      while i < |pathPosns|
        invariant 0 <= i <= |pathPosns|
        invariant forall k :: 0 <= k < i ==> At(State(), pathPosns[k]).None?
      {
        if At(State(), pathPosns[i]).Some? {
          return false;
        }
        i := i + 1;
      }
      return true;
    }

    /** getPiecesOfColor; ChessBoardUtils.findPiecePosnsByColor computes the same list. */
    method GetPiecesOfColor(color: Color) returns (pieceLocations: seq<Posn>)
      requires Valid()
      ensures forall p :: p in pieceLocations <==> OnBoard(p) && OwnedBy(State(), p, color)
      ensures forall i, j :: 0 <= i < j < |pieceLocations| ==> SquareIndex(pieceLocations[i]) < SquareIndex(pieceLocations[j])
    {
      pieceLocations := [];
      var rankN := 0;
      while rankN < BoardSize
        invariant 0 <= rankN <= BoardSize
        invariant forall p :: p in pieceLocations <==> OnBoard(p) && p.rank < rankN && OwnedBy(State(), p, color)
        invariant forall i, j :: 0 <= i < j < |pieceLocations| ==> SquareIndex(pieceLocations[i]) < SquareIndex(pieceLocations[j])
        invariant forall i :: 0 <= i < |pieceLocations| ==> SquareIndex(pieceLocations[i]) < rankN * BoardSize
      {
        var fileN := 0;
        while fileN < BoardSize
          invariant 0 <= fileN <= BoardSize
          invariant forall p :: p in pieceLocations <==>
            OnBoard(p) && (p.rank < rankN || (p.rank == rankN && p.file < fileN)) && OwnedBy(State(), p, color)
          invariant forall i, j :: 0 <= i < j < |pieceLocations| ==> SquareIndex(pieceLocations[i]) < SquareIndex(pieceLocations[j])
          invariant forall i :: 0 <= i < |pieceLocations| ==> SquareIndex(pieceLocations[i]) < rankN * BoardSize + fileN
        {
          var posn := Posn(rankN, fileN);
          var piece := At(State(), posn);
          if piece.Some? && piece.value.color == color {
            pieceLocations := pieceLocations + [posn];
          }
          fileN := fileN + 1;
        }
        rankN := rankN + 1;
      }
    }

    /** __isLegalMove_findKings: the first king of the colour in rank-major order. */
    method FindKings(color: Color) returns (r: Outcome<Posn>)
      requires Valid()
      ensures r.Ok? ==> OnBoard(r.value) && At(State(), r.value) == Some(Piece(color, King))
      ensures r.Ok? ==> forall p :: OnBoard(p) && SquareIndex(p) < SquareIndex(r.value) ==> At(State(), p) != Some(Piece(color, King))
      ensures r.Raise? ==> r.error == MaverickDataException && forall p :: OnBoard(p) ==> At(State(), p) != Some(Piece(color, King))
    {
      var rk := 0;
      while rk < BoardSize
        invariant 0 <= rk <= BoardSize
        invariant forall p :: OnBoard(p) && p.rank < rk ==> At(State(), p) != Some(Piece(color, King))
      {
        var f := 0;
        while f < BoardSize
          invariant 0 <= f <= BoardSize
          invariant forall p :: OnBoard(p) && (p.rank < rk || (p.rank == rk && p.file < f)) ==> At(State(), p) != Some(Piece(color, King))
        {
          var piecePosn := Posn(rk, f);
          var piece := At(State(), piecePosn);
          if piece.Some? && piece.value.kind == King && piece.value.color == color {
            return Ok(piecePosn);
          }
          f := f + 1;
        }
        rk := rk + 1;
      }
      return Raise(MaverickDataException);
    }
  }

  /** `for r in range(start, stop, step)`, keeping the values not in [start, stop]. */
  method RangeBetween(start: int, stop: int, step: int) returns (values: seq<int>)
    requires step == (if stop > start then 1 else -1)
    ensures values == Between(start, stop)
  {
    values := [];
    var r := start;
    while if step == 1 then r < stop else r > stop
      invariant if step == 1 then start <= r <= stop else stop <= r <= start
      invariant values == seq(if r == start then 0 else Abs(r - start) - 1, i => start + (i + 1) * step)
      decreases Abs(stop - r)
    {
      if r != start && r != stop {
        values := values + [r];
      }
      r := r + step;
    }
  }

  /** __isLegal_getSquaresInPath. */
  method GetSquaresInPath(from: Posn, to: Posn) returns (pathPosns: seq<Posn>)
    ensures pathPosns == PathSquares(from, to)
  {
    var rankDeltaAbs := Abs(to.rank - from.rank);
    var fileDeltaAbs := Abs(to.file - from.file);
    var pathRankValues: seq<int> := [];
    var pathFileValues: seq<int> := [];
    var rankStep := if to.rank > from.rank then 1 else -1;
    var fileStep := if to.file > from.file then 1 else -1;
    if rankDeltaAbs == fileDeltaAbs {
      pathRankValues := RangeBetween(from.rank, to.rank, rankStep);
      pathFileValues := RangeBetween(from.file, to.file, fileStep);
    } else if rankDeltaAbs == 0 {
      pathFileValues := RangeBetween(from.file, to.file, fileStep);
      pathRankValues := Repeat(from.rank, |pathFileValues|);
    } else {
      pathRankValues := RangeBetween(from.rank, to.rank, rankStep);
      pathFileValues := Repeat(from.file, |pathRankValues|);
    }
    // zip, then one ChessPosn per pair
    pathPosns := [];
    var n := if |pathRankValues| < |pathFileValues| then |pathRankValues| else |pathFileValues|;
    var i := 0;
    while i < n
      invariant 0 <= i <= n && |pathPosns| == i
      invariant forall k :: 0 <= k < i ==> pathPosns[k] == Posn(pathRankValues[k], pathFileValues[k])
    {
      pathPosns := pathPosns + [Posn(pathRankValues[i], pathFileValues[i])];
      i := i + 1;
    }
  }
}
