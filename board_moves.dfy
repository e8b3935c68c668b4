/**
 * The effect of a ply on a board state: _executePly, the undo list that
 * getPlyResult records and undoPlyResult replays, and the verdict of
 * isLegalMove and makePly, as functions of the board's fields.
 */
module BoardMoves {
  import opened ChessTypes
  import opened BoardRules

  /** One entry of the list _executePly returns: what stood on a square before the ply. */
  datatype Restore = Restore(piece: Square, posn: Posn)

  datatype Executed = Executed(state: BoardState, moved: seq<Restore>)

  /** A king move of two files, which drags a rook along. */
  predicate IsCastle(piece: Piece, from: Posn, to: Posn)
  {
    piece.kind == King && Abs(to.file - from.file) == 2
  }

  function RookFrom(from: Posn, to: Posn): Posn
  {
    Posn(to.rank, if to.file - from.file > 0 then 7 else 0)
  }

  function RookDest(from: Posn, to: Posn): Posn
  {
    Posn(to.rank, if to.file - from.file > 0 then 5 else 3)
  }

  /** The square of the pawn taken en passant by a mover of colour c landing on `to`. */
  function EpVictim(c: Color, to: Posn): Posn
  {
    Posn(EpCaptureRank(c) - Forward(c), to.file)
  }

  /** A two-rank pawn advance from the start rank, which sets the mover's flag for that file. */
  predicate IsDoubleStep(piece: Piece, color: Color, from: Posn, to: Posn)
  {
    piece.kind == Pawn && from.rank == PawnStartRank(color) && Abs(to.rank - from.rank) == 2
  }

  /** The castle rights of the mover after moving `piece` from `from`. */
  function CastleAfter(prev: Castle, piece: Piece, from: Posn): Castle
  {
    if piece.kind == King then Castle(false, false)
    else if piece.kind == Rook && from.file == 0 then Castle(false, prev.kingSide)
    else if piece.kind == Rook && from.file == 7 then Castle(prev.queenSide, false)
    else prev
  }

  predicate CanExecute(s: BoardState, from: Posn, to: Posn)
  {
    WellFormed(s) && At(s, from).Some? && OnBoard(to)
  }

  /** The fields _executePly works on, part way through. */
  datatype Stage = Stage(
    layout: seq<seq<Square>>,
    moverFlags: seq<bool>,
    otherFlags: seq<bool>,
    castle: Castle,
    counter: int,
    moved: seq<Restore>)

  predicate StageOk(st: Stage)
  {
    Grid(st.layout) && |st.moverFlags| == BoardSize && |st.otherFlags| == BoardSize
    && forall i :: 0 <= i < |st.moved| ==> OnBoard(st.moved[i].posn)
  }

  /**
   * Up to the capture test: empty the origin, give the mover a fresh flag
   * list, update its castle rights and the draw counter, flag a double step,
   * note what stands on the destination, and (structs.py) clear the
   * opponent's flag on that file when a pawn stands there.
   */
  function LiftStage(v: Version, s: BoardState, color: Color, from: Posn, to: Posn): (st: Stage)
    requires CanExecute(s, from, to)
    ensures StageOk(st)
  {
    var piece := At(s, from).value;
    var l1 := SetSq(s.layout, from, None);
    var destOld := GetSq(l1, to);
    var counter := if v == Structs then (if destOld.Some? then 0 else s.drawCounter) + 1 else s.drawCounter;
    var moverFlags :=
      if IsDoubleStep(piece, color, from, to) then Repeat(false, BoardSize)[from.file := true] else Repeat(false, BoardSize);
    var otherFlags :=
      if v == Structs && destOld.Some? && destOld.value.kind == Pawn
      then s.enPassant.Get(OtherColor(color))[to.file := false] else s.enPassant.Get(OtherColor(color));
    Stage(l1, moverFlags, otherFlags, CastleAfter(s.canCastle.Get(color), piece, from), counter,
          [Restore(Some(piece), from), Restore(destOld, to)])
  }

  /** Put the piece on the destination; a castling king drags the rook along. */
  function PlaceStage(st: Stage, piece: Piece, from: Posn, to: Posn): (r: Stage)
    requires StageOk(st) && OnBoard(to)
    ensures StageOk(r) && st.moved <= r.moved
  {
    var l2 := SetSq(st.layout, to, Some(piece));
    if IsCastle(piece, from, to) then
      var rook := GetSq(l2, RookFrom(from, to));
      st.(layout := SetSq(SetSq(l2, RookFrom(from, to), None), RookDest(from, to), rook),
          moved := st.moved + [Restore(GetSq(l2, RookDest(from, to)), RookDest(from, to)), Restore(rook, RookFrom(from, to))])
    else st.(layout := l2)
  }

  /** An en-passant capture removes the passed pawn and clears the opponent's flag on that file. */
  function EnPassantStage(st: Stage, piece: Piece, color: Color, to: Posn): (r: Stage)
    requires StageOk(st) && OnBoard(to)
    ensures StageOk(r) && st.moved <= r.moved
  {
    if piece.kind == Pawn && st.otherFlags[to.file] && to.rank == EpCaptureRank(color) then
      var victim := EpVictim(color, to);
      st.(layout := SetSq(st.layout, victim, None),
          otherFlags := st.otherFlags[to.file := false],
          moved := st.moved + [Restore(GetSq(st.layout, victim), victim)])
    else st
  }

  /** _executePly, in the order of the source. */
  function ExecutePly(v: Version, s: BoardState, color: Color, from: Posn, to: Posn): (e: Executed)
    requires CanExecute(s, from, to)
    ensures WellFormed(e.state)
    // the mover's flags are all false except the origin file after a double step
    ensures forall f :: 0 <= f < BoardSize ==>
      e.state.enPassant.Get(color)[f] == (IsDoubleStep(At(s, from).value, color, from, to) && f == from.file)
    // the mover's castle rights follow the moved piece; the opponent's are untouched
    ensures e.state.canCastle.Get(color) == CastleAfter(s.canCastle.Get(color), At(s, from).value, from)
    ensures e.state.canCastle.Get(OtherColor(color)) == s.canCastle.Get(OtherColor(color))
    // the opponent's flags only ever go from true to false
    ensures forall f :: 0 <= f < BoardSize && e.state.enPassant.Get(OtherColor(color))[f] ==> s.enPassant.Get(OtherColor(color))[f]
    // the undo list starts with the moved piece and what stood on the destination
    ensures |e.moved| >= 2 && e.moved[0] == Restore(At(s, from), from) && e.moved[1].posn == to
    ensures forall i :: 0 <= i < |e.moved| ==> OnBoard(e.moved[i].posn)
  {
    var piece := At(s, from).value;
    var st := EnPassantStage(PlaceStage(LiftStage(v, s, color, from, to), piece, from, to), piece, color, to);
    Executed(
      BoardState(st.layout,
                 s.enPassant.Set(color, st.moverFlags).Set(OtherColor(color), st.otherFlags),
                 s.canCastle.Set(color, st.castle),
                 st.counter),
      st.moved)
  }

  /** undoPlyResult's loop: writes every recorded piece back, in list order. */
  function Replay(layout: seq<seq<Square>>, moved: seq<Restore>): (r: seq<seq<Square>>)
    requires Grid(layout) && forall i :: 0 <= i < |moved| ==> OnBoard(moved[i].posn)
    ensures Grid(r)
    decreases |moved|
  {
    if |moved| == 0 then layout
    else SetSq(Replay(layout, moved[..|moved| - 1]), moved[|moved| - 1].posn, moved[|moved| - 1].piece)
  }

  /**
   * The board after getPlyResult then undoPlyResult. The undo record holds
   * a shallow copy of each flag dict: the castle rights and the mover's old
   * flag list come back, the opponent's list is the one _executePly wrote to,
   * and the layout is whatever the replay of the undo list leaves.
   */
  function AfterUndo(v: Version, s: BoardState, from: Posn, to: Posn): (r: BoardState)
    requires CanExecute(s, from, to)
    ensures WellFormed(r)
    ensures r.canCastle == s.canCastle
    ensures r.enPassant.Get(At(s, from).value.color) == s.enPassant.Get(At(s, from).value.color)
  {
    var color := At(s, from).value.color;
    var e := ExecutePly(v, s, color, from, to);
    BoardState(
      Replay(e.state.layout, e.moved),
      s.enPassant.Set(OtherColor(color), e.state.enPassant.Get(OtherColor(color))),
      s.canCastle,
      e.state.drawCounter)
  }

  /**
   * The board that the king-safety test examines: in structs.py the board
   * after the undo, whose castle rights and mover's flags are back; in
   * data.py the board after the ply, whose mover's rights follow the moved
   * piece.
   */
  function CheckedBoard(v: Version, s: BoardState, from: Posn, to: Posn): (r: BoardState)
    requires CanExecute(s, from, to)
    ensures WellFormed(r)
    ensures v.Structs? ==>
      r.canCastle == s.canCastle
      && r.enPassant.Get(At(s, from).value.color) == s.enPassant.Get(At(s, from).value.color)
    ensures v.Legacy? ==>
      r.canCastle.Get(At(s, from).value.color) == CastleAfter(s.canCastle.Get(At(s, from).value.color), At(s, from).value, from)
      && r.canCastle.Get(OtherColor(At(s, from).value.color)) == s.canCastle.Get(OtherColor(At(s, from).value.color))
  {
    if v == Structs then AfterUndo(v, s, from, to)
    else ExecutePly(v, s, At(s, from).value.color, from, to).state
  }

  lemma PassingStaticChecks(v: Version, s: BoardState, color: Color, from: Posn, to: Posn)
    requires WellFormed(s) && StaticChecks(v, s, color, from, to) == Ok(true)
    ensures CanExecute(s, from, to) && At(s, from).value.color == color
  {
  }

  /**
   * isLegalMove. `inCheck(board, color)` stands for the king-safety test
   * (pieceCheckingKing(color) is not None in structs.py,
   * isKingInCheck(color)[0] in data.py).
   */
  function Legality(v: Version, s: BoardState, color: Color, from: Posn, to: Posn, inCheck: (BoardState, Color) -> bool): (r: Outcome<bool>)
    requires WellFormed(s)
    ensures r.Raise? <==> MovementInPattern(v, s, color, from, to).Raise?
    ensures r.Raise? ==> r.error == IndexError
    ensures r == Ok(true) ==> StaticChecks(v, s, color, from, to) == Ok(true)
  {

    match StaticChecks(v, s, color, from, to)
    case Raise(e) => Raise(e)
    case Ok(passed) =>
      if !passed then Ok(false)
      else
        PassingStaticChecks(v, s, color, from, to);
        Ok(!inCheck(CheckedBoard(v, s, from, to), color))
  }

  /**
   * isLegalMove refuses an origin without a piece of the mover's colour;
   * a ply it accepts starts from the mover's piece, moves in the piece's
   * pattern, lands on an empty square or an enemy piece other than a king,
   * inside the board and away from the origin, and leaves the king safe;
   * and a ply that passes every one of those checks is answered by the
   * king-safety test alone.
   */
  lemma LegalityRejects(v: Version, s: BoardState, color: Color, from: Posn, to: Posn, inCheck: (BoardState, Color) -> bool)
    requires WellFormed(s)
    ensures At(s, from).None? || At(s, from).value.color != color ==> Legality(v, s, color, from, to, inCheck) == Ok(false)
    ensures Legality(v, s, color, from, to, inCheck) == Ok(true) ==>
      At(s, from).Some? && At(s, from).value.color == color
      && (At(s, to).None? || (At(s, to).value.color != color && At(s, to).value.kind != King))
      && from != to && OnBoard(to)
      && MovementInPattern(v, s, color, from, to) == Ok(true)
      && CanExecute(s, from, to) && !inCheck(CheckedBoard(v, s, from, to), color)
    ensures (At(s, from).Some? && At(s, from).value.color == color
             && (At(s, to).None? || (At(s, to).value.color != color && At(s, to).value.kind != King))
             && from != to && OnBoard(to)
             && MovementInPattern(v, s, color, from, to) == Ok(true)) ==>
        CanExecute(s, from, to)
        && Legality(v, s, color, from, to, inCheck) == Ok(!inCheck(CheckedBoard(v, s, from, to), color))
  {
  }

  /** The board once isLegalMove has returned: changed only when the ply was tried. */
  function AfterLegalityCheck(v: Version, s: BoardState, color: Color, from: Posn, to: Posn): (r: BoardState)
    requires WellFormed(s)
    ensures WellFormed(r)
  {
    if StaticChecks(v, s, color, from, to) == Ok(true) then
      PassingStaticChecks(v, s, color, from, to);
      AfterUndo(v, s, from, to)
    else s
  }

  datatype PlyOutcome = PlyOutcome(verdict: Outcome<bool>, state: BoardState)

  /**
   * ChessBoard.makePly: the legality verdict, and _executePly on the board
   * isLegalMove left behind when the verdict is true. If the undo left the
   * origin empty, `movedPiece.pieceType` raises AttributeError, after the
   * mover's flag list has already been replaced by eight false flags.
   */
  function MakePly(v: Version, s: BoardState, color: Color, from: Posn, to: Posn, inCheck: (BoardState, Color) -> bool): (r: PlyOutcome)
    requires WellFormed(s)
    ensures WellFormed(r.state)
    // the verdict is isLegalMove's, unless an accepted ply raises
    ensures r.verdict != Legality(v, s, color, from, to, inCheck) ==>
      r.verdict == Raise(AttributeError) && Legality(v, s, color, from, to, inCheck) == Ok(true)
    // a refused ply leaves the board isLegalMove left
    ensures Legality(v, s, color, from, to, inCheck) != Ok(true) ==> r.state == AfterLegalityCheck(v, s, color, from, to)
  {
    var verdict := Legality(v, s, color, from, to, inCheck);
    var t := AfterLegalityCheck(v, s, color, from, to);
    if verdict == Ok(true) then
      PassingStaticChecks(v, s, color, from, to);
      if At(t, from).Some? then PlyOutcome(Ok(true), ExecutePly(v, t, color, from, to).state)
      else PlyOutcome(Raise(AttributeError), t.(enPassant := t.enPassant.Set(color, Repeat(false, BoardSize))))
    else PlyOutcome(verdict, t)
  }
}
