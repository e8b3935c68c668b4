/**
 * The stand-alone server of maverick-chess (server/TournamentSystem.py):
 * a 1-indexed ChessBoard whose squares are read as board[rank - 1][file - 1]
 * (so ranks and files 0 down to -7 wrap round to the far end), its
 * ChessMatch and its TournamentSystem. This board never reads its
 * en-passant flags, never writes a flag that could change, and neither
 * castles a rook nor captures en passant. The king-safety test
 * (isKingInCheck, mutually recursive with isLegalMove) and isCheckMated are
 * parameters `inCheck(layout, color)` and `checkmated(layout, color)`, each
 * of which may raise: findKingAndEnemies raises UnboundLocalError on a
 * board without the colour's king, and nothing stops a piece from
 * capturing a king.
 */
module MaverickChess {
  import opened ChessTypes
  import opened BoardRules
  import opened Match
  import BoardPaths
  import Server

  // ---------------------------------------------------------------------
  // Squares, 1-indexed
  // ---------------------------------------------------------------------

  /** `xs[i - 1]` on a list of eight is defined for -7 <= i <= 8. */
  predicate Addressable(i: int)
  {
    -(BoardSize - 1) <= i <= BoardSize
  }

  predicate Addressed(p: Posn)
  {
    Addressable(p.rank) && Addressable(p.file)
  }

  /** A rank and a file in range(1, 9). */
  predicate OnBoard1(p: Posn)
  {
    1 <= p.rank <= BoardSize && 1 <= p.file <= BoardSize
  }

  /** The list index `xs[i - 1]` reads: i - 1, or counted from the end when that is negative. */
  function Slot(i: int): (k: int)
    requires Addressable(i)
    ensures 0 <= k < BoardSize
    ensures k == i - 1 || k == i - 1 + BoardSize
  {
    if i >= 1 then i - 1 else i - 1 + BoardSize
  }

  /** The 0-indexed cell of the grid that 1-indexed `p` denotes. */
  function Cell(p: Posn): (c: Posn)
    requires Addressed(p)
    ensures OnBoard(c)
  {
    Posn(Slot(p.rank), Slot(p.file))
  }

  lemma CellOnBoard(p: Posn)
    requires OnBoard1(p)
    ensures Addressed(p) && Cell(p) == Posn(p.rank - 1, p.file - 1)
  {
  }

  /** self.board[rank - 1][file - 1], which raises IndexError outside -7..8. */
  function Lookup(b: seq<seq<Square>>, p: Posn): (r: Outcome<Square>)
    requires Grid(b)
    ensures r.Ok? <==> Addressed(p)
    ensures r.Raise? ==> r.error == IndexError
    ensures r.Ok? ==> r.value == GetSq(b, Cell(p))
  {
    match PyIndex(b, p.rank - 1)
    case Raise(e) => Raise(e)
    case Ok(row) => PyIndex(row, p.file - 1)
  }

  /** self.board[rank - 1][file - 1] = sq. */
  function Store(b: seq<seq<Square>>, p: Posn, sq: Square): (r: seq<seq<Square>>)
    requires Grid(b) && Addressed(p)
    ensures Grid(r) && GetSq(r, Cell(p)) == sq
    ensures forall q :: OnBoard(q) && q != Cell(p) ==> GetSq(r, q) == GetSq(b, q)
  {
    SetSq(b, Cell(p), sq)
  }

  /** One rank of pieces behind the pawns: R N B Q K B N R. */
  function BackRank(c: Color): seq<Square>
  {
    [Some(Piece(c, Rook)), Some(Piece(c, Knight)), Some(Piece(c, Bishop)), Some(Piece(c, Queen)),
     Some(Piece(c, King)), Some(Piece(c, Bishop)), Some(Piece(c, Knight)), Some(Piece(c, Rook))]
  }

  /** STARTING_BOARD, rank 1 first. */
  function StartingBoard(): (b: seq<seq<Square>>)
    ensures Grid(b)
  {
    [BackRank(White), Repeat(Some(Piece(White, Pawn)), BoardSize),
     Repeat(None, BoardSize), Repeat(None, BoardSize), Repeat(None, BoardSize), Repeat(None, BoardSize),
     Repeat(Some(Piece(Black, Pawn)), BoardSize), BackRank(Black)]
  }

  /** PAWN_STARTING_RANKS: {White: 2, Black: 7}. */
  function StartRank(c: Color): int
  {
    if c == White then 2 else 7
  }

  /**
   * The starting board holds the kings on e1 and e8, the pawns on their
   * starting ranks, and nothing on ranks 3 to 6.
   */
  lemma StartingPosition()
    ensures Lookup(StartingBoard(), Posn(1, 5)) == Ok(Some(Piece(White, King)))
    ensures Lookup(StartingBoard(), Posn(8, 5)) == Ok(Some(Piece(Black, King)))
    ensures forall c: Color, f :: 1 <= f <= BoardSize ==> Lookup(StartingBoard(), Posn(StartRank(c), f)) == Ok(Some(Piece(c, Pawn)))
    ensures forall r, f :: 3 <= r <= 6 && 1 <= f <= BoardSize ==> Lookup(StartingBoard(), Posn(r, f)) == Ok(None)
  {
    var b := StartingBoard();
    forall c: Color, f | 1 <= f <= BoardSize
      ensures Lookup(b, Posn(StartRank(c), f)) == Ok(Some(Piece(c, Pawn)))
    {
      CellOnBoard(Posn(StartRank(c), f));
    }
    forall r, f | 3 <= r <= 6 && 1 <= f <= BoardSize
      ensures Lookup(b, Posn(r, f)) == Ok(None)
    {
      CellOnBoard(Posn(r, f));
    }
  }

  // ---------------------------------------------------------------------
  // Paths (getSquaresInPath, isClearLinearPath)
  // ---------------------------------------------------------------------

  /**
   * getSquaresInPath. The diagonal and horizontal branches pair the
   * strictly intermediate ranks and files. Every other move, straight or
   * not, falls into the vertical branch, which pairs the intermediate
   * ranks with `[fromFile] * len(path_file_values)`: that list is still
   * empty there, so the zip is empty.
   */
  function SquaresInPath(from: Posn, to: Posn): (r: seq<Posn>)
    ensures from.file == to.file ==> r == []
    ensures |r| < Distance(from, to) || r == []
  {
    var rd := Abs(to.rank - from.rank);
    var fd := Abs(to.file - from.file);
    if rd == fd then Zip(Between(from.rank, to.rank), Between(from.file, to.file))
    else if rd == 0 then Zip(Repeat(from.rank, |Between(from.file, to.file)|), Between(from.file, to.file))
    else Zip(Between(from.rank, to.rank), Repeat(from.file, 0))
  }

  /**
   * Diagonal and horizontal paths are those of the 0-indexed engine; a
   * path that is neither, vertical ones included, is empty.
   */
  lemma SquaresInPathBranches(from: Posn, to: Posn)
    ensures from.rank == to.rank || Abs(to.rank - from.rank) == Abs(to.file - from.file) ==>
      SquaresInPath(from, to) == PathSquares(from, to)
    ensures from.rank != to.rank && Abs(to.rank - from.rank) != Abs(to.file - from.file) ==>
      SquaresInPath(from, to) == []
  {
  }

  /**
   * For a diagonal or horizontal move, the path is exactly the strictly
   * intermediate squares, in order from the origin.
   */
  lemma DiagonalOrHorizontalPath(from: Posn, to: Posn)
    requires from.rank == to.rank || Abs(to.rank - from.rank) == Abs(to.file - from.file)
    requires from != to
    ensures |SquaresInPath(from, to)| == Distance(from, to) - 1
    ensures forall k :: 0 <= k < |SquaresInPath(from, to)| ==> SquaresInPath(from, to)[k] == SegmentPoint(from, to, k + 1)
  {
    SquaresInPathBranches(from, to);
    BoardPaths.PathSquaresExact(from, to);
  }

  /** The values strictly between a and b lie strictly between them. */
  lemma BetweenInside(a: int, b: int)
    ensures forall i :: 0 <= i < |Between(a, b)| ==>
      (a < b ==> a < Between(a, b)[i] < b) && (b < a ==> b < Between(a, b)[i] < a)
  {
    forall i | 0 <= i < |Between(a, b)|
      ensures (a < b ==> a < Between(a, b)[i] < b) && (b < a ==> b < Between(a, b)[i] < a)
    {
      if a < b {
        assert Between(a, b)[i] == a + (i + 1);
      } else if b < a {
        assert Between(a, b)[i] == a - (i + 1);
      }
    }
  }

  /** A path between two addressable squares reads only addressable squares, so it never raises. */
  lemma PathAddressed(from: Posn, to: Posn)
    requires Addressed(from) && Addressed(to)
    ensures forall i :: 0 <= i < |SquaresInPath(from, to)| ==> Addressed(SquaresInPath(from, to)[i])
  {
    BetweenInside(from.rank, to.rank);
    BetweenInside(from.file, to.file);
    var path := SquaresInPath(from, to);
    var br := Between(from.rank, to.rank);
    var bf := Between(from.file, to.file);
    forall i | 0 <= i < |path|
      ensures Addressed(path[i])
    {
      var rd := Abs(to.rank - from.rank);
      var fd := Abs(to.file - from.file);
      if rd == fd {
        assert path[i] == Posn(br[i], bf[i]);
      } else {
        assert rd == 0;
        assert path[i] == Posn(from.rank, bf[i]);
      }
    }
  }

  /**
   * isClearLinearPath: no empty path for a move of more than one square, and
   * nothing on the path; a move to a neighbouring square is always clear.
   */
  function ClearLinearPath(b: seq<seq<Square>>, from: Posn, to: Posn): (r: bool)
    requires Grid(b)
    ensures Distance(from, to) <= 1 ==> r
  {
    var path := SquaresInPath(from, to);
    !(|path| == 0 && (Abs(to.rank - from.rank) > 1 || Abs(to.file - from.file) > 1))
    && forall i :: 0 <= i < |path| ==> Lookup(b, path[i]) == Ok(None)
  }

  /** Because the vertical path is empty, no vertical slide of more than one square is ever clear. */
  lemma VerticalSlideBlocked(b: seq<seq<Square>>, from: Posn, to: Posn)
    requires Grid(b) && from.file == to.file && Abs(to.rank - from.rank) > 1
    ensures !ClearLinearPath(b, from, to)
  {
    SquaresInPathBranches(from, to);
  }

  /** On a diagonal or horizontal line, the path is clear exactly when every intermediate square is empty. */
  lemma ClearLinearPathMeaning(b: seq<seq<Square>>, from: Posn, to: Posn)
    requires Grid(b) && Addressed(from) && Addressed(to) && from != to
    requires from.rank == to.rank || Abs(to.rank - from.rank) == Abs(to.file - from.file)
    ensures ClearLinearPath(b, from, to) <==>
      forall k :: 1 <= k < Distance(from, to) ==> Lookup(b, SegmentPoint(from, to, k)) == Ok(None)
  {
    DiagonalOrHorizontalPath(from, to);
    var path := SquaresInPath(from, to);
    if ClearLinearPath(b, from, to) {
      forall k | 1 <= k < Distance(from, to)
        ensures Lookup(b, SegmentPoint(from, to, k)) == Ok(None)
      {
        assert path[k - 1] == SegmentPoint(from, to, k);
      }
    }
    if forall k :: 1 <= k < Distance(from, to) ==> Lookup(b, SegmentPoint(from, to, k)) == Ok(None) {
      forall i | 0 <= i < |path|
        ensures Lookup(b, path[i]) == Ok(None)
      {
        assert path[i] == SegmentPoint(from, to, i + 1);
      }
    }
  }

  // ---------------------------------------------------------------------
  // The per-piece tests of isLegalMove
  // ---------------------------------------------------------------------

  /** The pawn's forward distance: (toRank - fromRank) * direction. */
  function Advance1(color: Color, from: Posn, to: Posn): int
  {
    (to.rank - from.rank) * Forward(color)
  }

  /** The pawn test: one or two squares forward, never straight ahead onto a piece, never diagonally onto an empty square. */
  function PawnMoveOk(color: Color, from: Posn, to: Posn, dest: Square): (r: bool)
    ensures r ==> Advance1(color, from, to) == 1 || Advance1(color, from, to) == 2
    ensures r && Advance1(color, from, to) == 1 && to.file == from.file ==> dest.None?
    ensures r && to.file != from.file ==> Advance1(color, from, to) == 1 && Abs(to.file - from.file) == 1 && dest.Some?
  {
    var rankDelta := Advance1(color, from, to);
    var fd := Abs(to.file - from.file);
    if rankDelta != 1 && rankDelta != 2 then false
    else if rankDelta == 1 then !(fd != 0 && fd != 1) && !(fd == 1 && dest.None?) && !(fd == 0 && dest.Some?)
    else fd == 0 && from.rank == StartRank(color)
  }

  /**
   * The pawn: one square ahead onto an empty square, one square diagonally
   * ahead onto an occupied one, or two squares straight ahead from the
   * starting rank, whatever stands on the two squares ahead.
   */
  lemma PawnMoveMeaning(color: Color, from: Posn, to: Posn, dest: Square)
    ensures PawnMoveOk(color, from, to, dest) <==>
      (Advance1(color, from, to) == 1 && to.file == from.file && dest.None?)
      || (Advance1(color, from, to) == 1 && Abs(to.file - from.file) == 1 && dest.Some?)
      || (Advance1(color, from, to) == 2 && to.file == from.file && from.rank == StartRank(color))
  {
  }

  /** The double step from the starting rank is accepted onto any square, over any square. */
  lemma PawnDoubleStepUnchecked(color: Color, from: Posn, to: Posn, dest: Square)
    requires from.rank == StartRank(color) && to == Posn(from.rank + 2 * Forward(color), from.file)
    ensures PawnMoveOk(color, from, to, dest)
  {
  }

  /** kingStartRank: 1 for White and 7 for Black. */
  function KingStartRank(c: Color): int
  {
    if c == White then 1 else 7
  }

  /**
   * The king. Only a move changing both the rank and the file by other
   * than one is compared with the castle squares (file 6 or 3 of rank
   * kingStartRank); the castle right is flag_canCastle[color].
   */
  function KingMoveOk(castle: Castle, color: Color, from: Posn, to: Posn): (r: bool)
    ensures Abs(to.rank - from.rank) > 1 && Abs(to.file - from.file) > 1 && r ==>
      to.rank == KingStartRank(color) && (castle.kingSide || castle.queenSide)
  {
    var rd := Abs(to.rank - from.rank);
    var fd := Abs(to.file - from.file);
    if fd != 1 && rd != 1 then
      if to.file == 6 && to.rank == KingStartRank(color) then castle.kingSide
      else if to.file == 3 && to.rank == KingStartRank(color) then castle.queenSide
      else false
    else true
  }

  /** Any king move changing the rank or the file by exactly one passes, however far it goes the other way. */
  lemma KingAdjacentLineUnbounded(castle: Castle, color: Color, from: Posn, to: Posn)
    requires Abs(to.rank - from.rank) == 1 || Abs(to.file - from.file) == 1
    ensures KingMoveOk(castle, color, from, to)
  {
  }

  /** Any other king move passes only onto (kingStartRank, 6) or (kingStartRank, 3), with the matching right. */
  lemma KingLongMoveLanding(castle: Castle, color: Color, from: Posn, to: Posn)
    requires Abs(to.rank - from.rank) != 1 && Abs(to.file - from.file) != 1
    ensures KingMoveOk(castle, color, from, to) <==>
      to.rank == KingStartRank(color) && ((to.file == 6 && castle.kingSide) || (to.file == 3 && castle.queenSide))
  {
  }

  /**
   * The test of isLegalMove for the kind of piece standing on the origin:
   * rooks keep a rank or a file, bishops a diagonal, queens a straight line,
   * and pawns go one or two squares forward.
   */
  function PieceMoveOk(b: seq<seq<Square>>, castle: Castle, color: Color, kind: Kind, from: Posn, to: Posn, dest: Square): (r: bool)
    requires Grid(b)
    ensures r && kind == Rook ==> from.rank == to.rank || from.file == to.file
    ensures r && kind == Bishop ==> Abs(to.rank - from.rank) == Abs(to.file - from.file)
    ensures r && kind == Queen ==> Straight(from, to)
    ensures r && kind == Pawn ==> Advance1(color, from, to) == 1 || Advance1(color, from, to) == 2
  {

    var rd := Abs(to.rank - from.rank);
    var fd := Abs(to.file - from.file);
    match kind
    case Pawn => PawnMoveOk(color, from, to, dest)
    case Rook => !(rd != 0 && fd != 0) && ClearLinearPath(b, from, to)
    case Knight => KnightPattern(from, to)
    case Bishop => rd == fd && ClearLinearPath(b, from, to)
    case Queen => !(rd != 0 && fd != 0 && rd != fd) && ClearLinearPath(b, from, to)
    case King => KingMoveOk(castle, color, from, to)
  }

  /** Rooks and queens never slide more than one square along a file. */
  lemma NoLongVerticalSlide(b: seq<seq<Square>>, castle: Castle, color: Color, kind: Kind, from: Posn, to: Posn, dest: Square)
    requires Grid(b) && (kind == Rook || kind == Queen)
    requires from.file == to.file && Abs(to.rank - from.rank) > 1
    ensures !PieceMoveOk(b, castle, color, kind, from, to, dest)
  {
    VerticalSlideBlocked(b, from, to);
  }

  // ---------------------------------------------------------------------
  // The three tests as evidently intended
  // ---------------------------------------------------------------------

  /**
   * isClearLinearPath with the vertical branch pairing each intermediate
   * rank with fromFile, as the 0-indexed engine's getSquaresInPath does.
   */
  predicate IntendedClearLinearPath(b: seq<seq<Square>>, from: Posn, to: Posn)
    requires Grid(b)
  {
    var path := PathSquares(from, to);
    !(|path| == 0 && (Abs(to.rank - from.rank) > 1 || Abs(to.file - from.file) > 1))
    && forall i :: 0 <= i < |path| ==> Lookup(b, path[i]) == Ok(None)
  }

  /** On any straight line, vertical ones included, the intended path is clear exactly when every intermediate square is empty. */
  lemma IntendedClearPathMeaning(b: seq<seq<Square>>, from: Posn, to: Posn)
    requires Grid(b) && Straight(from, to) && from != to
    ensures IntendedClearLinearPath(b, from, to) <==>
      forall k :: 1 <= k < Distance(from, to) ==> Lookup(b, SegmentPoint(from, to, k)) == Ok(None)
  {
    BoardPaths.PathSquaresExact(from, to);
    var path := PathSquares(from, to);
    if IntendedClearLinearPath(b, from, to) {
      forall k | 1 <= k < Distance(from, to)
        ensures Lookup(b, SegmentPoint(from, to, k)) == Ok(None)
      {
        assert path[k - 1] == SegmentPoint(from, to, k);
      }
    }
    if forall k :: 1 <= k < Distance(from, to) ==> Lookup(b, SegmentPoint(from, to, k)) == Ok(None) {
      forall i | 0 <= i < |path|
        ensures Lookup(b, path[i]) == Ok(None)
      {
        assert path[i] == SegmentPoint(from, to, i + 1);
      }
    }
  }

  /** The king test with "or" in place of "and": only a move of more than one square either way is a castle. */
  function IntendedKingMoveOk(castle: Castle, color: Color, from: Posn, to: Posn): bool
  {
    var rd := Abs(to.rank - from.rank);
    var fd := Abs(to.file - from.file);
    if fd > 1 || rd > 1 then
      if to.file == 6 && to.rank == KingStartRank(color) then castle.kingSide
      else if to.file == 3 && to.rank == KingStartRank(color) then castle.queenSide
      else false
    else true
  }

  /** The intended king moves one square any way, or lands on a castle square whose right it holds. */
  lemma IntendedKingMoveMeaning(castle: Castle, color: Color, from: Posn, to: Posn)
    ensures IntendedKingMoveOk(castle, color, from, to) <==>
      (Abs(to.rank - from.rank) <= 1 && Abs(to.file - from.file) <= 1)
      || (to.rank == KingStartRank(color) && ((to.file == 6 && castle.kingSide) || (to.file == 3 && castle.queenSide)))
  {
  }

  /**
   * The pawn test with the double step also asking for an empty square
   * in between (`middle`) and an empty destination.
   */
  function IntendedPawnMoveOk(color: Color, from: Posn, to: Posn, dest: Square, middle: Square): bool
  {
    PawnMoveOk(color, from, to, dest) && (Advance1(color, from, to) == 2 ==> middle.None? && dest.None?)
  }

  /** The intended pawn: the single steps as before, the double step from the start rank over and onto empty squares. */
  lemma IntendedPawnMoveMeaning(color: Color, from: Posn, to: Posn, dest: Square, middle: Square)
    ensures IntendedPawnMoveOk(color, from, to, dest, middle) <==>
      (Advance1(color, from, to) == 1 && to.file == from.file && dest.None?)
      || (Advance1(color, from, to) == 1 && Abs(to.file - from.file) == 1 && dest.Some?)
      || (Advance1(color, from, to) == 2 && to.file == from.file && from.rank == StartRank(color)
          && middle.None? && dest.None?)
  {
    PawnMoveMeaning(color, from, to, dest);
  }

  // ---------------------------------------------------------------------
  // getResultBoard and isLegalMove
  // ---------------------------------------------------------------------

  /** getResultBoard: a deep copy, origin emptied, the origin's entry written onto the destination. */
  function ResultBoard(b: seq<seq<Square>>, from: Posn, to: Posn): (r: seq<seq<Square>>)
    requires Grid(b) && Addressed(from) && Addressed(to)
    ensures Grid(r)
    ensures GetSq(r, Cell(to)) == GetSq(b, Cell(from))
    ensures Cell(from) != Cell(to) ==> GetSq(r, Cell(from)) == None
    ensures forall q :: OnBoard(q) && q != Cell(from) && q != Cell(to) ==> GetSq(r, q) == GetSq(b, q)
  {
    Store(Store(b, from, None), to, GetSq(b, Cell(from)))
  }

  /**
   * A king-safety or mate test on a layout. isKingInCheck finds the pieces
   * on the layout it is given but asks self.isLegalMove, which reads the
   * board's own layout, whether they attack; a parameter supplied per call
   * covers that mixture.
   */
  type KingTest = (seq<seq<Square>>, Color) -> Outcome<bool>

  /** Everything isLegalMove asks before the king-safety test, all passed. */
  predicate MovePasses(b: seq<seq<Square>>, castle: Castle, color: Color, from: Posn, to: Posn)
    requires Grid(b)
  {
    Addressed(from) && Addressed(to) && OnBoard1(to) && from != to
    && GetSq(b, Cell(from)).Some? && GetSq(b, Cell(from)).value.color == color
    && PieceMoveOk(b, castle, color, GetSq(b, Cell(from)).value.kind, from, to, GetSq(b, Cell(to)))
    && (GetSq(b, Cell(to)).None? || GetSq(b, Cell(to)).value.color != color)
  }

  /**
   * isLegalMove. Both squares are read first, so an unaddressable one
   * raises IndexError; then the piece's own test, the destination, the
   * distance, the board bounds, and the king-safety test on the board
   * the move would leave. The board that test reads is mixed: the
   * source's isKingInCheck finds the king and the enemy pieces on the
   * result board, but asks self.isLegalMove, which reads the current
   * board, whether each enemy piece reaches the king (lines 464-477), so
   * a discovered check goes unseen. `inCheck` is supplied with each
   * call, so it may close over the current board and model this.
   */
  function IsLegalMove(b: seq<seq<Square>>, castle: Castle, color: Color, from: Posn, to: Posn,
                       inCheck: KingTest): (r: Outcome<bool>)
    requires Grid(b)
    ensures !Addressed(from) || !Addressed(to) ==> r == Raise(IndexError)
    // otherwise only the king-safety test can raise
    ensures r.Raise? && Addressed(from) && Addressed(to) ==>
      MovePasses(b, castle, color, from, to) && r == inCheck(ResultBoard(b, from, to), color)
    ensures Addressed(from) && Addressed(to) && (GetSq(b, Cell(from)).None? || GetSq(b, Cell(from)).value.color != color) ==>
      r == Ok(false)
    ensures Addressed(from) && Addressed(to) && GetSq(b, Cell(to)).Some? && GetSq(b, Cell(to)).value.color == color ==>
      r == Ok(false)
    ensures Addressed(to) && (from == to || !OnBoard1(to)) ==> r != Ok(true)
    ensures r == Ok(true) ==>
      MovePasses(b, castle, color, from, to) && inCheck(ResultBoard(b, from, to), color) == Ok(false)
    ensures MovePasses(b, castle, color, from, to) ==>
      var test := inCheck(ResultBoard(b, from, to), color);
      (test.Raise? ==> r == test) && (test.Ok? ==> r == Ok(!test.value))
  {
    match Lookup(b, from)
    case Raise(e) => Raise(e)
    case Ok(origin) =>
      match Lookup(b, to)
      case Raise(e) => Raise(e)
      case Ok(destin) =>
        if origin.None? || origin.value.color != color then Ok(false)
        else if !PieceMoveOk(b, castle, color, origin.value.kind, from, to, destin) then Ok(false)
        else if destin.Some? && destin.value.color == color then Ok(false)
        else if from == to then Ok(false)
        else if !OnBoard1(to) then Ok(false)
        else match inCheck(ResultBoard(b, from, to), color)
          case Raise(e) => Raise(e)
          case Ok(attacked) => Ok(!attacked)
  }

  // ---------------------------------------------------------------------
  // ChessBoard
  // ---------------------------------------------------------------------

  /** Both castle rights held. */
  const FullRights: Castle := Castle(true, true)

  class ChessBoard {
    var board: seq<seq<Square>>
    var flagEnPassant: PerColor<seq<bool>>
    var flagCanCastle: PerColor<Castle>

    /** An 8x8 board whose flags are those the constructor set: they never change. */
    ghost predicate Valid()
      reads this
    {
      Grid(board)
      && flagEnPassant == PerColor(Repeat(false, BoardSize), Repeat(false, BoardSize))
      && flagCanCastle == PerColor(FullRights, FullRights)
    }

    constructor ()
      ensures Valid() && board == StartingBoard()
    {
      board := StartingBoard();
      flagEnPassant := PerColor(Repeat(false, BoardSize), Repeat(false, BoardSize));
      flagCanCastle := PerColor(FullRights, FullRights);
    }

    /**
     * makePly: isLegalMove's verdict; on a legal move the board becomes
     * getResultBoard's. The flags stay as they were: the mover's en-passant
     * flags are replaced by eight false flags, which they already were, and
     * every test `movedPiece == self.KING` (ROOK, PAWN) compares a (colour,
     * type) tuple with a one-letter string, which is never true, so neither
     * a castle right nor a double-step flag is written and the en-passant
     * capture never finds its flag set.
     */
    method MakePly(color: Color, from: Posn, to: Posn, inCheck: KingTest)
      returns (r: Outcome<bool>)
      requires Valid()
      modifies this
      ensures Valid()
      ensures flagEnPassant == old(flagEnPassant) && flagCanCastle == old(flagCanCastle)
      ensures r == IsLegalMove(old(board), FullRights, color, from, to, inCheck)
      ensures board == if r == Ok(true) then ResultBoard(old(board), from, to) else old(board)
    {
      var legal := IsLegalMove(board, flagCanCastle.Get(color), color, from, to, inCheck);
      if legal != Ok(true) {
        return legal;
      }
      var movedPiece := GetSq(board, Cell(from));
      board := Store(board, from, None);
      flagEnPassant := flagEnPassant.Set(color, Repeat(false, BoardSize));
      board := Store(board, to, movedPiece);
      return Ok(true);
    }
  }

  // ---------------------------------------------------------------------
  // ChessMatch
  // ---------------------------------------------------------------------

  /** The fields of a ChessMatch, with the board's layout in place of the board. */
  datatype Game = Game(layout: seq<seq<Square>>, players: PerColor<Option<int>>, status: Status, history: seq<Ply>)

  datatype GameResult = GameResult(game: Game, reply: Outcome<PlyReply>)

  /** One of the two mate tests raises: White's, or Black's after White's said no. */
  predicate MateTestRaises(after: seq<seq<Square>>, checkmated: KingTest)
  {
    checkmated(after, White).Raise? || (checkmated(after, White) == Ok(false) && checkmated(after, Black).Raise?)
  }

  /**
   * ChessMatch.makePly: the status, membership and turn tests, then the
   * board's makePly; on success the mate tests run on the new layout and
   * the ply is recorded afterwards, whether or not it mated. A mate test
   * that raises does so after the board has moved and before the ply is
   * recorded.
   */
  function GamePly(g: Game, player: int, from: Posn, to: Posn,
                   inCheck: KingTest, checkmated: KingTest): (r: GameResult)
    requires Grid(g.layout)
    ensures Grid(r.game.layout)
  {
    if g.status != Ongoing then GameResult(g, Ok(NotInProgress))
    else
      var color := ColorOfPlayer(g.players, player);
      if color.None? then GameResult(g, Ok(NotAPlayer))
      else if color.value != TurnOf(|g.history|) then GameResult(g, Ok(NotYourTurn))
      else match IsLegalMove(g.layout, FullRights, color.value, from, to, inCheck)
        case Raise(e) => GameResult(g, Raise(e))
        case Ok(legal) =>
          if !legal then GameResult(g, Ok(IllegalMove))
          else
            var after := ResultBoard(g.layout, from, to);
            var moved := g.(layout := after);
            match checkmated(after, White)
            case Raise(e) => GameResult(moved, Raise(e))
            case Ok(whiteMated) =>
              if whiteMated then GameResult(Game(after, g.players, BlackWon, g.history + [Ply(from, to)]), Ok(Success))
              else match checkmated(after, Black)
                case Raise(e) => GameResult(moved, Raise(e))
                case Ok(blackMated) =>
                  GameResult(Game(after, g.players, if blackMated then WhiteWon else g.status, g.history + [Ply(from, to)]), Ok(Success))
  }

  /**
   * The replies come in this order: not ongoing, not a player, not their
   * turn, each leaving the match as it was; then the board's verdict for
   * the player to move.
   */
  lemma GamePlyPrecedence(g: Game, player: int, from: Posn, to: Posn,
                          inCheck: KingTest, checkmated: KingTest)
    requires Grid(g.layout)
    ensures var r := GamePly(g, player, from, to, inCheck, checkmated);
      (g.status != Ongoing ==> r == GameResult(g, Ok(NotInProgress)))
      && (g.status == Ongoing && ColorOfPlayer(g.players, player).None? ==> r == GameResult(g, Ok(NotAPlayer)))
      && ((g.status == Ongoing && ColorOfPlayer(g.players, player).Some?
           && ColorOfPlayer(g.players, player).value != TurnOf(|g.history|))
          ==> r == GameResult(g, Ok(NotYourTurn)))
    ensures var r := GamePly(g, player, from, to, inCheck, checkmated);
      g.status == Ongoing && ColorOfPlayer(g.players, player) == Some(TurnOf(|g.history|)) ==>
        var verdict := IsLegalMove(g.layout, FullRights, TurnOf(|g.history|), from, to, inCheck);
        (r.reply == Ok(Success) ==> verdict == Ok(true))
        && (verdict == Ok(true) ==> (r.reply == Ok(Success) <==> !MateTestRaises(ResultBoard(g.layout, from, to), checkmated)))
        && (r.reply == Ok(IllegalMove) <==> verdict == Ok(false))
        && (verdict.Raise? ==> r == GameResult(g, Raise(verdict.error)))
  {
  }

  /**
   * SUCCESS records the ply and moves the piece, even when the ply mates;
   * any other reply leaves the match untouched, so a rejected ply does not
   * pass the turn and a successful one does, except that a mate test that
   * raises leaves the piece moved and the ply unrecorded.
   */
  lemma GamePlyRecords(g: Game, player: int, from: Posn, to: Posn,
                       inCheck: KingTest, checkmated: KingTest)
    requires Grid(g.layout)
    ensures var r := GamePly(g, player, from, to, inCheck, checkmated);
      (r.reply == Ok(Success) <==> r.game.history == g.history + [Ply(from, to)])
      && (r.reply.Ok? && r.reply != Ok(Success) ==> r.game == g)
      && (r.reply.Raise? ==>
            var verdict := IsLegalMove(g.layout, FullRights, TurnOf(|g.history|), from, to, inCheck);
            (verdict.Raise? && r == GameResult(g, Raise(verdict.error)))
            || (verdict == Ok(true) && r.game == g.(layout := ResultBoard(g.layout, from, to))
                && MateTestRaises(r.game.layout, checkmated)
                && r.reply.error == if checkmated(r.game.layout, White).Raise? then checkmated(r.game.layout, White).error
                                    else checkmated(r.game.layout, Black).error))
      && (r.reply == Ok(Success) ==>
            Addressed(from) && Addressed(to)
            && r.game.layout == ResultBoard(g.layout, from, to)
            && r.game.players == g.players
            && TurnOf(|r.game.history|) == OtherColor(TurnOf(|g.history|))
            && (r.game.status == BlackWon <==> checkmated(r.game.layout, White) == Ok(true))
            && (r.game.status == WhiteWon <==> checkmated(r.game.layout, White) == Ok(false) && checkmated(r.game.layout, Black) == Ok(true))
            && (r.game.status == Ongoing <==> checkmated(r.game.layout, White) == Ok(false) && checkmated(r.game.layout, Black) == Ok(false)))
  {
    var r := GamePly(g, player, from, to, inCheck, checkmated);
    if r.game.history == g.history + [Ply(from, to)] {
      assert |r.game.history| != |g.history|;
    }
  }

  class ChessMatch {
    const board: ChessBoard
    var players: PerColor<Option<int>>
    var status: Status
    var history: seq<Ply>

    ghost predicate Valid()
      reads this, board
    {
      board.Valid() && (status == Pending ==> players.white.None? || players.black.None?)
    }

    function State(): Game
      reads this, board
    {
      Game(board.board, players, status, history)
    }

    /** ChessMatch(firstPlayerID): a new board, and the first player in a slot chosen at random. */
    constructor (firstPlayerID: Option<int>)
      ensures Valid() && fresh(board) && board.board == StartingBoard()
      ensures status == Pending && history == []
      ensures players == PerColor(firstPlayerID, None) || players == PerColor(None, firstPlayerID)
    {
      board := new ChessBoard();
      var slot: Color :| true;
      players := PerColor(None, None).Set(slot, firstPlayerID);
      status := Pending;
      history := [];
    }

    /** whoseTurn of the maverick-chess server's ChessMatch class; Match.ChessMatch and Prototype.ChessMatch are separate classes with their own copy. */
    function WhoseTurn(): (c: Color)
      reads this
      ensures c == White <==> |history| % 2 == 0
    {
      TurnOf(|history|)
    }

    /** makePly; `inCheck` is the board's king-safety test and `checkmated` its isCheckMated. */
    method MakePly(player: int, from: Posn, to: Posn,
                   inCheck: KingTest, checkmated: KingTest)
      returns (r: Outcome<PlyReply>)
      requires Valid()
      modifies this, board
      ensures Valid()
      ensures Grid(old(board.board))
      ensures State() == GamePly(old(State()), player, from, to, inCheck, checkmated).game
      ensures r == GamePly(old(State()), player, from, to, inCheck, checkmated).reply
    {
      if status == Ongoing {
        var color;
        if players.white == Some(player) {
          color := White;
        } else if players.black == Some(player) {
          color := Black;
        } else {
          return Ok(NotAPlayer);
        }
        if color != WhoseTurn() {
          return Ok(NotYourTurn);
        }
        var moved := board.MakePly(color, from, to, inCheck);
        if moved.Raise? {
          return Raise(moved.error);
        }
        if moved.value {
          var whiteMated := checkmated(board.board, White);
          if whiteMated.Raise? {
            return Raise(whiteMated.error);
          }
          if whiteMated.value {
            status := BlackWon;
          } else {
            var blackMated := checkmated(board.board, Black);
            if blackMated.Raise? {
              return Raise(blackMated.error);
            }
            if blackMated.value {
              status := WhiteWon;
            }
          }
          history := history + [Ply(from, to)];
          return Ok(Success);
        } else {
          return Ok(IllegalMove);
        }
      } else {
        return Ok(NotInProgress);
      }
    }

    /**
     * join: nothing unless the match is pending and the player holds no
     * slot; otherwise the first empty slot, White before Black, is filled,
     * its colour returned, and the match starts once neither slot is empty.
     */
    method Join(playerID: int) returns (r: Option<Color>)
      requires Valid()
      modifies this
      ensures Valid() && history == old(history)
      ensures !Server.Joinable(old(status), old(players), playerID) ==> r == None && unchanged(this)
      ensures Server.Joinable(old(status), old(players), playerID) ==>
        if old(players.white).None? then r == Some(White) && players == old(players).(white := Some(playerID))
        else r == Some(Black) && players == old(players).(black := Some(playerID))
      ensures r.Some? ==> status == if players.white.Some? && players.black.Some? then Ongoing else Pending
    {
      if status != Pending {
        return None;
      }
      if players.white == Some(playerID) || players.black == Some(playerID) {
        return None;
      }
      var colors := [White, Black];
      var i := 0;
      while i < |colors|
        invariant 0 <= i <= |colors|
        invariant unchanged(this)
        invariant i >= 1 ==> players.white.Some?
        invariant i >= 2 ==> players.black.Some?
      {
        var color := colors[i];
        if players.Get(color).None? {
          players := players.Set(color, Some(playerID));
          if players.white.Some? && players.black.Some? {
            status := Ongoing;
          }
          return Some(color);
        }
        i := i + 1;
      }
      // a pending match always has an empty slot
      assert false;
    }
  }

  // ---------------------------------------------------------------------
  // TournamentSystem
  // ---------------------------------------------------------------------

  /** The slots after join: the first empty one, White before Black, gets the player. */
  function FirstSlotFilled(players: PerColor<Option<int>>, id: int): (r: PerColor<Option<int>>)
    requires players.white.None? || players.black.None?
    ensures r.white == Some(id) || r.black == Some(id)
    ensures players.white.None? ==> r == players.(white := Some(id))
    ensures players.white.Some? ==> r.white == players.white && r.black == Some(id)
  {
    if players.white.None? then players.(white := Some(id)) else players.(black := Some(id))
  }

  /**
   * `m` is the match join let the player into, with slots `before`: the
   * first empty slot holds the player, the game is under way exactly when
   * neither slot is empty, and the history is kept.
   */
  ghost predicate Joined(before: PerColor<Option<int>>, history: seq<Ply>, m: ChessMatch, playerID: int)
    requires before.white.None? || before.black.None?
    reads m
  {
    m.players == FirstSlotFilled(before, playerID)
    && m.status == (if m.players.white.Some? && m.players.black.Some? then Ongoing else Pending)
    && m.history == history
  }

  datatype Payload =
    | PlayerIdIs(playerID: int)
    | GameIdIs(gameID: int)
    | StatusIs(status: string)
    | StateIs(youAreColor: Color, isWhitesTurn: bool, board: seq<seq<Square>>, history: seq<Ply>)
    | NoPayload

  /** (True, {...}) or (False, {"error": message}). */
  datatype Response = Succeeded(payload: Payload) | Failed(error: string)

  /** makePly's mapping of the match's reply, as the maverick-chess server writes it (server.py has its own copy). */
  function PlyResponse(reply: Outcome<PlyReply>): (r: Outcome<Response>)
    ensures r.Raise? <==> reply.Raise?
    ensures r == Ok(Succeeded(NoPayload)) <==> reply == Ok(Success)
    ensures reply.Ok? && reply.value != Success ==> r == Ok(Failed(ReplyText(reply.value)))
  {
    match reply
    case Raise(e) => Raise(e)
    case Ok(text) => if text == Success then Ok(Succeeded(NoPayload)) else Ok(Failed(ReplyText(text)))
  }

  class TournamentSystem {
    var games: map<int, ChessMatch>
    var players: map<int, string>
    /** The matches and their boards. */
    ghost var Repr: set<object>

    ghost predicate Valid()
      reads this, Repr
    {
      this !in Repr
      && (forall id :: id in games ==> games[id] in Repr && games[id].board in Repr && games[id].Valid())
      && (forall i, j :: i in games && j in games && i != j ==> games[i] != games[j] && games[i].board != games[j].board)
      && Server.NamesUnique(players)
    }

    constructor ()
      ensures Valid() && games == map[] && players == map[]
    {
      games := map[];
      players := map[];
      Repr := {};
    }

    /** register: a taken name is refused; a new one is mapped from a fresh ID. */
    method Register(name: string) returns (r: Outcome<Response>)
      requires Valid()
      modifies this
      ensures Valid() && games == old(games) && Repr == old(Repr)
      ensures Server.Registered(old(players), name) ==>
        r == Ok(Failed("player with this name already exists")) && players == old(players)
      ensures !Server.Registered(old(players), name) && r.Ok? ==>
        r.value.Succeeded? && r.value.payload.PlayerIdIs?
        && r.value.payload.playerID !in old(players) && 1 <= r.value.payload.playerID <= Server.MaxVals
        && players == old(players)[r.value.payload.playerID := name]
      ensures r.Raise? ==>
        !Server.Registered(old(players), name) && |old(players)| >= Server.MaxSize
        && r.error == RuntimeError && players == old(players)
    {
      if exists id :: id in players && players[id] == name {
        return Ok(Failed("player with this name already exists"));
      }
      var newID := Server.UniqueInt(players.Keys);
      if newID.Raise? {
        return Raise(newID.error);
      }
      players := players[newID.value := name];
      return Ok(Succeeded(PlayerIdIs(newID.value)));
    }

    /**
     * joinGame, with `order` the iteration order of the games dict: the
     * first pending game, in that order, that join lets the player into;
     * otherwise a new pending game holding the player, under a fresh ID.
     */
    method JoinGame(playerID: int, order: seq<int>) returns (r: Outcome<Response>)
      requires Valid()
      requires forall i, j :: 0 <= i < j < |order| ==> order[i] != order[j]
      requires forall id :: id in games <==> id in order
      modifies this, Repr
      ensures Valid() && players == old(players)
      ensures r.Ok? ==> r.value.Succeeded? && r.value.payload.GameIdIs? && r.value.payload.gameID in games
      ensures r.Ok? && r.value.payload.gameID in old(games) ==>
        games == old(games)
        && exists k :: (0 <= k < |order| && order[k] == r.value.payload.gameID
          && old(Server.Joinable(games[order[k]].status, games[order[k]].players, playerID))
          && forall j :: 0 <= j < k ==> !old(Server.Joinable(games[order[j]].status, games[order[j]].players, playerID)))
      ensures r.Ok? && r.value.payload.gameID in old(games) ==>
        old(games[r.value.payload.gameID].players.white.None? || games[r.value.payload.gameID].players.black.None?)
        && Joined(old(games[r.value.payload.gameID].players), old(games[r.value.payload.gameID].history), games[r.value.payload.gameID], playerID)
        && forall id :: id in games && id != r.value.payload.gameID ==> unchanged(games[id]) && unchanged(games[id].board)
      ensures r.Ok? && r.value.payload.gameID !in old(games) ==>
        var g := games[r.value.payload.gameID];
        fresh(g) && games == old(games)[r.value.payload.gameID := g] && 1 <= r.value.payload.gameID <= Server.MaxVals
        && g.status == Pending && g.history == [] && g.board.board == StartingBoard()
        && (g.players == PerColor(Some(playerID), None) || g.players == PerColor(None, Some(playerID)))
        && forall id :: id in old(games) ==> !old(Server.Joinable(games[id].status, games[id].players, playerID))
      ensures r.Raise? ==> games == old(games) && r.error == RuntimeError && |old(games)| >= Server.MaxSize
      // when no existing game was joined, every existing game and its board is left as it was
      ensures r.Raise? || r.value.payload.gameID !in old(games) ==>
        forall id :: id in old(games) ==> unchanged(old(games)[id]) && unchanged(old(games)[id].board)
    {
      var found := FindGame(playerID, order);
      if found.Some? {
        return Ok(Succeeded(GameIdIs(found.value)));
      }
      var newID := OpenGame(playerID);
      if newID.Raise? {
        return Raise(newID.error);
      }
      return Ok(Succeeded(GameIdIs(newID.value)));
    }

    /** The loop of joinGame: the first game in `order` that join lets the player into. */
    method FindGame(playerID: int, order: seq<int>) returns (found: Option<int>)
      requires Valid()
      requires forall id :: id in games <==> id in order
      modifies Repr
      ensures Valid() && games == old(games) && players == old(players) && Repr == old(Repr)
      ensures forall j :: 0 <= j < |order| ==> order[j] in games
      ensures found.Some? ==>
        exists k :: (0 <= k < |order| && order[k] == found.value
          && old(Server.Joinable(games[order[k]].status, games[order[k]].players, playerID))
          && forall j :: 0 <= j < k ==> !old(Server.Joinable(games[order[j]].status, games[order[j]].players, playerID)))
      ensures found.Some? ==>
        old(games[found.value].players.white.None? || games[found.value].players.black.None?)
        && Joined(old(games[found.value].players), old(games[found.value].history), games[found.value], playerID)
        && forall id :: id in games && id != found.value ==> unchanged(games[id])
      ensures forall id :: id in games ==> unchanged(games[id].board)
      ensures found.None? ==>
        (forall id :: id in games ==> unchanged(games[id]))
        && forall id :: id in games ==> !Server.Joinable(games[id].status, games[id].players, playerID)
    {
      Server.OrderCoversGames(order, games);
      var i := 0;
      while i < |order|
        invariant 0 <= i <= |order|
        invariant Valid()
        invariant forall id :: id in games ==> unchanged(games[id]) && unchanged(games[id].board)
        invariant forall j :: 0 <= j < i ==> !Server.Joinable(games[order[j]].status, games[order[j]].players, playerID)
      {
        var gameID := order[i];
        var game := games[gameID];
        if game.status == Pending {
          var color := game.Join(playerID);
          if color.Some? {
            forall id | id in games && id != gameID
              ensures games[id].Valid()
            {
              assert games[id] != game && games[id].board != game.board;
            }
            assert 0 <= i < |order| && order[i] == gameID;
            return Some(gameID);
          }
        }
        i := i + 1;
      }
      forall id | id in games
        ensures !Server.Joinable(games[id].status, games[id].players, playerID)
      {
        assert id in games <==> id in order;
        var j :| 0 <= j < |order| && order[j] == id;
      }
      return None;
    }

    /** The end of joinGame: a new pending match holding the player, under a fresh ID. */
    method OpenGame(playerID: int) returns (r: Outcome<int>)
      requires Valid()
      modifies this
      ensures Valid() && players == old(players)
      ensures r.Raise? ==> games == old(games) && r.error == RuntimeError && |old(games)| >= Server.MaxSize
      ensures r.Ok? ==>
        r.value in games && var g := games[r.value];
        r.value !in old(games) && 1 <= r.value <= Server.MaxVals && fresh(g) && games == old(games)[r.value := g]
        && g.status == Pending && g.history == [] && g.board.board == StartingBoard()
        && (g.players == PerColor(Some(playerID), None) || g.players == PerColor(None, Some(playerID)))
      ensures forall id :: id in old(games) ==> unchanged(old(games)[id]) && unchanged(old(games)[id].board)
    {
      var newGame := new ChessMatch(Some(playerID));

      var newID := Server.UniqueInt(games.Keys);
      if newID.Raise? {
        return Raise(newID.error);
      }
      games := games[newID.value := newGame];
      Repr := Repr + {newGame, newGame.board};
      return Ok(newID.value);
    }

    /** cancelGame: an active match is cancelled and None returned; otherwise an error. */
    method CancelGame(gameID: int) returns (r: Option<Response>)
      requires Valid()
      modifies if gameID in games then {games[gameID]} else {}
      ensures Valid() && games == old(games) && players == old(players) && Repr == old(Repr)
      ensures gameID !in games ==> r == Some(Failed("Invalid game ID"))
      ensures gameID in games ==>
        (r.None? <==> old(games[gameID].status) == Ongoing || old(games[gameID].status) == Pending)
        && (r.None? ==> games[gameID].status == Cancelled
                        && games[gameID].players == old(games[gameID].players)
                        && games[gameID].history == old(games[gameID].history))
        && (r.Some? ==> r == Some(Failed("Game not active")) && unchanged(games[gameID]))
    {
      if gameID in games {
        var game := games[gameID];
        if game.status == Ongoing || game.status == Pending {
          game.status := Cancelled;
          forall id | id in games && id != gameID
            ensures games[id].Valid()
          {
            assert games[id] != game;
          }
          return None;
        } else {
          return Some(Failed("Game not active"));
        }
      } else {
        return Some(Failed("Invalid game ID"));
      }
    }

    /** getStatus: the status code of a registered match. */
    function GetStatus(gameID: int): (r: Response)
      reads this, games.Values
      ensures r.Succeeded? <==> gameID in games
      ensures r.Succeeded? ==> r.payload == StatusIs(StatusCode(games[gameID].status))
      ensures r.Failed? ==> r.error == "Invalid game ID"
    {
      if gameID in games then Succeeded(StatusIs(StatusCode(games[gameID].status)))
      else Failed("Invalid game ID")
    }

    /** getState: the caller's colour, whose turn it is, the board's own layout and the history. */
    function GetState(playerID: int, gameID: int): (r: Response)
      requires Valid()
      reads this, Repr
      ensures gameID !in games ==> r == Failed("Invalid game ID")
      ensures gameID in games ==>
        (r == Failed("You are not a player in this game") <==> ColorOfPlayer(games[gameID].players, playerID).None?)
      ensures r.Succeeded? ==>
        gameID in games && r.payload.StateIs?
        && games[gameID].players.Get(r.payload.youAreColor) == Some(playerID)
        && (r.payload.isWhitesTurn <==> |games[gameID].history| % 2 == 0)
        && r.payload.board == games[gameID].board.board
        && r.payload.history == games[gameID].history
    {
      if gameID in games then
        var g := games[gameID];
        var youAreColor := ColorOfPlayer(g.players, playerID);
        if youAreColor.None? then Failed("You are not a player in this game")
        else Succeeded(StateIs(youAreColor.value, g.WhoseTurn() == White, g.board.board, g.history))
      else Failed("Invalid game ID")
    }

    /** makePly: the match's reply, SUCCESS as (True, {}) and any other as its error text. */
    method MakePly(playerID: int, gameID: int, from: Posn, to: Posn,
                   inCheck: KingTest, checkmated: KingTest)
      returns (r: Outcome<Response>)
      requires Valid()
      modifies if gameID in games then {games[gameID], games[gameID].board} else {}
      ensures Valid() && games == old(games) && players == old(players) && Repr == old(Repr)
      ensures gameID !in games ==> r == Ok(Failed("Invalid game ID"))
      ensures gameID in games ==>
        Grid(old(games[gameID].board.board))
        && games[gameID].State() == GamePly(old(games[gameID].State()), playerID, from, to, inCheck, checkmated).game
        && r == PlyResponse(GamePly(old(games[gameID].State()), playerID, from, to, inCheck, checkmated).reply)
    {
      if gameID in games {
        var game := games[gameID];
        var result := game.MakePly(playerID, from, to, inCheck, checkmated);
        forall id | id in games && id != gameID
          ensures games[id].Valid()
        {
          assert games[id] != game && games[id].board != game.board;
        }
        return PlyResponse(result);
      } else {
        return Ok(Failed("Invalid game ID"));
      }
    }
  }
}
