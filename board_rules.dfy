/**
 * The read-only part of the 0-indexed board engine of maverick.data.structs
 * (the newest) and maverick.data (its earlier form): squares, straight paths,
 * the per-piece movement pattern, and the static checks of isLegalMove.
 */
module BoardRules {
  import opened ChessTypes

  /** Structs is maverick/data/structs.py, Legacy is maverick/data.py. */
  datatype Version = Structs | Legacy

  /** flag_canCastle[color]: (queen-side ability, king-side ability). */
  datatype Castle = Castle(queenSide: bool, kingSide: bool)

  /** A snapshot of the fields of a ChessBoard. Legacy boards have no draw counter; theirs never changes. */
  datatype BoardState = BoardState(
    layout: seq<seq<Square>>,
    enPassant: PerColor<seq<bool>>,
    canCastle: PerColor<Castle>,
    drawCounter: int)

  /** An 8x8 grid. */
  predicate Grid(layout: seq<seq<Square>>)
  {
    |layout| == BoardSize && forall r :: 0 <= r < BoardSize ==> |layout[r]| == BoardSize
  }

  predicate WellFormed(s: BoardState)
  {
    Grid(s.layout) && |s.enPassant.white| == BoardSize && |s.enPassant.black| == BoardSize
  }

  function GetSq(layout: seq<seq<Square>>, p: Posn): Square
    requires Grid(layout) && OnBoard(p)
  {
    layout[p.rank][p.file]
  }

  /** __setitem__ on a square of the board. */
  function SetSq(layout: seq<seq<Square>>, p: Posn, sq: Square): (r: seq<seq<Square>>)
    requires Grid(layout) && OnBoard(p)
    ensures Grid(r) && GetSq(r, p) == sq
    ensures forall q :: OnBoard(q) && q != p ==> GetSq(r, q) == GetSq(layout, q)
  {
    layout[p.rank := layout[p.rank][p.file := sq]]
  }

  /** __getitem__: the square's content, None off the board. */
  function At(s: BoardState, p: Posn): Square
    requires WellFormed(s)
  {
    if OnBoard(p) then GetSq(s.layout, p) else None
  }

  /** PAWN_STARTING_RANKS. */
  function PawnStartRank(c: Color): int
  {
    if c == White then 1 else 6
  }

  /** The direction in which pawns of the colour advance. */
  function Forward(c: Color): int
  {
    if c == White then 1 else -1
  }

  /** The rank onto which a mover of colour c captures en passant: start rank of the opponent, one step back. */
  function EpCaptureRank(c: Color): int
  {
    var opp := OtherColor(c);
    if opp == White then PawnStartRank(opp) + 1 else PawnStartRank(opp) - 1
  }

  // ---------------------------------------------------------------------
  // Straight paths (__isLegal_getSquaresInPath, __isLegal_isClearLinearPath)
  // ---------------------------------------------------------------------

  /** The sign of b - a. */
  function Dir(a: int, b: int): int
  {
    if b > a then 1 else if b < a then -1 else 0
  }

  /** The values strictly between a and b, in order from a toward b. */
  function Between(a: int, b: int): seq<int>
  {
    seq(if a == b then 0 else Abs(b - a) - 1, i => a + (i + 1) * Dir(a, b))
  }

  /** zip of two coordinate lists, as long as the shorter one. */
  function Zip(ranks: seq<int>, files: seq<int>): seq<Posn>
  {
    seq(if |ranks| < |files| then |ranks| else |files|, i requires 0 <= i < |ranks| && i < |files| => Posn(ranks[i], files[i]))
  }

  /**
   * What __isLegal_getSquaresInPath returns; a non-straight input falls into
   * the vertical branch, so its squares keep the origin's file, and the path
   * never reaches as far as the destination.
   */
  function PathSquares(from: Posn, to: Posn): (r: seq<Posn>)
    ensures |r| < Distance(from, to) || (from == to && r == [])
    ensures !Straight(from, to) ==> forall i :: 0 <= i < |r| ==> r[i].file == from.file
  {
    var rd := Abs(to.rank - from.rank);
    var fd := Abs(to.file - from.file);
    if rd == fd then Zip(Between(from.rank, to.rank), Between(from.file, to.file))
    else if rd == 0 then Zip(Repeat(from.rank, |Between(from.file, to.file)|), Between(from.file, to.file))
    else Zip(Between(from.rank, to.rank), Repeat(from.file, |Between(from.rank, to.rank)|))
  }

  /** The k-th square along the line from `from` toward `to`. */
  function SegmentPoint(from: Posn, to: Posn, k: int): Posn
  {
    Posn(from.rank + k * Dir(from.rank, to.rank), from.file + k * Dir(from.file, to.file))
  }

  /** Horizontal, vertical or diagonal. */
  predicate Straight(from: Posn, to: Posn)
  {
    from.rank == to.rank || from.file == to.file || Abs(to.rank - from.rank) == Abs(to.file - from.file)
  }

  /** The number of single steps from `from` to `to` along a straight line. */
  function Distance(from: Posn, to: Posn): int
  {
    Max(Abs(to.rank - from.rank), Abs(to.file - from.file))
  }

  /** __isLegal_isClearLinearPath: a move to a neighbouring square is always clear. */
  function ClearPath(s: BoardState, from: Posn, to: Posn): (r: bool)
    requires WellFormed(s)
    ensures Distance(from, to) <= 1 ==> r
  {
    var path := PathSquares(from, to);
    !(|path| == 0 && (Abs(to.rank - from.rank) > 1 || Abs(to.file - from.file) > 1))
    && forall i :: 0 <= i < |path| ==> At(s, path[i]).None?
  }

  // ---------------------------------------------------------------------
  // The movement pattern (__isLegal_IsPieceMovementInPattern)
  // ---------------------------------------------------------------------

  /**
   * The pawn part of __isLegal_IsPieceMovementInPattern: it passes only one
   * or two squares forward, never straight ahead onto a piece, and only a
   * forward diagonal step reads the opponent's flags, which is where
   * IndexError comes from.
   */
  function PawnPattern(s: BoardState, color: Color, from: Posn, to: Posn): (r: Outcome<bool>)
    requires WellFormed(s)
    ensures r == Ok(true) ==> (to.rank - from.rank) * Forward(color) == 1 || (to.rank - from.rank) * Forward(color) == 2
    ensures r == Ok(true) && to.file == from.file ==> At(s, to).None?
    ensures r.Raise? ==> r.error == IndexError && (to.rank - from.rank) * Forward(color) == 1 && Abs(to.file - from.file) == 1
  {
    var rd := Abs(to.rank - from.rank);
    var fd := Abs(to.file - from.file);
    var vertDist := to.rank - from.rank;
    var dest := At(s, to);
    if (color == White && vertDist < 0) || (color == Black && vertDist > 0) then Ok(false)
    else if rd != 1 && rd != 2 then Ok(false)
    else if fd == 0 && dest.Some? then Ok(false)
    else if rd == 1 then
      if fd != 0 && fd != 1 then Ok(false)
      else if fd == 1 then
        match PyIndex(s.enPassant.Get(OtherColor(color)), to.file)
        case Raise(e) => Raise(e)
        case Ok(epFlag) =>
          var epCaptureP := epFlag && to.rank == EpCaptureRank(color);
          Ok(!(dest.None? && !epCaptureP))
      else Ok(true)
    else
      Ok(fd == 0 && from.rank == PawnStartRank(color) && ClearPath(s, from, to))
  }

  /** The knight part: exactly the (1, 2) and (2, 1) displacements. */
  function KnightPattern(from: Posn, to: Posn): (r: bool)
    ensures r <==> (Abs(to.rank - from.rank) == 1 && Abs(to.file - from.file) == 2)
                   || (Abs(to.rank - from.rank) == 2 && Abs(to.file - from.file) == 1)
  {
    var rd := Abs(to.rank - from.rank);
    var fd := Abs(to.file - from.file);
    !((rd == 2 && fd != 1) || (rd == 1 && fd != 2) || (rd != 1 && rd != 2))
  }

  /**
   * The square a castling king must land on. structs.py builds
   * ChessPosn(castleFile, kingStartRank), rank and file swapped;
   * data.py compares the file with castleFile and the rank with the home rank.
   * So only data.py's target lies on the home rank, and structs.py's misses
   * the intended square unless the two numbers coincide.
   */
  function CastleTarget(v: Version, castleFile: int, kingStartRank: int): (r: Posn)
    ensures r.rank == kingStartRank <==> (v.Legacy? || castleFile == kingStartRank)
    ensures r.file == castleFile <==> (v.Legacy? || castleFile == kingStartRank)
  {
    if v == Structs then Posn(castleFile, kingStartRank) else Posn(kingStartRank, castleFile)
  }

  function HomeRank(c: Color): int
  {
    if c == White then 0 else 7
  }

  /**
   * The king part: any neighbouring square; a longer move only onto a castle
   * target whose right is held, which in structs.py lies on the home FILE.
   */
  function KingPattern(v: Version, s: BoardState, color: Color, from: Posn, to: Posn): (r: bool)
    ensures Abs(to.rank - from.rank) <= 1 && Abs(to.file - from.file) <= 1 ==> r
    ensures r && (Abs(to.rank - from.rank) > 1 || Abs(to.file - from.file) > 1) ==>
      (s.canCastle.Get(color).kingSide || s.canCastle.Get(color).queenSide)
      && (if v == Legacy then to.rank == HomeRank(color) && (to.file == 6 || to.file == 2)
          else to.file == HomeRank(color) && (to.rank == 6 || to.rank == 2))
  {
    var rd := Abs(to.rank - from.rank);
    var fd := Abs(to.file - from.file);
    var flags := s.canCastle.Get(color);
    if fd > 1 || rd > 1 then
      if to == CastleTarget(v, 6, HomeRank(color)) then flags.kingSide
      else if to == CastleTarget(v, 2, HomeRank(color)) then flags.queenSide
      else false
    else true
  }

  /**
   * __isLegal_IsPieceMovementInPattern: false unless the origin holds a piece
   * of the mover's colour; only a pawn can raise.
   */
  function MovementInPattern(v: Version, s: BoardState, color: Color, from: Posn, to: Posn): (r: Outcome<bool>)
    requires WellFormed(s)
    ensures r == Ok(true) ==> At(s, from).Some? && At(s, from).value.color == color
    ensures r.Raise? ==> r.error == IndexError && At(s, from) == Some(Piece(color, Pawn))
  {
    var origin := At(s, from);
    var rd := Abs(to.rank - from.rank);
    var fd := Abs(to.file - from.file);
    if origin.None? || origin.value.color != color then Ok(false)
    else match origin.value.kind
      case Pawn => PawnPattern(s, color, from, to)
      case Rook => Ok(!(rd != 0 && fd != 0) && ClearPath(s, from, to))
      case Knight => Ok(KnightPattern(from, to))
      case Bishop => Ok(rd == fd && ClearPath(s, from, to))
      case Queen => Ok(!(rd != 0 && fd != 0 && rd != fd) && ClearPath(s, from, to))
      case King => Ok(KingPattern(v, s, color, from, to))
  }

  /**
   * isLegalMove up to the king-safety step: the pattern, then the
   * destination, then the distance, then the board bounds. Ok(true) means
   * the hypothetical ply is tried.
   */
  function StaticChecks(v: Version, s: BoardState, color: Color, from: Posn, to: Posn): (r: Outcome<bool>)
    requires WellFormed(s)
    ensures r == Ok(true) ==>
      At(s, from).Some? && At(s, from).value.color == color && from != to && OnBoard(to)
      && (At(s, to).None? || (At(s, to).value.color != color && At(s, to).value.kind != King))
    ensures r.Raise? <==> MovementInPattern(v, s, color, from, to).Raise?
    ensures r.Raise? ==> r.error == IndexError
  {

    match MovementInPattern(v, s, color, from, to)
    case Raise(e) => Raise(e)
    case Ok(inPattern) =>
      var dest := At(s, to);
      Ok(inPattern
         && !(dest.Some? && dest.value.color == color)
         && !(dest.Some? && dest.value.kind == King)
         && from != to
         && OnBoard(to))
  }
}
