/**
 * The move generator of the AI players (players/ais/analyzers/stateExpansion.py),
 * over the maverick.data board (Legacy): per-piece candidate squares,
 * the on-board and self-capture filters of canMoveTo, and the enumeration
 * of every (from, to) pair of one colour. The king-safety filter of
 * canMoveTo is a parameter `kingSafe(from, to)`.
 */
module StateExpansion {
  import opened ChessTypes
  import opened BoardRules
  import opened BoardPaths
  import opened Board
  import BoardMoves
  import opened BoardCases

  // ---------------------------------------------------------------------
  // Translations and rays
  // ---------------------------------------------------------------------

  /**
   * The squares __canMoveTo_moveLoop appends: each translation in turn, up
   * to and including the first occupied square. Off the board every square
   * reads as empty, so the walk goes on past the edge.
   */
  function Walk(s: BoardState, from: Posn, ts: seq<Posn>): (r: seq<Posn>)
    requires WellFormed(s)
    ensures |r| <= |ts|
    decreases |ts|
  {
    if |ts| == 0 then []
    else
      var to := Translate(from, ts[0]);
      if At(s, to).Some? then [to] else [to] + Walk(s, from, ts[1..])
  }

  /** __canMoveTo_moveLoop: appends to `moves` and stops after the first occupied square. */
  method MoveLoop(moves: seq<Posn>, s: BoardState, color: Color, from: Posn, translations: seq<Posn>)
    returns (r: seq<Posn>)
    requires WellFormed(s)
    ensures r == moves + Walk(s, from, translations)
  {
    r := moves;
    var i := 0;
    while i < |translations|
      invariant 0 <= i <= |translations|
      invariant r + Walk(s, from, translations[i..]) == moves + Walk(s, from, translations)
    {
      var toPosn := Translate(from, translations[i]);
      r := r + [toPosn];
      if At(s, toPosn).Some? {
        break;
      }
      assert translations[i..][1..] == translations[i + 1..];
      i := i + 1;
    }
  }

  /**
   * Each square of the walk is the next translation, every square before
   * the last is empty, and a walk that ends early ends on a piece.
   */
  lemma {:induction false} WalkStopsAtFirstPiece(s: BoardState, from: Posn, ts: seq<Posn>)
    requires WellFormed(s)
    ensures var w := Walk(s, from, ts);
      (forall i :: 0 <= i < |w| ==> w[i] == Translate(from, ts[i]))
      && (forall i :: 0 <= i < |w| - 1 ==> At(s, w[i]).None?)
      && (|w| < |ts| ==> |w| > 0 && At(s, w[|w| - 1]).Some?)
    decreases |ts|
  {
    if |ts| > 0 {
      WalkStopsAtFirstPiece(s, from, ts[1..]);
    }
  }

  /** (k * d.rank, k * d.file) for k = 1 to n: the translations of one ray. */
  function Steps(d: Posn, n: nat): (ts: seq<Posn>)
    ensures |ts| == n
  {
    seq(n, i => Posn((i + 1) * d.rank, (i + 1) * d.file))
  }

  /** range(1, 9), range(-1, -9, -1) and [0] * 7 as lists of multiples of a delta. */
  function Counts(d: int, n: nat): (xs: seq<int>)
    ensures |xs| == n
  {
    seq(n, i => (i + 1) * d)
  }

  lemma CountsAreRanges()
    ensures Between(0, BoardSize + 1) == Counts(1, BoardSize)
    ensures Between(0, -(BoardSize + 1)) == Counts(-1, BoardSize)
    ensures Repeat(0, BoardSize - 1) == Counts(0, BoardSize - 1)
  {
  }

  lemma ZipCounts(a: int, b: int, n: nat, m: nat)
    ensures Zip(Counts(a, n), Counts(b, m)) == Steps(Posn(a, b), if n < m then n else m)
  {
  }

  /** A step of one square in one of the eight directions. */
  predicate Unit(d: Posn)
  {
    -1 <= d.rank <= 1 && -1 <= d.file <= 1 && d != Posn(0, 0)
  }

  /** The k-th square out from `from` along d. */
  function RayPoint(from: Posn, d: Posn, k: int): Posn
  {
    Posn(from.rank + k * d.rank, from.file + k * d.file)
  }

  /** How many steps along d lead from `from` to p, if p lies on that ray. */
  function StepsTo(from: Posn, d: Posn, p: Posn): int
  {
    if d.rank != 0 then (p.rank - from.rank) * d.rank else (p.file - from.file) * d.file
  }

  lemma RayStepsTo(from: Posn, d: Posn, k: int)
    requires Unit(d)
    ensures StepsTo(from, d, RayPoint(from, d, k)) == k
  {
    if d.rank != 0 {
      assert d.rank * d.rank == 1;
      assert (k * d.rank) * d.rank == k * (d.rank * d.rank);
    } else {
      assert d.file * d.file == 1;
      assert (k * d.file) * d.file == k * (d.file * d.file);
    }
  }

  /**
   * On a ray of n steps the walk from step j on reaches p exactly when p is
   * a later step of the ray, no further than n, with every step before it
   * (after j) empty.
   */
  lemma {:induction false} WalkRay(s: BoardState, from: Posn, d: Posn, n: nat, j: nat, p: Posn)
    requires WellFormed(s) && Unit(d) && j <= n
    ensures p in Walk(s, from, Steps(d, n)[j..]) <==>
      j < StepsTo(from, d, p) <= n && p == RayPoint(from, d, StepsTo(from, d, p))
      && forall i :: j < i < StepsTo(from, d, p) ==> At(s, RayPoint(from, d, i)).None?
    decreases n - j
  {
    var ts := Steps(d, n)[j..];
    if j < n {
      var first := RayPoint(from, d, j + 1);
      assert Translate(from, ts[0]) == first;
      assert ts[1..] == Steps(d, n)[j + 1..];
      WalkRay(s, from, d, n, j + 1, p);
      RayStepsTo(from, d, j + 1);
      if p == RayPoint(from, d, StepsTo(from, d, p)) {
        RayStepsTo(from, d, StepsTo(from, d, p));
      }
    }
  }

  /** The direction from `from` toward `to`. */
  function DirOf(from: Posn, to: Posn): Posn
  {
    Posn(Dir(from.rank, to.rank), Dir(from.file, to.file))
  }

  lemma LinePoints(from: Posn, to: Posn)
    requires Straight(from, to) && from != to
    ensures Unit(DirOf(from, to)) && Distance(from, to) >= 1
    ensures to == RayPoint(from, DirOf(from, to), Distance(from, to))
    ensures forall k :: SegmentPoint(from, to, k) == RayPoint(from, DirOf(from, to), k)
  {
  }

  /** A straight move within n steps is on its ray's walk exactly when the squares between are empty. */
  lemma RayMatchesSlide(s: BoardState, from: Posn, to: Posn, n: nat)
    requires WellFormed(s) && Straight(from, to) && from != to && Distance(from, to) <= n
    ensures to in Walk(s, from, Steps(DirOf(from, to), n)) <==> IntermediateEmpty(s, from, to)
  {
    var d := DirOf(from, to);
    LinePoints(from, to);
    assert Steps(d, n)[0..] == Steps(d, n);
    WalkRay(s, from, d, n, 0, to);
    RayStepsTo(from, d, Distance(from, to));
  }

  /** The k-th square along d, for k >= 1, is k steps away in direction d. */
  lemma RayGeometry(from: Posn, d: Posn, k: int)
    requires Unit(d) && k >= 1
    ensures var p := RayPoint(from, d, k);
      p != from && Straight(from, p) && DirOf(from, p) == d && Distance(from, p) == k
  {
    assert k * d.rank == (if d.rank == 1 then k else if d.rank == -1 then -k else 0);
    assert k * d.file == (if d.file == 1 then k else if d.file == -1 then -k else 0);
  }

  /** Every square the walk along d reaches is a straight move in direction d over empty squares. */
  lemma RayIsSlide(s: BoardState, from: Posn, d: Posn, n: nat, p: Posn)
    requires WellFormed(s) && Unit(d) && p in Walk(s, from, Steps(d, n))
    ensures p != from && Straight(from, p) && DirOf(from, p) == d
    ensures Distance(from, p) <= n && IntermediateEmpty(s, from, p)
  {
    assert Steps(d, n)[0..] == Steps(d, n);
    WalkRay(s, from, d, n, 0, p);
    var k := StepsTo(from, d, p);
    RayGeometry(from, d, k);
    LinePoints(from, p);
  }

  // ---------------------------------------------------------------------
  // The generators
  // ---------------------------------------------------------------------

  /** The four rook rays in the order _canMoveTo_rook walks them: up, down, right, left, seven steps each. */
  function RookCandidates(s: BoardState, from: Posn): seq<Posn>
    requires WellFormed(s)
  {
    Walk(s, from, Steps(Posn(1, 0), BoardSize - 1)) + Walk(s, from, Steps(Posn(-1, 0), BoardSize - 1))
    + Walk(s, from, Steps(Posn(0, 1), BoardSize - 1)) + Walk(s, from, Steps(Posn(0, -1), BoardSize - 1))
  }

  /** The four bishop rays: up-right, up-left, down-right, down-left, eight steps each. */
  function BishopCandidates(s: BoardState, from: Posn): seq<Posn>
    requires WellFormed(s)
  {
    Walk(s, from, Steps(Posn(1, 1), BoardSize)) + Walk(s, from, Steps(Posn(1, -1), BoardSize))
    + Walk(s, from, Steps(Posn(-1, 1), BoardSize)) + Walk(s, from, Steps(Posn(-1, -1), BoardSize))
  }

  /** _canMoveTo_rook: the rays are zips of range(1, 9), range(-1, -9, -1) and seven zeros. */
  method RookMoves(s: BoardState, color: Color, from: Posn) returns (moves: seq<Posn>)
    requires WellFormed(s)
    ensures moves == RookCandidates(s, from)
  {
    var countUp := Between(0, BoardSize + 1);
    var countDown := Between(0, -(BoardSize + 1));
    var stayTheCourse := Repeat(0, BoardSize - 1);
    CountsAreRanges();
    ZipCounts(1, 0, BoardSize, BoardSize - 1);
    ZipCounts(-1, 0, BoardSize, BoardSize - 1);
    ZipCounts(0, 1, BoardSize - 1, BoardSize);
    ZipCounts(0, -1, BoardSize - 1, BoardSize);
    moves := [];
    moves := MoveLoop(moves, s, color, from, Zip(countUp, stayTheCourse));
    moves := MoveLoop(moves, s, color, from, Zip(countDown, stayTheCourse));
    moves := MoveLoop(moves, s, color, from, Zip(stayTheCourse, countUp));
    moves := MoveLoop(moves, s, color, from, Zip(stayTheCourse, countDown));
  }

  /** _canMoveTo_bishop: the rays are zips of range(1, 9) and range(-1, -9, -1) with each other. */
  method BishopMoves(s: BoardState, color: Color, from: Posn) returns (moves: seq<Posn>)
    requires WellFormed(s)
    ensures moves == BishopCandidates(s, from)
  {
    var countUp := Between(0, BoardSize + 1);
    var countDown := Between(0, -(BoardSize + 1));
    CountsAreRanges();
    ZipCounts(1, 1, BoardSize, BoardSize);
    ZipCounts(1, -1, BoardSize, BoardSize);
    ZipCounts(-1, 1, BoardSize, BoardSize);
    ZipCounts(-1, -1, BoardSize, BoardSize);
    moves := [];
    moves := MoveLoop(moves, s, color, from, Zip(countUp, countUp));
    moves := MoveLoop(moves, s, color, from, Zip(countUp, countDown));
    moves := MoveLoop(moves, s, color, from, Zip(countDown, countUp));
    moves := MoveLoop(moves, s, color, from, Zip(countDown, countDown));
  }

  /** _canMoveTo_queen: the bishop's candidates, then the rook's. */
  method QueenMoves(s: BoardState, color: Color, from: Posn) returns (moves: seq<Posn>)
    requires WellFormed(s)
    ensures moves == BishopCandidates(s, from) + RookCandidates(s, from)
  {
    moves := [];
    var diagonal := BishopMoves(s, color, from);
    moves := moves + diagonal;
    var straight := RookMoves(s, color, from);
    moves := moves + straight;
  }

  /** _canMoveTo_knight: the eight (2, 1) and (1, 2) translations, in the source's order. */
  function KnightCandidates(from: Posn): (moves: seq<Posn>)
    ensures |moves| == 8
  {
    [Translate(from, Posn(2, -1)), Translate(from, Posn(2, 1)), Translate(from, Posn(1, -2)), Translate(from, Posn(1, 2)),
     Translate(from, Posn(-1, -2)), Translate(from, Posn(-1, 2)), Translate(from, Posn(-2, -1)), Translate(from, Posn(-2, 1))]
  }

  /** The home-rank squares whose emptiness _canMoveTo_king tests before the queen-side castle. */
  predicate QueenSideOffered(s: BoardState, color: Color)
    requires WellFormed(s)
  {
    s.canCastle.Get(color).queenSide
    && At(s, Posn(HomeRank(color), 1)).None? && At(s, Posn(HomeRank(color), 2)).None? && At(s, Posn(HomeRank(color), 3)).None?
  }

  /**
   * The king-side test as written: the right, and files 6 and 7 of the
   * home rank empty. File 7 is the rook's own square, so any piece there,
   * the rook itself included, makes the test fail.
   */
  function KingSideOfferedAsWritten(s: BoardState, color: Color): (r: bool)
    requires WellFormed(s)
    ensures At(s, Posn(HomeRank(color), 7)).Some? ==> !r
    ensures r ==> s.canCastle.Get(color).kingSide
  {
    s.canCastle.Get(color).kingSide && At(s, Posn(HomeRank(color), 6)).None? && At(s, Posn(HomeRank(color), 7)).None?
  }

  /** The king-side test as intended: the right, and files 5 and 6, between king and rook, empty. */
  predicate KingSideOffered(s: BoardState, color: Color)
    requires WellFormed(s)
  {
    s.canCastle.Get(color).kingSide && At(s, Posn(HomeRank(color), 5)).None? && At(s, Posn(HomeRank(color), 6)).None?
  }

  /** _canMoveTo_king, with the king-side test corrected: the eight neighbours, then two files toward a rook when the castle test passes. */
  function KingCandidates(s: BoardState, color: Color, from: Posn): (r: seq<Posn>)
    requires WellFormed(s)
    ensures 8 <= |r| <= 10
    ensures forall i :: 0 <= i < |r| ==>
      r[i] != from && Abs(r[i].rank - from.rank) <= 1 && Abs(r[i].file - from.file) <= 2
  {
    KingStepsAndQueenSide(s, color, from) + (if KingSideOffered(s, color) then [Translate(from, Posn(0, 2))] else [])
  }

  /** The part of _canMoveTo_king before the king-side test: the eight neighbours, then the queen-side candidate. */
  function KingStepsAndQueenSide(s: BoardState, color: Color, from: Posn): seq<Posn>
    requires WellFormed(s)
  {
    [Translate(from, Posn(1, 1)), Translate(from, Posn(1, 0)), Translate(from, Posn(1, -1)), Translate(from, Posn(0, 1)),
     Translate(from, Posn(0, -1)), Translate(from, Posn(-1, 1)), Translate(from, Posn(-1, 0)), Translate(from, Posn(-1, -1))]
    + (if QueenSideOffered(s, color) then [Translate(from, Posn(0, -2))] else [])
  }

  /**
   * _canMoveTo_king as written, with the king-side test on files 6 and 7:
   * the same list as KingCandidates except for the king-side candidate,
   * which is offered exactly when that test passes.
   */
  function KingCandidatesAsWritten(s: BoardState, color: Color, from: Posn): (r: seq<Posn>)
    requires WellFormed(s)
    ensures KingSideOfferedAsWritten(s, color) == KingSideOffered(s, color) ==> r == KingCandidates(s, color, from)
    ensures Translate(from, Posn(0, 2)) in r <==> KingSideOfferedAsWritten(s, color)
  {
    KingStepsAndQueenSide(s, color, from) + (if KingSideOfferedAsWritten(s, color) then [Translate(from, Posn(0, 2))] else [])
  }

  /** The straight pawn advances: one ahead onto an empty square; two ahead from the start rank over and onto empty squares. */
  function PawnAhead(s: BoardState, color: Color, from: Posn): seq<Posn>
    requires WellFormed(s)
  {
    var oneAhead := Translate(from, Posn(Forward(color), 0));
    var twoAhead := Translate(from, Posn(Forward(color) * 2, 0));
    (if At(s, oneAhead).None? then [oneAhead] else [])
    + (if from.rank == PawnStartRank(color) && At(s, oneAhead).None? && At(s, twoAhead).None? then [twoAhead] else [])
  }

  /**
   * The diagonal ahead by fileDelta, when on the board and holding an
   * enemy piece, or empty with the opponent's en-passant flag on that file
   * set and two ranks ahead being the opponent's pawn start rank.
   */
  function PawnDiagonal(s: BoardState, color: Color, from: Posn, fileDelta: int): seq<Posn>
    requires WellFormed(s)
  {
    var toPosn := Translate(from, Posn(Forward(color), fileDelta));
    var twoAhead := Translate(from, Posn(Forward(color) * 2, 0));
    if OnBoard(toPosn) then
      var enemyP := At(s, toPosn).Some? && At(s, toPosn).value.color == OtherColor(color);
      var enpP := At(s, toPosn).None? && s.enPassant.Get(OtherColor(color))[toPosn.file]
                  && twoAhead.rank == PawnStartRank(OtherColor(color));
      if enemyP || enpP then [toPosn] else []
    else []
  }

  /** The diagonals for the file deltas in order. */
  function PawnDiagonals(s: BoardState, color: Color, from: Posn, fileDeltas: seq<int>): seq<Posn>
    requires WellFormed(s)
    decreases |fileDeltas|
  {
    if |fileDeltas| == 0 then []
    else PawnDiagonals(s, color, from, fileDeltas[..|fileDeltas| - 1]) + PawnDiagonal(s, color, from, fileDeltas[|fileDeltas| - 1])
  }

  function PawnCandidates(s: BoardState, color: Color, from: Posn): seq<Posn>
    requires WellFormed(s)
  {
    PawnAhead(s, color, from) + PawnDiagonal(s, color, from, -1) + PawnDiagonal(s, color, from, 1)
  }

  /** One round of _canMoveTo_pawn's diagonal loop. */
  method PawnDiagonalMove(s: BoardState, color: Color, from: Posn, fileDelta: int) returns (moves: seq<Posn>)
    requires WellFormed(s)
    ensures moves == PawnDiagonal(s, color, from, fileDelta)
  {
    moves := [];
    var toPosn := Translate(from, Posn(Forward(color), fileDelta));
    var twoAhead := Translate(from, Posn(Forward(color) * 2, 0));
    if OnBoard(toPosn) {
      var otherColor := OtherColor(color);
      var enemyP := At(s, toPosn).Some? && At(s, toPosn).value.color == otherColor;
      var enpP := At(s, toPosn).None? && s.enPassant.Get(otherColor)[toPosn.file]
                  && twoAhead.rank == PawnStartRank(otherColor);
      if enemyP || enpP {
        moves := moves + [toPosn];
      }
    }
  }

  /** The first part of _canMoveTo_pawn: one square ahead, then two from the start rank. */
  method PawnAheadMoves(s: BoardState, color: Color, from: Posn) returns (moves: seq<Posn>)
    requires WellFormed(s)
    ensures moves == PawnAhead(s, color, from)
  {
    var oneAhead := Translate(from, Posn(Forward(color), 0));
    var twoAhead := Translate(from, Posn(Forward(color) * 2, 0));
    moves := [];
    if At(s, oneAhead).None? {
      moves := moves + [oneAhead];
    }
    if from.rank == PawnStartRank(color) && At(s, oneAhead).None? && At(s, twoAhead).None? {
      moves := moves + [twoAhead];
    }
  }

  /** _canMoveTo_pawn: the advances, then a loop over the file deltas -1 and 1. */
  method PawnMoves(s: BoardState, color: Color, from: Posn) returns (moves: seq<Posn>)
    requires WellFormed(s)
    ensures moves == PawnCandidates(s, color, from)
  {
    moves := PawnAheadMoves(s, color, from);
    ghost var ahead := moves;
    var fileDeltas := [-1, 1];
    var i := 0;
    while i < |fileDeltas|
      invariant 0 <= i <= |fileDeltas|
      invariant moves == ahead + PawnDiagonals(s, color, from, fileDeltas[..i])
    {
      var captures := PawnDiagonalMove(s, color, from, fileDeltas[i]);
      moves := moves + captures;
      assert fileDeltas[..i + 1][..i] == fileDeltas[..i];
      i := i + 1;
    }
    assert fileDeltas[..i] == [-1, 1];
    TwoDiagonals(s, color, from);
  }

  lemma TwoDiagonals(s: BoardState, color: Color, from: Posn)
    requires WellFormed(s)
    ensures PawnDiagonals(s, color, from, [-1, 1]) == PawnDiagonal(s, color, from, -1) + PawnDiagonal(s, color, from, 1)
  {
    assert [-1, 1][..1] == [-1];
    assert [-1][..0] == [];
  }

  // ---------------------------------------------------------------------
  // canMoveTo and enumPossBoardMoves
  // ---------------------------------------------------------------------

  /** Python 2's filter(keep, xs): the elements that pass, in order. */
  function Filter(keep: Posn -> bool, xs: seq<Posn>): (r: seq<Posn>)
    ensures |r| <= |xs|
    ensures forall x :: x in r <==> x in xs && keep(x)
    decreases |xs|
  {
    if |xs| == 0 then []
    else (if keep(xs[0]) then [xs[0]] else []) + Filter(keep, xs[1..])
  }

  /** The generator canMoveTo picks by the kind of the piece on `from`. */
  function Candidates(s: BoardState, from: Posn): seq<Posn>
    requires WellFormed(s) && At(s, from).Some?
  {
    var piece := At(s, from).value;
    match piece.kind
    case Pawn => PawnCandidates(s, piece.color, from)
    case Rook => RookCandidates(s, from)
    case Knight => KnightCandidates(from)
    case Bishop => BishopCandidates(s, from)
    case Queen => BishopCandidates(s, from) + RookCandidates(s, from)
    case King => KingCandidates(s, piece.color, from)
  }

  /** The second filter of canMoveTo: the square is empty or holds a piece of the other colour. */
  function NotOwn(s: BoardState, color: Color): Posn -> bool
    requires WellFormed(s)
  {
    p => At(s, p).None? || At(s, p).value.color != color
  }

  /** The candidates that survive canMoveTo's first two filters: on the board, and no capture of an own piece. */
  function Unblocked(s: BoardState, from: Posn): (r: seq<Posn>)
    requires WellFormed(s) && At(s, from).Some?
    ensures forall to :: to in r <==>
      to in Candidates(s, from) && OnBoard(to)
      && (At(s, to).None? || At(s, to).value.color != At(s, from).value.color)
  {
    Filter(NotOwn(s, At(s, from).value.color), Filter(OnBoard, Candidates(s, from)))
  }

  /**
   * What canMoveTo returns once its third filter asks `kingSafe(from, to)`:
   * the unblocked candidates that leave the mover's king safe.
   */
  function Reachable(s: BoardState, from: Posn, kingSafe: (Posn, Posn) -> bool): (r: seq<Posn>)
    requires WellFormed(s) && At(s, from).Some?
    ensures forall to :: to in r <==> to in Unblocked(s, from) && kingSafe(from, to)
  {
    Filter(to => kingSafe(from, to), Unblocked(s, from))
  }

  /** The candidates as written: the king's come from KingCandidatesAsWritten, every other piece's are Candidates'. */
  function CandidatesAsWritten(s: BoardState, from: Posn): seq<Posn>
    requires WellFormed(s) && At(s, from).Some?
  {
    var piece := At(s, from).value;
    if piece.kind == King then KingCandidatesAsWritten(s, piece.color, from) else Candidates(s, from)
  }

  /** The as-written candidates that survive canMoveTo's first two filters. */
  function UnblockedAsWritten(s: BoardState, from: Posn): (r: seq<Posn>)
    requires WellFormed(s) && At(s, from).Some?
    ensures forall to :: to in r <==>
      to in CandidatesAsWritten(s, from) && OnBoard(to)
      && (At(s, to).None? || At(s, to).value.color != At(s, from).value.color)
  {
    Filter(NotOwn(s, At(s, from).value.color), Filter(OnBoard, CandidatesAsWritten(s, from)))
  }

  /** For every piece but the king, the as-written candidates are Candidates, so both filters keep the same squares. */
  lemma UnblockedAgreesOffKing(s: BoardState, from: Posn)
    requires WellFormed(s) && At(s, from).Some? && At(s, from).value.kind != King
    ensures UnblockedAsWritten(s, from) == Unblocked(s, from)
  {
    assert CandidatesAsWritten(s, from) == Candidates(s, from);
  }

  /**
   * canMoveTo as written: selfKingNotInCheck calls isKingInCheck on what
   * getResultOfPly returns, which is the undo dictionary and not a board,
   * so the third filter raises AttributeError on the first candidate it
   * sees. The generator returns only when no candidate survives the first two filters.
   */
  function CanMoveToAsWritten(s: BoardState, from: Posn): (r: Outcome<seq<Posn>>)
    requires WellFormed(s) && At(s, from).Some?
    ensures r.Ok? <==> (forall to :: to !in UnblockedAsWritten(s, from))
    ensures r.Ok? ==> r.value == []
    ensures r.Raise? ==> r.error == AttributeError
  {
    var unblocked := UnblockedAsWritten(s, from);
    if |unblocked| == 0 then Ok([])
    else
      assert unblocked[0] in unblocked;
      Raise(AttributeError)
  }

  /** canMoveTo; its assertion that a piece stands on `from` is the precondition. */
  method CanMoveTo(s: BoardState, from: Posn, kingSafe: (Posn, Posn) -> bool) returns (toPosns: seq<Posn>)
    requires WellFormed(s) && At(s, from).Some?
    ensures toPosns == Reachable(s, from, kingSafe)
  {
    var fromPiece := At(s, from).value;
    match fromPiece.kind {
      case Pawn => toPosns := PawnMoves(s, fromPiece.color, from);
      case Rook => toPosns := RookMoves(s, fromPiece.color, from);
      case Knight => toPosns := KnightCandidates(from);
      case Bishop => toPosns := BishopMoves(s, fromPiece.color, from);
      case Queen => toPosns := QueenMoves(s, fromPiece.color, from);
      case King => toPosns := KingCandidates(s, fromPiece.color, from);
    }
    toPosns := Filter(OnBoard, toPosns);
    toPosns := Filter(NotOwn(s, fromPiece.color), toPosns);
    toPosns := Filter(to => kingSafe(from, to), toPosns);
  }

  /** The (from, to) pairs for one origin. */
  function Pairs(from: Posn, tos: seq<Posn>): (r: seq<(Posn, Posn)>)
    ensures forall m :: m in r <==> m.0 == from && m.1 in tos
    decreases |tos|
  {
    if |tos| == 0 then [] else [(from, tos[0])] + Pairs(from, tos[1..])
  }

  /** The pairs enumPossBoardMoves collects for one square: none unless the mover owns it. */
  function MovesFrom(s: BoardState, color: Color, from: Posn, kingSafe: (Posn, Posn) -> bool): (r: seq<(Posn, Posn)>)
    requires WellFormed(s)
    ensures forall m :: m in r ==> m.0 == from
  {
    if At(s, from).Some? && At(s, from).value.color == color then Pairs(from, Reachable(s, from, kingSafe)) else []
  }

  /** MovesFrom for every square of one board. */
  function OwnMoves(s: BoardState, color: Color, kingSafe: (Posn, Posn) -> bool): Posn -> seq<(Posn, Posn)>
    requires WellFormed(s)
  {
    from => MovesFrom(s, color, from, kingSafe)
  }

  /** The pairs for the squares of one rank before file `files`, in file order. */
  function RankMoves(rank: int, files: nat, movesFrom: Posn -> seq<(Posn, Posn)>): seq<(Posn, Posn)>
    decreases files
  {
    if files == 0 then [] else RankMoves(rank, files - 1, movesFrom) + movesFrom(Posn(rank, files - 1))
  }

  /** The pairs for the ranks before `ranks`, rank by rank. */
  function BoardMovesUpTo(ranks: nat, movesFrom: Posn -> seq<(Posn, Posn)>): seq<(Posn, Posn)>
    decreases ranks
  {
    if ranks == 0 then [] else BoardMovesUpTo(ranks - 1, movesFrom) + RankMoves(ranks - 1, BoardSize, movesFrom)
  }

  /** The body of enumPossBoardMoves' inner loop for one square. */
  method SquareMoves(s: BoardState, color: Color, fromPosn: Posn, kingSafe: (Posn, Posn) -> bool)
    returns (found: seq<(Posn, Posn)>)
    requires WellFormed(s)
    ensures found == MovesFrom(s, color, fromPosn, kingSafe)
  {
    found := [];
    var fromPiece := At(s, fromPosn);
    if fromPiece.Some? && fromPiece.value.color == color {
      var toPosns := CanMoveTo(s, fromPosn, kingSafe);
      found := Pairs(fromPosn, toPosns);
    }
  }

  /** The inner loop of enumPossBoardMoves: the squares of one rank, file by file. */
  method RankLoop(s: BoardState, color: Color, rankN: int, kingSafe: (Posn, Posn) -> bool)
    returns (moves: seq<(Posn, Posn)>)
    requires WellFormed(s)
    ensures moves == RankMoves(rankN, BoardSize, OwnMoves(s, color, kingSafe))
  {
    ghost var movesFrom := OwnMoves(s, color, kingSafe);
    moves := [];
    for fileN := 0 to BoardSize
      invariant moves == RankMoves(rankN, fileN, movesFrom)
    {
      var fromPosn := Posn(rankN, fileN);
      var found := SquareMoves(s, color, fromPosn, kingSafe);
      moves := moves + found;
      assert movesFrom(fromPosn) == MovesFrom(s, color, fromPosn, kingSafe);
    }
  }

  /** enumPossBoardMoves: every (from, to) for the colour, in row-major order of `from`. */
  method EnumPossBoardMoves(s: BoardState, color: Color, kingSafe: (Posn, Posn) -> bool)
    returns (moves: seq<(Posn, Posn)>)
    requires WellFormed(s)
    ensures moves == BoardMovesUpTo(BoardSize, OwnMoves(s, color, kingSafe))
  {
    moves := [];
    for rankN := 0 to BoardSize
      invariant moves == BoardMovesUpTo(rankN, OwnMoves(s, color, kingSafe))
    {
      var rankMoves := RankLoop(s, color, rankN, kingSafe);
      moves := moves + rankMoves;
    }
  }

  lemma {:induction false} RankMovesMembership(rank: int, files: nat, movesFrom: Posn -> seq<(Posn, Posn)>, m: (Posn, Posn))
    requires forall p, m :: m in movesFrom(p) ==> m.0 == p
    ensures m in RankMoves(rank, files, movesFrom) <==>
      m.0.rank == rank && 0 <= m.0.file < files && m in movesFrom(m.0)
    decreases files
  {
    if files > 0 {
      RankMovesMembership(rank, files - 1, movesFrom, m);
    }
  }

  lemma {:induction false} BoardMembership(ranks: nat, movesFrom: Posn -> seq<(Posn, Posn)>, m: (Posn, Posn))
    requires forall p, m :: m in movesFrom(p) ==> m.0 == p
    ensures m in BoardMovesUpTo(ranks, movesFrom) <==>
      0 <= m.0.rank < ranks && 0 <= m.0.file < BoardSize && m in movesFrom(m.0)
    decreases ranks
  {
    if ranks > 0 {
      BoardMembership(ranks - 1, movesFrom, m);
      RankMovesMembership(ranks - 1, BoardSize, movesFrom, m);
    }
  }

  /**
   * The enumeration holds exactly the pairs whose origin is on the board
   * and holds a piece of the colour, and whose destination canMoveTo returns.
   */
  lemma EnumMembership(s: BoardState, color: Color, kingSafe: (Posn, Posn) -> bool, from: Posn, to: Posn)
    requires WellFormed(s)
    ensures (from, to) in BoardMovesUpTo(BoardSize, OwnMoves(s, color, kingSafe)) <==>
      OnBoard(from) && At(s, from).Some? && At(s, from).value.color == color && to in Reachable(s, from, kingSafe)
  {
    var movesFrom := OwnMoves(s, color, kingSafe);
    forall p, m | m in movesFrom(p)
      ensures m.0 == p
    {
      assert movesFrom(p) == MovesFrom(s, color, p, kingSafe);
    }
    BoardMembership(BoardSize, movesFrom, (from, to));
    assert movesFrom(from) == MovesFrom(s, color, from, kingSafe);
  }

  // ---------------------------------------------------------------------
  // What the generators offer
  // ---------------------------------------------------------------------

  /** Between two squares of the board, a ray of n >= 7 steps along d reaches `to` exactly when `to` lies along d with nothing between. */
  lemma RayMembership(s: BoardState, from: Posn, d: Posn, n: nat, to: Posn)
    requires WellFormed(s) && Unit(d) && OnBoard(from) && OnBoard(to) && n >= BoardSize - 1
    ensures to in Walk(s, from, Steps(d, n)) <==>
      to != from && Straight(from, to) && DirOf(from, to) == d && IntermediateEmpty(s, from, to)
  {
    if to in Walk(s, from, Steps(d, n)) {
      RayIsSlide(s, from, d, n, to);
    }
    if to != from && Straight(from, to) && DirOf(from, to) == d {
      RayMatchesSlide(s, from, to, n);
    }
  }

  /** _canMoveTo_rook offers exactly the rook moves of BoardPaths: along a rank or a file, nothing in between. */
  lemma RookCandidatesMeaning(s: BoardState, from: Posn, to: Posn)
    requires WellFormed(s) && OnBoard(from) && OnBoard(to)
    ensures to in RookCandidates(s, from) <==>
      to != from && SlideShape(Rook, from, to) && IntermediateEmpty(s, from, to)
  {
    RayMembership(s, from, Posn(1, 0), BoardSize - 1, to);
    RayMembership(s, from, Posn(-1, 0), BoardSize - 1, to);
    RayMembership(s, from, Posn(0, 1), BoardSize - 1, to);
    RayMembership(s, from, Posn(0, -1), BoardSize - 1, to);
  }

  /** _canMoveTo_bishop offers exactly the diagonal moves with nothing in between. */
  lemma BishopCandidatesMeaning(s: BoardState, from: Posn, to: Posn)
    requires WellFormed(s) && OnBoard(from) && OnBoard(to)
    ensures to in BishopCandidates(s, from) <==>
      to != from && SlideShape(Bishop, from, to) && IntermediateEmpty(s, from, to)
  {
    RayMembership(s, from, Posn(1, 1), BoardSize, to);
    RayMembership(s, from, Posn(1, -1), BoardSize, to);
    RayMembership(s, from, Posn(-1, 1), BoardSize, to);
    RayMembership(s, from, Posn(-1, -1), BoardSize, to);
  }

  /** _canMoveTo_queen offers exactly the straight moves with nothing in between. */
  lemma QueenCandidatesMeaning(s: BoardState, from: Posn, to: Posn)
    requires WellFormed(s) && OnBoard(from) && OnBoard(to)
    ensures to in BishopCandidates(s, from) + RookCandidates(s, from) <==>
      to != from && SlideShape(Queen, from, to) && IntermediateEmpty(s, from, to)
  {
    RookCandidatesMeaning(s, from, to);
    BishopCandidatesMeaning(s, from, to);
  }

  /** _canMoveTo_knight offers exactly the (1, 2) and (2, 1) displacements. */
  lemma KnightCandidatesMeaning(from: Posn, to: Posn)
    ensures to in KnightCandidates(from) <==>
      (Abs(to.rank - from.rank) == 1 && Abs(to.file - from.file) == 2)
      || (Abs(to.rank - from.rank) == 2 && Abs(to.file - from.file) == 1)
  {
  }

  /**
   * _canMoveTo_king offers the eight neighbours, two files toward file 0
   * when the queen-side test passes and two files toward file 7 when the
   * king-side test passes.
   */
  lemma KingCandidatesMeaning(s: BoardState, color: Color, from: Posn, to: Posn)
    requires WellFormed(s)
    ensures to in KingCandidates(s, color, from) <==>
      (to != from && Abs(to.rank - from.rank) <= 1 && Abs(to.file - from.file) <= 1)
      || (to == Posn(from.rank, from.file - 2) && QueenSideOffered(s, color))
      || (to == Posn(from.rank, from.file + 2) && KingSideOffered(s, color))
  {
  }

  /** The straight advances _canMoveTo_pawn offers. */
  lemma PawnAheadMeaning(s: BoardState, color: Color, from: Posn, to: Posn)
    requires WellFormed(s) && OnBoard(to)
    ensures to in PawnAhead(s, color, from) <==>
      (Advance(color, from, to) == 1 && to.file == from.file && At(s, to).None?)
      || (Advance(color, from, to) == 2 && to.file == from.file && from.rank == PawnStartRank(color)
          && At(s, to).None? && At(s, Posn(from.rank + Forward(color), from.file)).None?)
  {
    var oneAhead := Translate(from, Posn(Forward(color), 0));
    var twoAhead := Translate(from, Posn(Forward(color) * 2, 0));
    if color == White {
      assert Advance(color, from, to) == to.rank - from.rank;
      assert oneAhead == Posn(from.rank + 1, from.file) && twoAhead == Posn(from.rank + 2, from.file);
    } else {
      assert Advance(color, from, to) == from.rank - to.rank;
      assert oneAhead == Posn(from.rank - 1, from.file) && twoAhead == Posn(from.rank - 2, from.file);
    }
  }

  /** The diagonal captures _canMoveTo_pawn offers, on destinations not holding an own piece. */
  lemma PawnDiagonalMeaning(s: BoardState, color: Color, from: Posn, to: Posn, fileDelta: int)
    requires WellFormed(s) && OnBoard(to) && (At(s, to).None? || At(s, to).value.color != color)
    ensures to in PawnDiagonal(s, color, from, fileDelta) <==>
      Advance(color, from, to) == 1 && to.file == from.file + fileDelta
      && (At(s, to).Some? || (s.enPassant.Get(OtherColor(color))[to.file] && to.rank == EpCaptureRank(color)))
  {
    EpCaptureRanks();
    assert Forward(color) * 2 == (if color == White then 2 else -2);
    assert Advance(color, from, to) == (if color == White then to.rank - from.rank else from.rank - to.rank);
  }

  /** On a destination of the board not holding an own piece, _canMoveTo_pawn offers exactly the pawn rule. */
  lemma PawnCandidatesMeaning(s: BoardState, color: Color, from: Posn, to: Posn)
    requires WellFormed(s) && OnBoard(to) && (At(s, to).None? || At(s, to).value.color != color)
    ensures to in PawnCandidates(s, color, from) <==> PawnRule(s, color, from, to)
  {
    PawnAheadMeaning(s, color, from, to);
    PawnDiagonalMeaning(s, color, from, to, -1);
    PawnDiagonalMeaning(s, color, from, to, 1);
  }

  // ---------------------------------------------------------------------
  // Agreement with isLegalMove of maverick.data
  // ---------------------------------------------------------------------

  /** For a piece other than the king, on a square that can be entered, the generator's candidates are its movement pattern. */
  lemma CandidatesArePattern(s: BoardState, from: Posn, to: Posn)
    requires WellFormed(s) && At(s, from).Some? && At(s, from).value.kind != King
    requires OnBoard(to) && (At(s, to).None? || At(s, to).value.color != At(s, from).value.color)
    ensures to in Candidates(s, from) <==>
      from != to && MovementInPattern(Legacy, s, At(s, from).value.color, from, to) == Ok(true)
  {
    var piece := At(s, from).value;
    match piece.kind
    case Pawn =>
      assert Candidates(s, from) == PawnCandidates(s, piece.color, from);
      PawnCandidatesMeaning(s, piece.color, from, to);
      PawnPatternMeaning(s, piece.color, from, to);
    case Rook =>
      assert Candidates(s, from) == RookCandidates(s, from);
      RookCandidatesMeaning(s, from, to);
      SlidingPattern(Legacy, s, piece.color, from, to);
    case Knight =>
      assert Candidates(s, from) == KnightCandidates(from);
      KnightCandidatesMeaning(from, to);
      KnightPatternMeaning(Legacy, s, piece.color, from, to);
    case Bishop =>
      assert Candidates(s, from) == BishopCandidates(s, from);
      BishopCandidatesMeaning(s, from, to);
      SlidingPattern(Legacy, s, piece.color, from, to);
    case Queen =>
      assert Candidates(s, from) == BishopCandidates(s, from) + RookCandidates(s, from);
      QueenCandidatesMeaning(s, from, to);
      SlidingPattern(Legacy, s, piece.color, from, to);
  }

  /**
   * For every piece but the king, and a destination holding no king,
   * canMoveTo returns `to` exactly when the static checks of data.py's
   * isLegalMove pass and kingSafe holds: the generator and the legality
   * test agree once kingSafe is isLegalMove's in-check test.
   */
  lemma ReachableAgreesWithIsLegalMove(s: BoardState, from: Posn, to: Posn, kingSafe: (Posn, Posn) -> bool)
    requires WellFormed(s) && At(s, from).Some? && At(s, from).value.kind != King
    requires At(s, to).None? || At(s, to).value.kind != King
    ensures to in Reachable(s, from, kingSafe) <==>
      StaticChecks(Legacy, s, At(s, from).value.color, from, to) == Ok(true) && kingSafe(from, to)
  {
    var color := At(s, from).value.color;
    if OnBoard(to) && (At(s, to).None? || At(s, to).value.color != color) {
      CandidatesArePattern(s, from, to);
    }
  }

  /**
   * canMoveTo offers the capture of the enemy king: a piece whose pattern
   * reaches the enemy king's square is offered that square, which
   * isLegalMove refuses.
   */
  lemma KingCaptureOffered(s: BoardState, from: Posn, to: Posn, kingSafe: (Posn, Posn) -> bool)
    requires WellFormed(s) && At(s, from).Some? && At(s, from).value.kind != King
    requires OnBoard(to) && At(s, to) == Some(Piece(OtherColor(At(s, from).value.color), King))
    requires MovementInPattern(Legacy, s, At(s, from).value.color, from, to) == Ok(true) && kingSafe(from, to)
    ensures to in Reachable(s, from, kingSafe)
    ensures StaticChecks(Legacy, s, At(s, from).value.color, from, to) == Ok(false)
  {
    CandidatesArePattern(s, from, to);
  }

  /** isLegalMove's refusal of a king's square, as a filter on destinations. */
  function NoKing(s: BoardState): Posn -> bool
    requires WellFormed(s)
  {
    p => At(s, p).None? || At(s, p).value.kind != King
  }

  /** canMoveTo with a fourth filter that drops a square holding a king, as isLegalMove does. */
  function ReachableWithoutKings(s: BoardState, from: Posn, kingSafe: (Posn, Posn) -> bool): (r: seq<Posn>)
    requires WellFormed(s) && At(s, from).Some?
    ensures forall to :: to in r <==>
      to in Reachable(s, from, kingSafe) && (At(s, to).None? || At(s, to).value.kind != King)
  {
    Filter(NoKing(s), Reachable(s, from, kingSafe))
  }

  /** With that filter, the generator and isLegalMove agree on every destination of a piece other than a king. */
  lemma ReachableWithoutKingsIsLegal(s: BoardState, from: Posn, to: Posn, kingSafe: (Posn, Posn) -> bool)
    requires WellFormed(s) && At(s, from).Some? && At(s, from).value.kind != King
    ensures to in ReachableWithoutKings(s, from, kingSafe) <==>
      StaticChecks(Legacy, s, At(s, from).value.color, from, to) == Ok(true) && kingSafe(from, to)
  {
    if At(s, to).None? || At(s, to).value.kind != King {
      ReachableAgreesWithIsLegalMove(s, from, to, kingSafe);
    }
  }

  /**
   * The self-check filter as data.py's isLegalMove applies it: the
   * king-safety test `inCheck` on the board after the hypothetical ply.
   */
  function DataKingSafe(s: BoardState, inCheck: (BoardState, Color) -> bool): (Posn, Posn) -> bool
    requires WellFormed(s)
  {
    (f, t) => BoardMoves.CanExecute(s, f, t) && !inCheck(BoardMoves.CheckedBoard(Legacy, s, f, t), At(s, f).value.color)
  }

  /**
   * With data.py's own king test as the self-check filter, a piece other
   * than a king is offered exactly the squares, other than a king's,
   * that the whole of isLegalMove accepts.
   */
  lemma ReachableIsLegalMove(s: BoardState, from: Posn, to: Posn, inCheck: (BoardState, Color) -> bool)
    requires WellFormed(s) && At(s, from).Some? && At(s, from).value.kind != King
    ensures to in ReachableWithoutKings(s, from, DataKingSafe(s, inCheck)) <==>
      BoardMoves.Legality(Legacy, s, At(s, from).value.color, from, to, inCheck) == Ok(true)
  {
    var color := At(s, from).value.color;
    ReachableWithoutKingsIsLegal(s, from, to, DataKingSafe(s, inCheck));
    BoardMoves.LegalityRejects(Legacy, s, color, from, to, inCheck);
    if StaticChecks(Legacy, s, color, from, to) == Ok(true) {
      BoardMoves.PassingStaticChecks(Legacy, s, color, from, to);
    }
  }

  /**
   * The enumeration with data.py's king test agrees with isLegalMove in
   * both directions on every pair whose origin is not a king and whose
   * destination holds no king, as the generator's tests expect.
   */
  lemma EnumIsLegalMove(s: BoardState, color: Color, inCheck: (BoardState, Color) -> bool, from: Posn, to: Posn)
    requires WellFormed(s) && (At(s, from).None? || At(s, from).value.kind != King)
    requires At(s, to).None? || At(s, to).value.kind != King
    ensures (from, to) in BoardMovesUpTo(BoardSize, OwnMoves(s, color, DataKingSafe(s, inCheck))) <==>
      BoardMoves.Legality(Legacy, s, color, from, to, inCheck) == Ok(true)
  {
    EnumMembership(s, color, DataKingSafe(s, inCheck), from, to);
    BoardMoves.LegalityRejects(Legacy, s, color, from, to, inCheck);
    if At(s, from).Some? && At(s, from).value.color == color {
      ReachableIsLegalMove(s, from, to, inCheck);
    }
  }

  /**
   * A king: every square canMoveTo returns that holds no king also passes
   * the static checks of isLegalMove, when the king stands on its home
   * square, when the square is a neighbour, or when the king holds no
   * castle right. A castle square offered from any other square can miss
   * the fixed landing squares of data.py's pattern. The converse fails:
   * isLegalMove lets a king castle over occupied squares.
   */
  lemma KingReachableIsLegal(s: BoardState, color: Color, from: Posn, to: Posn, kingSafe: (Posn, Posn) -> bool)
    requires WellFormed(s) && At(s, from) == Some(Piece(color, King))
    requires At(s, to).None? || At(s, to).value.kind != King
    requires to in Reachable(s, from, kingSafe)
    ensures from == Posn(HomeRank(color), 4)
            || (Abs(to.rank - from.rank) <= 1 && Abs(to.file - from.file) <= 1)
            || (!s.canCastle.Get(color).kingSide && !s.canCastle.Get(color).queenSide) ==>
      StaticChecks(Legacy, s, color, from, to) == Ok(true) && kingSafe(from, to)
  {
    assert Candidates(s, from) == KingCandidates(s, color, from);
    assert to in Unblocked(s, from) && kingSafe(from, to);
    KingCandidatesMeaning(s, color, from, to);
    if from == Posn(HomeRank(color), 4)
       || (Abs(to.rank - from.rank) <= 1 && Abs(to.file - from.file) <= 1)
       || (!s.canCastle.Get(color).kingSide && !s.canCastle.Get(color).queenSide) {
      KingCandidateInPattern(s, color, from, to);
      assert MovementInPattern(Legacy, s, color, from, to) == Ok(true);
    }
  }

  /** A king candidate in one of those three cases is a move of data.py's king pattern. */
  lemma KingCandidateInPattern(s: BoardState, color: Color, from: Posn, to: Posn)
    requires WellFormed(s)
    requires (to != from && Abs(to.rank - from.rank) <= 1 && Abs(to.file - from.file) <= 1)
             || (to == Posn(from.rank, from.file - 2) && QueenSideOffered(s, color))
             || (to == Posn(from.rank, from.file + 2) && KingSideOffered(s, color))
    requires from == Posn(HomeRank(color), 4)
             || (Abs(to.rank - from.rank) <= 1 && Abs(to.file - from.file) <= 1)
             || (!s.canCastle.Get(color).kingSide && !s.canCastle.Get(color).queenSide)
    ensures to != from && KingPattern(Legacy, s, color, from, to)
  {
    if !(Abs(to.rank - from.rank) <= 1 && Abs(to.file - from.file) <= 1) {
      var home := Posn(HomeRank(color), 4);
      if to == Posn(from.rank, from.file - 2) && QueenSideOffered(s, color) {
        assert from == home && to == CastleTarget(Legacy, 2, HomeRank(color));
        assert Abs(to.file - from.file) > 1 && to != CastleTarget(Legacy, 6, HomeRank(color));
      } else {
        assert to == Posn(from.rank, from.file + 2) && KingSideOffered(s, color);
        assert from == home && to == CastleTarget(Legacy, 6, HomeRank(color));
        assert Abs(to.file - from.file) > 1;
      }
    }
  }

  /** The k-th square from the king's home square toward a rook's: file 4 + k or 4 - k of the home rank. */
  lemma HomeRankSegment(rank: int, rookFile: int, k: int)
    requires rookFile == 0 || rookFile == 7
    ensures SegmentPoint(Posn(rank, 4), Posn(rank, rookFile), k) == Posn(rank, if rookFile == 7 then 4 + k else 4 - k)
  {
    assert Dir(rank, rank) == 0 && k * 0 == 0;
    assert Dir(4, rookFile) == (if rookFile == 7 then 1 else -1);
    assert k * (if rookFile == 7 then 1 else -1) == (if rookFile == 7 then k else -k);
  }

  /** The corrected king-side test asks for exactly the squares strictly between king and rook to be empty. */
  lemma KingSideTestClearsRookPath(s: BoardState, color: Color)
    requires WellFormed(s)
    ensures KingSideOffered(s, color) <==>
      s.canCastle.Get(color).kingSide && IntermediateEmpty(s, Posn(HomeRank(color), 4), Posn(HomeRank(color), 7))
  {
    if IntermediateEmpty(s, Posn(HomeRank(color), 4), Posn(HomeRank(color), 7)) {
      KingSidePathSquares(s, HomeRank(color));
    }
    if KingSideOffered(s, color) {
      KingSideSquaresPath(s, HomeRank(color));
    }
  }

  lemma KingSideSquaresPath(s: BoardState, r: int)
    requires WellFormed(s) && At(s, Posn(r, 5)).None? && At(s, Posn(r, 6)).None?
    ensures IntermediateEmpty(s, Posn(r, 4), Posn(r, 7))
  {
    var home, rook := Posn(r, 4), Posn(r, 7);
    assert Distance(home, rook) == 3;
    forall k | 1 <= k < Distance(home, rook)
      ensures At(s, SegmentPoint(home, rook, k)).None?
    {
      HomeRankSegment(r, 7, k);
      assert k == 1 || k == 2;
    }
  }

  lemma KingSidePathSquares(s: BoardState, r: int)
    requires WellFormed(s) && IntermediateEmpty(s, Posn(r, 4), Posn(r, 7))
    ensures At(s, Posn(r, 5)).None? && At(s, Posn(r, 6)).None?
  {
    var home, rook := Posn(r, 4), Posn(r, 7);
    assert Distance(home, rook) == 3;
    HomeRankSegment(r, 7, 1);
    assert At(s, SegmentPoint(home, rook, 1)).None?;
    HomeRankSegment(r, 7, 2);
    assert At(s, SegmentPoint(home, rook, 2)).None?;
  }

  /** The queen-side test asks for exactly the squares strictly between king and rook to be empty. */
  lemma QueenSideTestClearsRookPath(s: BoardState, color: Color)
    requires WellFormed(s)
    ensures QueenSideOffered(s, color) <==>
      s.canCastle.Get(color).queenSide && IntermediateEmpty(s, Posn(HomeRank(color), 4), Posn(HomeRank(color), 0))
  {
    if IntermediateEmpty(s, Posn(HomeRank(color), 4), Posn(HomeRank(color), 0)) {
      QueenSidePathSquares(s, HomeRank(color));
    } else if QueenSideOffered(s, color) {
      var r := HomeRank(color);
      var home, rook := Posn(r, 4), Posn(r, 0);
      assert Distance(home, rook) == 4;
      forall k | 1 <= k < Distance(home, rook)
        ensures At(s, SegmentPoint(home, rook, k)).None?
      {
        HomeRankSegment(r, 0, k);
        assert k == 1 || k == 2 || k == 3;
      }
    }
  }

  lemma QueenSidePathSquares(s: BoardState, r: int)
    requires WellFormed(s) && IntermediateEmpty(s, Posn(r, 4), Posn(r, 0))
    ensures At(s, Posn(r, 1)).None? && At(s, Posn(r, 2)).None? && At(s, Posn(r, 3)).None?
  {
    var home, rook := Posn(r, 4), Posn(r, 0);
    assert Distance(home, rook) == 4;
    HomeRankSegment(r, 0, 1);
    assert At(s, SegmentPoint(home, rook, 1)).None?;
    HomeRankSegment(r, 0, 2);
    assert At(s, SegmentPoint(home, rook, 2)).None?;
    HomeRankSegment(r, 0, 3);
    assert At(s, SegmentPoint(home, rook, 3)).None?;
  }

  /** The default board with f1 and g1 emptied: the king-side castle is ready, the rook still on h1. */
  function CastleReady(): (s: BoardState)
    ensures WellFormed(s)
  {
    DefaultBoard();
    InitialState().(layout := SetSq(SetSq(DefaultInitialLayout(), Posn(0, 5), None), Posn(0, 6), None))
  }

  /**
   * The king-side test as written refuses the castle data.py accepts on
   * CastleReady, and offers it once the rook has also left h1.
   */
  lemma KingSideTestNeedsRookGone()
    ensures StaticChecks(Legacy, CastleReady(), White, Posn(0, 4), Posn(0, 6)) == Ok(true)
    ensures !KingSideOfferedAsWritten(CastleReady(), White)
    ensures KingSideOffered(CastleReady(), White)
    ensures var noRook := CastleReady().(layout := SetSq(CastleReady().layout, Posn(0, 7), None));
      WellFormed(noRook) && KingSideOfferedAsWritten(noRook, White)
  {
    DefaultBoard();
    StructsRejectsRealCastle();
  }

  /** Any pawn with an empty square ahead makes canMoveTo as written raise AttributeError. */
  lemma PawnAdvanceRaises(s: BoardState, color: Color, from: Posn)
    requires WellFormed(s) && At(s, from) == Some(Piece(color, Pawn))
    requires OnBoard(Posn(from.rank + Forward(color), from.file)) && At(s, Posn(from.rank + Forward(color), from.file)).None?
    ensures CanMoveToAsWritten(s, from) == Raise(AttributeError)
  {
    var to := Posn(from.rank + Forward(color), from.file);
    assert Candidates(s, from) == PawnCandidates(s, color, from);
    PawnCandidatesMeaning(s, color, from, to);
    assert Advance(color, from, to) == 1;
    assert to in Unblocked(s, from);
    UnblockedAgreesOffKing(s, from);
  }

  /**
   * A king on its home square whose king-side test as written passes (the
   * right held, files 6 and 7 empty) is offered the empty square two files
   * over, so canMoveTo as written raises AttributeError, whatever stands
   * on file 5.
   */
  lemma KingSideCandidateRaises(s: BoardState, color: Color)
    requires WellFormed(s) && At(s, Posn(HomeRank(color), 4)) == Some(Piece(color, King))
    requires KingSideOfferedAsWritten(s, color)
    ensures CanMoveToAsWritten(s, Posn(HomeRank(color), 4)) == Raise(AttributeError)
  {
    KingSideCandidateKept(s, color);
  }

  lemma KingSideCandidateKept(s: BoardState, color: Color)
    requires WellFormed(s) && At(s, Posn(HomeRank(color), 4)) == Some(Piece(color, King))
    requires KingSideOfferedAsWritten(s, color)
    ensures Posn(HomeRank(color), 6) in UnblockedAsWritten(s, Posn(HomeRank(color), 4))
  {
    KingSideCandidateOffered(s, color);
    assert At(s, Posn(HomeRank(color), 6)).None?;
  }

  lemma KingSideCandidateOffered(s: BoardState, color: Color)
    requires WellFormed(s) && At(s, Posn(HomeRank(color), 4)) == Some(Piece(color, King))
    requires KingSideOfferedAsWritten(s, color)
    ensures Posn(HomeRank(color), 6) in CandidatesAsWritten(s, Posn(HomeRank(color), 4))
  {
    var from, to := Posn(HomeRank(color), 4), Posn(HomeRank(color), 6);
    assert to == Translate(from, Posn(0, 2));
    KingSideOfferedAt(s, color, from, to);
  }

  lemma KingSideOfferedAt(s: BoardState, color: Color, from: Posn, to: Posn)
    requires WellFormed(s) && At(s, from) == Some(Piece(color, King))
    requires KingSideOfferedAsWritten(s, color) && to == Translate(from, Posn(0, 2))
    ensures to in CandidatesAsWritten(s, from)
  {
    KingCandidatesAsWrittenOfKing(s, from);
  }

  lemma KingCandidatesAsWrittenOfKing(s: BoardState, from: Posn)
    requires WellFormed(s) && At(s, from).Some? && At(s, from).value.kind == King
    ensures CandidatesAsWritten(s, from) == KingCandidatesAsWritten(s, At(s, from).value.color, from)
  {
  }

  lemma KingSideTwoFilesOver(s: BoardState, color: Color, from: Posn)
    requires WellFormed(s) && KingSideOfferedAsWritten(s, color) && from == Posn(HomeRank(color), 4)
    ensures Posn(HomeRank(color), 6) in KingCandidatesAsWritten(s, color, from)
  {
    assert Translate(from, Posn(0, 2)) == Posn(HomeRank(color), 6);
  }

  /** On the default board the a-pawn has an empty square ahead, so canMoveTo as written raises AttributeError. */
  lemma OpeningPawnRaises()
    ensures WellFormed(InitialState()) && At(InitialState(), Posn(1, 0)).Some?
    ensures CanMoveToAsWritten(InitialState(), Posn(1, 0)) == Raise(AttributeError)
  {
    DefaultBoard();
    PawnAdvanceRaises(InitialState(), White, Posn(1, 0));
  }
}
