/**
 * What the path helpers and the movement pattern of the 0-indexed engine
 * mean: the squares strictly between two points on a line, and a
 * declarative statement of each piece's rule, proved equal to the cascade
 * of delta tests in BoardRules.
 */
module BoardPaths {
  import opened ChessTypes
  import opened BoardRules

  /** For a straight move, the path is the strictly intermediate squares, in order from the origin. */
  lemma {:induction false} PathSquaresExact(from: Posn, to: Posn)
    requires Straight(from, to) && from != to
    ensures |PathSquares(from, to)| == Distance(from, to) - 1
    ensures forall k :: 0 <= k < |PathSquares(from, to)| ==> PathSquares(from, to)[k] == SegmentPoint(from, to, k + 1)
  {
    var rd := Abs(to.rank - from.rank);
    var fd := Abs(to.file - from.file);
    var path := PathSquares(from, to);
    var br := Between(from.rank, to.rank);
    var bf := Between(from.file, to.file);
    if rd == fd {
      assert |br| == rd - 1 && |bf| == fd - 1;
      assert path == Zip(br, bf);
      forall k | 0 <= k < |path|
        ensures path[k] == SegmentPoint(from, to, k + 1)
      {
        assert path[k] == Posn(br[k], bf[k]);
      }
    } else if rd == 0 {
      assert from.rank == to.rank && Dir(from.rank, to.rank) == 0;
      var rr := Repeat(from.rank, |bf|);
      assert path == Zip(rr, bf);
      forall k | 0 <= k < |path|
        ensures path[k] == SegmentPoint(from, to, k + 1)
      {
        assert path[k] == Posn(rr[k], bf[k]);
      }
    } else {
      assert from.file == to.file && Dir(from.file, to.file) == 0;
      var rf := Repeat(from.file, |br|);
      assert path == Zip(br, rf);
      forall k | 0 <= k < |path|
        ensures path[k] == SegmentPoint(from, to, k + 1)
      {
        assert path[k] == Posn(br[k], rf[k]);
      }
    }
  }

  /** A square is on the path exactly when it is k steps from the origin for some 0 < k < Distance. */
  lemma PathMembership(from: Posn, to: Posn, p: Posn)
    requires Straight(from, to) && from != to
    ensures p in PathSquares(from, to) <==> exists k :: 1 <= k < Distance(from, to) && p == SegmentPoint(from, to, k)
  {
    PathSquaresExact(from, to);
    var path := PathSquares(from, to);
    if p in path {
      var i :| 0 <= i < |path| && path[i] == p;
      assert p == SegmentPoint(from, to, i + 1);
    }
    if exists k :: 1 <= k < Distance(from, to) && p == SegmentPoint(from, to, k) {
      var k :| 1 <= k < Distance(from, to) && p == SegmentPoint(from, to, k);
      assert path[k - 1] == p;
    }
  }

  /** Neither end of a straight move lies on its path. */
  lemma PathExcludesEnds(from: Posn, to: Posn)
    requires Straight(from, to) && from != to
    ensures from !in PathSquares(from, to) && to !in PathSquares(from, to)
  {
    PathSquaresExact(from, to);
    var path := PathSquares(from, to);
    var d := Distance(from, to);
    forall i | 0 <= i < |path|
      ensures path[i] != from && path[i] != to
    {
      var k := i + 1;
      assert path[i] == SegmentPoint(from, to, k);
      if Abs(to.rank - from.rank) == d {
        assert to.rank == from.rank + d * Dir(from.rank, to.rank);
        assert Dir(from.rank, to.rank) != 0;
      } else {
        assert to.file == from.file + d * Dir(from.file, to.file);
        assert Dir(from.file, to.file) != 0;
      }
    }
  }

  /** The squares strictly between `from` and `to` on a line are all empty. */
  predicate IntermediateEmpty(s: BoardState, from: Posn, to: Posn)
    requires WellFormed(s)
  {
    forall k :: 1 <= k < Distance(from, to) ==> At(s, SegmentPoint(from, to, k)).None?
  }

  /** __isLegal_isClearLinearPath on a straight line: every strictly intermediate square is empty. */
  lemma ClearPathMeaning(s: BoardState, from: Posn, to: Posn)
    requires WellFormed(s) && Straight(from, to)
    ensures ClearPath(s, from, to) <==> IntermediateEmpty(s, from, to)
  {
    if from == to {
      assert PathSquares(from, to) == [];
      assert Distance(from, to) == 0;
    } else {
      PathSquaresExact(from, to);
      var path := PathSquares(from, to);
      if ClearPath(s, from, to) {
        forall k | 1 <= k < Distance(from, to)
          ensures At(s, SegmentPoint(from, to, k)).None?
        {
          assert path[k - 1] == SegmentPoint(from, to, k);
        }
      }
      if IntermediateEmpty(s, from, to) {
        forall i | 0 <= i < |path|
          ensures At(s, path[i]).None?
        {
          assert path[i] == SegmentPoint(from, to, i + 1);
        }
      }
    }
  }

  /** The shape each sliding piece moves in. */
  predicate SlideShape(kind: Kind, from: Posn, to: Posn)
  {
    match kind
    case Rook => from.rank == to.rank || from.file == to.file
    case Bishop => Abs(to.rank - from.rank) == Abs(to.file - from.file)
    case Queen => Straight(from, to)
    case _ => false
  }

  /** Rook, bishop and queen: the right shape and nothing in between. */
  lemma SlidingPattern(v: Version, s: BoardState, color: Color, from: Posn, to: Posn)
    requires WellFormed(s) && At(s, from).Some? && At(s, from).value.color == color
    requires At(s, from).value.kind == Rook || At(s, from).value.kind == Bishop || At(s, from).value.kind == Queen
    ensures MovementInPattern(v, s, color, from, to)
      == Ok(SlideShape(At(s, from).value.kind, from, to) && IntermediateEmpty(s, from, to))
  {
    if SlideShape(At(s, from).value.kind, from, to) {
      ClearPathMeaning(s, from, to);
    }
  }

  /** The knight: exactly the (1,2) and (2,1) displacements, whatever stands in between. */
  lemma KnightPatternMeaning(v: Version, s: BoardState, color: Color, from: Posn, to: Posn)
    requires WellFormed(s) && At(s, from) == Some(Piece(color, Knight))
    ensures MovementInPattern(v, s, color, from, to).Ok?
    ensures MovementInPattern(v, s, color, from, to).value <==>
      (Abs(to.rank - from.rank) == 1 && Abs(to.file - from.file) == 2)
      || (Abs(to.rank - from.rank) == 2 && Abs(to.file - from.file) == 1)
  {
  }

  /** The king: one square any way, or a landing on a castle target whose right is still held. */
  lemma KingPatternMeaning(v: Version, s: BoardState, color: Color, from: Posn, to: Posn)
    ensures KingPattern(v, s, color, from, to) <==>
      (Abs(to.rank - from.rank) <= 1 && Abs(to.file - from.file) <= 1)
      || (to == CastleTarget(v, 6, HomeRank(color)) && s.canCastle.Get(color).kingSide)
      || (to == CastleTarget(v, 2, HomeRank(color)) && s.canCastle.Get(color).queenSide)
  {
  }

  /**
   * In data.py a king move of more than one square lands on file 2 or 6
   * of its home rank (0 for White, 7 for Black) and needs the matching right.
   */
  lemma LegacyCastleLanding(s: BoardState, color: Color, from: Posn, to: Posn)
    requires KingPattern(Legacy, s, color, from, to)
    requires Abs(to.rank - from.rank) > 1 || Abs(to.file - from.file) > 1
    ensures to.rank == HomeRank(color) && (to.file == 6 || to.file == 2)
    ensures to.file == 6 ==> s.canCastle.Get(color).kingSide
    ensures to.file == 2 ==> s.canCastle.Get(color).queenSide
  {
  }

  /** The pawn's forward distance: positive toward the opponent. */
  function Advance(color: Color, from: Posn, to: Posn): int
  {
    (to.rank - from.rank) * Forward(color)
  }

  /**
   * The pawn rule, stated directly: one square ahead onto an empty square;
   * one square diagonally ahead onto a piece or onto the en-passant square
   * (the opponent's flag for that file set, rank 5 for White and 2 for
   * Black); or two squares ahead from the start rank over an empty square
   * onto an empty one.
   */
  predicate PawnRule(s: BoardState, color: Color, from: Posn, to: Posn)
    requires WellFormed(s) && 0 <= to.file < BoardSize
  {
    var adv := Advance(color, from, to);
    var dest := At(s, to);
    (adv == 1 && to.file == from.file && dest.None?)
    || (adv == 1 && Abs(to.file - from.file) == 1
        && (dest.Some? || (s.enPassant.Get(OtherColor(color))[to.file] && to.rank == EpCaptureRank(color))))
    || (adv == 2 && to.file == from.file && from.rank == PawnStartRank(color)
        && dest.None? && At(s, Posn(from.rank + Forward(color), from.file)).None?)
  }

  lemma EpCaptureRanks()
    ensures EpCaptureRank(White) == 5 && EpCaptureRank(Black) == 2
  {
  }

  /** On a destination file inside the board, the pawn cascade decides exactly PawnRule. */
  lemma PawnPatternMeaning(s: BoardState, color: Color, from: Posn, to: Posn)
    requires WellFormed(s) && 0 <= to.file < BoardSize
    ensures PawnPattern(s, color, from, to) == Ok(PawnRule(s, color, from, to))
  {
    var rd := Abs(to.rank - from.rank);
    var fd := Abs(to.file - from.file);
    if rd == 2 && fd == 0 && (color == White ==> to.rank > from.rank) && (color == Black ==> to.rank < from.rank) {
      ClearPathMeaning(s, from, to);
      assert Distance(from, to) == 2;
      assert SegmentPoint(from, to, 1) == Posn(from.rank + Forward(color), from.file);
    }
  }

  /**
   * The pattern raises IndexError exactly for a forward diagonal pawn step
   * whose destination file indexes past the opponent's eight flags
   * (file 8 or more, or below -8; file -1 reads flag 7).
   */
  lemma PawnPatternRaises(s: BoardState, color: Color, from: Posn, to: Posn)
    requires WellFormed(s)
    ensures PawnPattern(s, color, from, to).Raise? <==>
      Advance(color, from, to) == 1 && Abs(to.file - from.file) == 1 && !(-BoardSize <= to.file < BoardSize)
    ensures PawnPattern(s, color, from, to).Raise? ==> PawnPattern(s, color, from, to).error == IndexError
  {
  }
}
