/**
 * Values shared by every generation of the Maverick chess engine:
 * colours, piece kinds, pieces, board positions, and the optional and
 * exceptional results that the Python code produces.
 */
module ChessTypes {

  datatype Option<T> = None | Some(value: T)

  /** The Python exceptions that the modelled code can raise. */
  datatype PyError = IndexError | TypeError | AttributeError | RuntimeError | UnboundLocalError | MaverickDataException

  /** A value, or the exception raised while computing it. */
  datatype Outcome<T> = Ok(value: T) | Raise(error: PyError)

  /** "W"/"B" in the maverick package, "O"/"X" in the stand-alone copies. */
  datatype Color = White | Black

  /** "P", "R", "N", "B", "Q", "K". */
  datatype Kind = Pawn | Rook | Knight | Bishop | Queen | King

  datatype Piece = Piece(color: Color, kind: Kind)

  /** One square of a layout: `None` or a piece. */
  type Square = Option<Piece>

  /** ChessPosn: a rank (row) and a file (column); any integers. */
  datatype Posn = Posn(rank: int, file: int)

  const BoardSize: int := 8

  /** getOtherColor. */
  function OtherColor(c: Color): (o: Color)
    ensures o != c
  {
    if c == White then Black else White
  }

  /** A Python dict keyed by the two colours. */
  datatype PerColor<T> = PerColor(white: T, black: T)
  {
    function Get(c: Color): T
    {
      if c == White then white else black
    }

    function Set(c: Color, v: T): (r: PerColor<T>)
      ensures r.Get(c) == v && r.Get(OtherColor(c)) == Get(OtherColor(c))
    {
      if c == White then PerColor(v, black) else PerColor(white, v)
    }
  }

  function Abs(x: int): nat
  {
    if x < 0 then -x else x
  }

  function Max(a: int, b: int): int
  {
    if a < b then b else a
  }

  /** Both coordinates in `range(8)`. */
  predicate OnBoard(p: Posn)
  {
    0 <= p.rank < BoardSize && 0 <= p.file < BoardSize
  }

  /** ChessPosn.getTranslatedBy(deltaRank, deltaFile), the two deltas given as a Posn. */
  function Translate(p: Posn, d: Posn): Posn
  {
    Posn(p.rank + d.rank, p.file + d.file)
  }

  /** Python's `xs[i]` on a list: a negative index counts from the end. */
  function PyIndex<T>(xs: seq<T>, i: int): Outcome<T>
  {
    if 0 <= i < |xs| then Ok(xs[i])
    else if -|xs| <= i < 0 then Ok(xs[|xs| + i])
    else Raise(IndexError)
  }

  /** `[x] * n` in Python. */
  function Repeat<T>(x: T, n: nat): (r: seq<T>)
    ensures |r| == n && forall i :: 0 <= i < n ==> r[i] == x
  {
    seq(n, _ => x)
  }
}
