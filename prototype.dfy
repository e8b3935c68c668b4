/**
 * The first server prototype (Maverick/maverick/server/TournamentSystem.py):
 * a 0-indexed ChessBoard whose squares are read as board[rank][file] (so
 * ranks and files -8 to -1 wrap round to the far end), its ChessMatch and
 * its TournamentSystem. Its isLegalMove only knows the pawn; its makePly
 * never changes a flag. The four empty ranks of a new board are one and
 * the same list, so the rows are arrays here and may alias.
 */
module Prototype {
  import opened ChessTypes
  import opened BoardRules
  import opened Match
  import MaverickChess
  import Server

  // ---------------------------------------------------------------------
  // Squares, 0-indexed
  // ---------------------------------------------------------------------

  /** `xs[i]` on a list of eight is defined for -8 <= i <= 7. */
  predicate Indexable(i: int)
  {
    -BoardSize <= i < BoardSize
  }

  predicate Indexed(p: Posn)
  {
    Indexable(p.rank) && Indexable(p.file)
  }

  /** The list index `xs[i]` reads: i, or counted from the end when i is negative. */
  function Slot(i: int): (k: int)
    requires Indexable(i)
    ensures 0 <= k < BoardSize
    ensures k == i || k == i + BoardSize
  {
    if i >= 0 then i else i + BoardSize
  }

  function Cell(p: Posn): (c: Posn)
    requires Indexed(p)
    ensures OnBoard(c)
    ensures OnBoard(p) ==> c == p
  {
    Posn(Slot(p.rank), Slot(p.file))
  }

  /** self.board[rank][file] on the rows' contents, which raises IndexError outside -8..7. */
  function Lookup(b: seq<seq<Square>>, p: Posn): (r: Outcome<Square>)
    requires Grid(b)
    ensures r.Ok? <==> Indexed(p)
    ensures r.Raise? ==> r.error == IndexError
    ensures r.Ok? ==> r.value == GetSq(b, Cell(p))
  {
    match PyIndex(b, p.rank)
    case Raise(e) => Raise(e)
    case Ok(row) => PyIndex(row, p.file)
  }

  /** A negative rank or file reads the square eight further on. */
  lemma NegativeIndexWraps(b: seq<seq<Square>>, p: Posn)
    requires Grid(b) && 0 <= p.rank < BoardSize && 0 <= p.file < BoardSize
    ensures Lookup(b, Posn(p.rank - BoardSize, p.file)) == Lookup(b, p)
    ensures Lookup(b, Posn(p.rank, p.file - BoardSize)) == Lookup(b, p)
    ensures Lookup(b, Posn(p.rank + BoardSize, p.file)) == Raise(IndexError)
  {
    assert Cell(Posn(p.rank - BoardSize, p.file)) == p;
    assert Cell(Posn(p.rank, p.file - BoardSize)) == p;
  }

  // ---------------------------------------------------------------------
  // isLegalMove
  // ---------------------------------------------------------------------

  /** The rank isLegalMove holds a double step to: 2 for White and 6 for Black. */
  function PawnStartRank(c: Color): int
  {
    if c == White then 2 else 6
  }

  /** The pawn test of isLegalMove; the double step compares the FILE with pawnStartRank. */
  function PawnMoveOk(color: Color, from: Posn, to: Posn, dest: Square): (r: bool)
    ensures r ==> MaverickChess.Advance1(color, from, to) == 1 || MaverickChess.Advance1(color, from, to) == 2
    ensures r && MaverickChess.Advance1(color, from, to) == 2 ==> to.file == from.file && from.file == PawnStartRank(color)
  {

    var rankDelta := MaverickChess.Advance1(color, from, to);
    var fd := Abs(to.file - from.file);
    if rankDelta != 1 && rankDelta != 2 then false
    else if rankDelta == 1 then !(fd != 0 && fd != 1) && !(fd == 1 && dest.None?) && !(fd == 0 && dest.Some?)
    else fd == 0 && from.file == PawnStartRank(color)
  }

  /**
   * The pawn: one square ahead onto an empty square, one square diagonally
   * ahead onto an occupied one, or two squares straight ahead from any rank
   * when it stands on file 2 (White) or file 6 (Black).
   */
  lemma PawnMoveMeaning(color: Color, from: Posn, to: Posn, dest: Square)
    ensures PawnMoveOk(color, from, to, dest) <==>
      (to.rank == from.rank + Forward(color) && to.file == from.file && dest.None?)
      || (to.rank == from.rank + Forward(color) && Abs(to.file - from.file) == 1 && dest.Some?)
      || (to.rank == from.rank + 2 * Forward(color) && to.file == from.file && from.file == PawnStartRank(color))
  {
  }

  /**
   * The double step is refused to every white pawn of the opening except
   * the one on file 2, which may step twice from any rank over anything.
   */
  lemma PawnDoubleStepTestsFile(f: int, r: int, dest: Square)
    ensures f != 2 ==> !PawnMoveOk(White, Posn(1, f), Posn(3, f), dest)
    ensures PawnMoveOk(White, Posn(r, 2), Posn(r + 2, 2), dest)
    ensures !PawnMoveOk(Black, Posn(6, 4), Posn(4, 4), None)
  {
  }

  /**
   * isLegalMove: both squares are read first, so an unaddressable one
   * raises IndexError; the origin must hold the mover's piece, a pawn must
   * pass the pawn test, and the destination must not hold the mover's
   * piece. No other piece has a test.
   */
  function IsLegalMove(b: seq<seq<Square>>, color: Color, from: Posn, to: Posn): (r: Outcome<bool>)
    requires Grid(b)
    ensures r.Raise? <==> !Indexed(from) || !Indexed(to)
    ensures r.Raise? ==> r.error == IndexError
    ensures r == Ok(true) <==>
      Indexed(from) && Indexed(to)
      && GetSq(b, Cell(from)).Some? && GetSq(b, Cell(from)).value.color == color
      && (GetSq(b, Cell(from)).value.kind == Pawn ==> PawnMoveOk(color, from, to, GetSq(b, Cell(to))))
      && !(GetSq(b, Cell(to)).Some? && GetSq(b, Cell(to)).value.color == color)
  {
    match Lookup(b, from)
    case Raise(e) => Raise(e)
    case Ok(origin) =>
      match Lookup(b, to)
      case Raise(e) => Raise(e)
      case Ok(destin) =>
        if origin.None? || origin.value.color != color then Ok(false)
        else if origin.value.kind == Pawn && !PawnMoveOk(color, from, to, destin) then Ok(false)
        else if destin.Some? && destin.value.color == color then Ok(false)
        else Ok(true)
  }

  /**
   * Any piece but a pawn may go to any addressable square that does not
   * hold a piece of its own colour, however far and over whatever stands
   * between; no piece may stay where it is.
   */
  lemma OnlyPawnsHaveRules(b: seq<seq<Square>>, color: Color, from: Posn, to: Posn)
    requires Grid(b) && Indexed(from) && Indexed(to)
    requires GetSq(b, Cell(from)).Some? && GetSq(b, Cell(from)).value.color == color
    ensures GetSq(b, Cell(from)).value.kind != Pawn ==>
      (IsLegalMove(b, color, from, to) == Ok(true) <==> GetSq(b, Cell(to)).None? || GetSq(b, Cell(to)).value.color != color)
    ensures Cell(from) == Cell(to) ==> IsLegalMove(b, color, from, to) == Ok(false)
  {
  }

  /** On a new board the white queen may take the pawn on d7 at once, through her own pawn. */
  lemma QueenCrossesTheBoard()
    ensures IsLegalMove(MaverickChess.StartingBoard(), White, Posn(0, 3), Posn(6, 3)) == Ok(true)
  {
    var b := MaverickChess.StartingBoard();
    assert GetSq(b, Posn(0, 3)) == Some(Piece(White, Queen));
    assert GetSq(b, Posn(6, 3)) == Some(Piece(Black, Pawn));
  }

  /** The pawn test with the double step taken from PAWN_STARTING_RANKS and compared with the rank. */
  function IntendedPawnMoveOk(color: Color, from: Posn, to: Posn, dest: Square): bool
  {
    var rankDelta := MaverickChess.Advance1(color, from, to);
    var fd := Abs(to.file - from.file);
    if rankDelta != 1 && rankDelta != 2 then false
    else if rankDelta == 1 then !(fd != 0 && fd != 1) && !(fd == 1 && dest.None?) && !(fd == 0 && dest.Some?)
    else fd == 0 && from.rank == BoardRules.PawnStartRank(color)
  }

  /**
   * Every pawn of the opening may step twice, and a double step straight
   * ahead is offered from the starting rank and from no other.
   */
  lemma IntendedDoubleStepFromStartRank(f: int, r: int, dest: Square)
    ensures IntendedPawnMoveOk(White, Posn(1, f), Posn(3, f), dest)
    ensures IntendedPawnMoveOk(Black, Posn(6, f), Posn(4, f), dest)
    ensures IntendedPawnMoveOk(White, Posn(r, f), Posn(r + 2, f), dest) <==> r == 1
    ensures IntendedPawnMoveOk(Black, Posn(r, f), Posn(r - 2, f), dest) <==> r == 6
  {
  }

  // ---------------------------------------------------------------------
  // ChessBoard
  // ---------------------------------------------------------------------

  class ChessBoard {
    /** The list of rows; two ranks may be one and the same list. */
    var board: seq<array<Square>>
    var flagEnPassant: PerColor<seq<bool>>
    var flagCanCastle: PerColor<Castle>

    function Rows(): set<array<Square>>
      reads this
    {
      set r | 0 <= r < |board| :: board[r]
    }

    /** Eight rows of eight, and the flags the constructor set: they never change. */
    ghost predicate Valid()
      reads this
    {
      |board| == BoardSize && (forall r :: 0 <= r < BoardSize ==> board[r].Length == BoardSize)
      && flagEnPassant == PerColor(Repeat(false, BoardSize), Repeat(false, BoardSize))
      && flagCanCastle == PerColor(MaverickChess.FullRights, MaverickChess.FullRights)
    }

    /** Ranks 2 to 5 are one list; every other rank is a list of its own. */
    predicate EmptyRanksShared()
      requires Valid()
      reads this
    {
      board[2] == board[3] && board[3] == board[4] && board[4] == board[5]
      && forall i, j :: 0 <= i < j < BoardSize && board[i] == board[j] ==> 2 <= i && j <= 5
    }

    /** What the rows hold, rank by rank. */
    function Layout(): (l: seq<seq<Square>>)
      requires Valid()
      reads this, Rows()
      ensures Grid(l)
      ensures forall r, f :: 0 <= r < BoardSize && 0 <= f < BoardSize ==> l[r][f] == board[r][f]
    {
      seq(BoardSize, r requires 0 <= r < |board| reads this, Rows() => board[r][..])
    }

    /** The contents after `self.board[p.rank][p.file] = sq`: every rank sharing p's row sees the write. */
    function Written(l: seq<seq<Square>>, p: Posn, sq: Square): (w: seq<seq<Square>>)
      requires Valid() && Grid(l) && Indexed(p)
      reads this
      ensures Grid(w)
      ensures forall r, f :: 0 <= r < BoardSize && 0 <= f < BoardSize ==>
        w[r][f] == if board[r] == board[Slot(p.rank)] && f == Slot(p.file) then sq else l[r][f]
    {
      var rows := board;
      seq(BoardSize, r requires 0 <= r < BoardSize =>
        seq(BoardSize, f requires 0 <= f < BoardSize =>
          if rows[r] == rows[Slot(p.rank)] && f == Slot(p.file) then sq else l[r][f]))
    }

    /** The contents after makePly moves the piece: origin emptied, then the piece written on the destination. */
    function Moved(l: seq<seq<Square>>, from: Posn, to: Posn): (w: seq<seq<Square>>)
      requires Valid() && Grid(l) && Indexed(from) && Indexed(to)
      reads this
      ensures Grid(w)
    {
      Written(Written(l, from, None), to, GetSq(l, Cell(from)))
    }

    /** ChessBoard(): the starting position, ranks 2 to 5 being four references to one empty list. */
    constructor ()
      ensures Valid() && fresh(Rows())
      ensures Layout() == MaverickChess.StartingBoard()
      ensures EmptyRanksShared()
    {
      var white := MaverickChess.BackRank(White);
      var black := MaverickChess.BackRank(Black);
      var r0 := new Square[BoardSize](i requires 0 <= i < BoardSize => white[i]);
      var r1 := new Square[BoardSize](_ => Some(Piece(White, Pawn)));
      var empty := new Square[BoardSize](_ => None);
      var r6 := new Square[BoardSize](_ => Some(Piece(Black, Pawn)));
      var r7 := new Square[BoardSize](i requires 0 <= i < BoardSize => black[i]);
      board := [r0, r1, empty, empty, empty, empty, r6, r7];
      flagEnPassant := PerColor(Repeat(false, BoardSize), Repeat(false, BoardSize));
      flagCanCastle := PerColor(MaverickChess.FullRights, MaverickChess.FullRights);
      new;
      assert Layout() == MaverickChess.StartingBoard() by {
        SameGrid(Layout(), MaverickChess.StartingBoard());
      }
    }

    /**
     * makePly: isLegalMove's verdict; on a legal move the origin is emptied
     * and the piece written onto the destination, through the row lists. The
     * flags stay as they were: the mover's en-passant flags are replaced by
     * eight false flags, which they already were, every test `movedPiece ==
     * self.KING` (ROOK, PAWN) compares a (colour, type) tuple with a
     * one-letter string, which is never true, and the en-passant capture
     * never finds its flag set.
     */
    method MakePly(color: Color, from: Posn, to: Posn) returns (r: Outcome<bool>)
      requires Valid()
      modifies this, Rows()
      ensures Valid() && board == old(board)
      ensures flagEnPassant == old(flagEnPassant) && flagCanCastle == old(flagCanCastle)
      ensures r == IsLegalMove(old(Layout()), color, from, to)
      ensures Layout() == if r == Ok(true) then Moved(old(Layout()), from, to) else old(Layout())
    {
      var legal := IsLegalMove(Layout(), color, from, to);
      if legal != Ok(true) {
        return legal;
      }
      ghost var before := Layout();
      var movedPiece := board[Slot(from.rank)][Slot(from.file)];
      assert movedPiece == GetSq(before, Cell(from));
      flagEnPassant := flagEnPassant.Set(color, Repeat(false, BoardSize));
      assert Layout() == before;
      Put(from, None);
      Put(to, movedPiece);
      return Ok(true);
    }

    /** `self.board[p.rank][p.file] = sq`, through the row list. */
    method Put(p: Posn, sq: Square)
      requires Valid() && Indexed(p)
      modifies Rows()
      ensures Layout() == Written(old(Layout()), p, sq)
    {
      ghost var before := Layout();
      var row := board[Slot(p.rank)];
      row[Slot(p.file)] := sq;
      SameGrid(Layout(), Written(before, p, sq));
    }
  }

  /** Two grids with the same squares are equal. */
  lemma SameGrid(a: seq<seq<Square>>, b: seq<seq<Square>>)
    requires Grid(a) && Grid(b)
    requires forall r, f :: 0 <= r < BoardSize && 0 <= f < BoardSize ==> a[r][f] == b[r][f]
    ensures a == b
  {
    forall r | 0 <= r < BoardSize
      ensures a[r] == b[r]
    {
      assert forall f :: 0 <= f < BoardSize ==> a[r][f] == b[r][f];
    }
  }

  /**
   * On a new board the white pawn a2-a3 (rank 1 to rank 2, file 0) lands
   * on the list that ranks 2 to 5 share, so a white pawn then stands on
   * file 0 of each of those four ranks.
   */
  lemma FirstStepLegal()
    ensures IsLegalMove(MaverickChess.StartingBoard(), White, Posn(1, 0), Posn(2, 0)) == Ok(true)
    ensures GetSq(MaverickChess.StartingBoard(), Posn(1, 0)) == Some(Piece(White, Pawn))
  {
    var start := MaverickChess.StartingBoard();
    assert GetSq(start, Posn(1, 0)) == Some(Piece(White, Pawn));
    assert GetSq(start, Posn(2, 0)) == None;
  }

  method FirstStepFillsFourRanks() returns (b: ChessBoard, r: Outcome<bool>)
    ensures b.Valid() && r == Ok(true)
    ensures forall k :: 2 <= k <= 5 ==> b.Layout()[k][0] == Some(Piece(White, Pawn))
    ensures b.Layout()[1][0] == None
  {
    b := new ChessBoard();
    ghost var start := b.Layout();
    ghost var rows := b.board;
    assert rows[2] == rows[3] == rows[4] == rows[5] && rows[1] != rows[2];
    FirstStepLegal();
    r := b.MakePly(White, Posn(1, 0), Posn(2, 0));
    assert b.board == rows;
    ghost var lifted := b.Written(start, Posn(1, 0), None);
    ghost var placed := b.Written(lifted, Posn(2, 0), Some(Piece(White, Pawn)));
    assert b.Layout() == b.Moved(start, Posn(1, 0), Posn(2, 0));
    assert b.Moved(start, Posn(1, 0), Posn(2, 0)) == placed by {
      assert GetSq(start, Cell(Posn(1, 0))) == Some(Piece(White, Pawn));
    }
    forall k | 2 <= k <= 5
      ensures placed[k][0] == Some(Piece(White, Pawn))
    {
      assert k == 2 || k == 3 || k == 4 || k == 5;
      assert b.board[k] == b.board[Slot(2)];
    }
  }

  // ---------------------------------------------------------------------
  // ChessMatch
  // ---------------------------------------------------------------------

  /**
   * ChessMatch.makePly's reply: the status, membership and turn tests, then
   * the verdict `legal` of the board's makePly for the player to move.
   */
  function MatchReply(status: Status, players: PerColor<Option<int>>, n: nat, player: int, legal: Outcome<bool>): (r: Outcome<PlyReply>)
    ensures r == Ok(NotInProgress) <==> status != Ongoing
    ensures r == Ok(NotAPlayer) <==> status == Ongoing && ColorOfPlayer(players, player).None?
    ensures r == Ok(NotYourTurn) <==>
      status == Ongoing && ColorOfPlayer(players, player).Some? && ColorOfPlayer(players, player).value != TurnOf(n)
    ensures r == Ok(Success) <==> status == Ongoing && ColorOfPlayer(players, player) == Some(TurnOf(n)) && legal == Ok(true)
    ensures r == Ok(IllegalMove) <==> status == Ongoing && ColorOfPlayer(players, player) == Some(TurnOf(n)) && legal == Ok(false)
    ensures r.Raise? <==> status == Ongoing && ColorOfPlayer(players, player) == Some(TurnOf(n)) && legal.Raise?
    ensures r.Raise? ==> r.error == legal.error
  {
    if status != Ongoing then Ok(NotInProgress)
    else
      var color := ColorOfPlayer(players, player);
      if color.None? then Ok(NotAPlayer)
      else if color.value != TurnOf(n) then Ok(NotYourTurn)
      else match legal
        case Raise(e) => Raise(e)
        case Ok(moved) => if moved then Ok(Success) else Ok(IllegalMove)
  }

  class ChessMatch {
    const board: ChessBoard
    var players: PerColor<Option<int>>
    var status: Status
    var history: seq<Ply>

    ghost predicate Valid()
      reads this, board
    {
      board.Valid() && (status == Pending ==> players.white.None? || players.black.None?)
    }

    /** ChessMatch(firstPlayerID): a new board, and the first player in a slot chosen at random. */
    constructor (firstPlayerID: Option<int>)
      ensures Valid() && fresh(board) && fresh(board.Rows())
      ensures board.Layout() == MaverickChess.StartingBoard() && board.EmptyRanksShared()
      ensures status == Pending && history == []
      ensures players == PerColor(firstPlayerID, None) || players == PerColor(None, firstPlayerID)
    {
      board := new ChessBoard();
      var slot: Color :| true;
      players := PerColor(None, None).Set(slot, firstPlayerID);
      status := Pending;
      history := [];
    }

    /** whoseTurn of the prototype's ChessMatch class, which shares no code with the other two. */
    function WhoseTurn(): (c: Color)
      reads this
      ensures c == White <==> |history| % 2 == 0
    {
      TurnOf(|history|)
    }

    /**
     * makePly: the reply MatchReply gives; the board's makePly runs only
     * for the player to move in an ongoing match, and the ply is appended
     * to the history only when it succeeds.
     */
    method MakePly(player: int, from: Posn, to: Posn) returns (r: Outcome<PlyReply>)
      requires Valid()
      modifies this, board, board.Rows()
      ensures Valid() && board.board == old(board.board)
      ensures players == old(players) && status == old(status)
      ensures r == MatchReply(old(status), old(players), |old(history)|, player,
                              IsLegalMove(old(board.Layout()), TurnOf(|old(history)|), from, to))
      ensures history == if r == Ok(Success) then old(history) + [Ply(from, to)] else old(history)
      ensures board.Layout() == if r == Ok(Success) then board.Moved(old(board.Layout()), from, to) else old(board.Layout())
    {
      if status == Ongoing {
        var color;
        if players.white == Some(player) {
          color := White;
        } else if players.black == Some(player) {
          color := Black;
        } else {
          return Ok(NotAPlayer);
        }
        if color != WhoseTurn() {
          return Ok(NotYourTurn);
        }
        ghost var before := board.Layout();
        var moved := board.MakePly(color, from, to);
        assert moved == IsLegalMove(before, TurnOf(|history|), from, to);
        if moved.Raise? {
          return Raise(moved.error);
        }
        if moved.value {
          ghost var after := board.Layout();
          history := history + [Ply(from, to)];
          assert board.Layout() == after == board.Moved(before, from, to);
          return Ok(Success);
        } else {
          return Ok(IllegalMove);
        }
      } else {
        return Ok(NotInProgress);
      }
    }

    /**
     * join: nothing unless the match is pending and the player holds no
     * slot; otherwise the first empty slot, White before Black, is filled,
     * its colour returned, and the match starts once neither slot is empty.
     */
    method Join(playerID: int) returns (r: Option<Color>)
      requires Valid()
      modifies this
      ensures Valid() && history == old(history)
      ensures !Server.Joinable(old(status), old(players), playerID) ==> r == None && unchanged(this)
      ensures Server.Joinable(old(status), old(players), playerID) ==>
        if old(players.white).None? then r == Some(White) && players == old(players).(white := Some(playerID))
        else r == Some(Black) && players == old(players).(black := Some(playerID))
      ensures r.Some? ==> status == if players.white.Some? && players.black.Some? then Ongoing else Pending
    {
      if status != Pending {
        return None;
      }
      if players.white == Some(playerID) || players.black == Some(playerID) {
        return None;
      }
      var colors := [White, Black];
      var i := 0;
      while i < |colors|
        invariant 0 <= i <= |colors|
        invariant unchanged(this)
        invariant i >= 1 ==> players.white.Some?
        invariant i >= 2 ==> players.black.Some?
      {
        var color := colors[i];
        if players.Get(color).None? {
          players := players.Set(color, Some(playerID));
          if players.white.Some? && players.black.Some? {
            status := Ongoing;
          }
          return Some(color);
        }
        i := i + 1;
      }
      // a pending match always has an empty slot
      assert false;
    }
  }

  // ---------------------------------------------------------------------
  // TournamentSystem
  // ---------------------------------------------------------------------

  class TournamentSystem {
    var games: map<int, ChessMatch>
    var players: map<int, string>

    ghost predicate Valid()
      reads this
    {
      Server.NamesUnique(players)
    }

    constructor ()
      ensures Valid() && games == map[] && players == map[]
    {
      games := map[];
      players := map[];
    }

    /** register: a taken name is refused; a new one is mapped from a fresh ID. */
    method Register(name: string) returns (r: Outcome<MaverickChess.Response>)
      requires Valid()
      modifies this
      ensures Valid() && games == old(games)
      ensures Server.Registered(old(players), name) ==>
        r == Ok(MaverickChess.Failed("player with this name already exists")) && players == old(players)
      ensures !Server.Registered(old(players), name) && r.Ok? ==>
        r.value.Succeeded? && r.value.payload.PlayerIdIs?
        && r.value.payload.playerID !in old(players) && 1 <= r.value.payload.playerID <= Server.MaxVals
        && players == old(players)[r.value.payload.playerID := name]
      ensures r.Raise? ==>
        !Server.Registered(old(players), name) && |old(players)| >= Server.MaxSize
        && r.error == RuntimeError && players == old(players)
    {
      if exists id :: id in players && players[id] == name {
        return Ok(MaverickChess.Failed("player with this name already exists"));
      }
      var newID := Server.UniqueInt(players.Keys);
      if newID.Raise? {
        return Raise(newID.error);
      }
      players := players[newID.value := name];
      return Ok(MaverickChess.Succeeded(MaverickChess.PlayerIdIs(newID.value)));
    }

    /**
     * joinGame. `for (gameID, game) in self.games` iterates the dict's keys
     * and unpacks the first one, an int, into two names: that raises
     * TypeError whenever a game exists. With no game, a new pending match
     * holding the player is stored under a fresh ID.
     */
    method JoinGame(playerID: int) returns (r: Outcome<MaverickChess.Response>)
      requires Valid()
      modifies this
      ensures Valid() && players == old(players)
      ensures old(games) != map[] ==> r == Raise(TypeError) && games == old(games)
      ensures old(games) == map[] ==>
        r.Ok? && r.value.Succeeded? && r.value.payload.GameIdIs?
        && var id := r.value.payload.gameID;
        games.Keys == {id} && 1 <= id <= Server.MaxVals
        && fresh(games[id]) && fresh(games[id].board) && games[id].Valid()
        && games[id].status == Pending && games[id].history == []
        && games[id].board.Layout() == MaverickChess.StartingBoard()
        && (games[id].players == PerColor(Some(playerID), None) || games[id].players == PerColor(None, Some(playerID)))
    {
      if games != map[] {
        return Raise(TypeError);
      }
      var newGame := new ChessMatch(Some(playerID));
      var newID := Server.UniqueInt(games.Keys);
      assert newID.Ok?;
      games := games[newID.value := newGame];
      return Ok(MaverickChess.Succeeded(MaverickChess.GameIdIs(newID.value)));
    }

    /** cancelGame: an active match is cancelled and None returned; otherwise an error. */
    method CancelGame(gameID: int) returns (r: Option<MaverickChess.Response>)
      requires Valid()
      modifies if gameID in games then {games[gameID]} else {}
      ensures Valid() && games == old(games) && players == old(players)
      ensures gameID !in games ==> r == Some(MaverickChess.Failed("Invalid game ID"))
      ensures gameID in games ==>
        (r.None? <==> old(games[gameID].status) == Ongoing || old(games[gameID].status) == Pending)
        && (r.None? ==> games[gameID].status == Cancelled
                        && games[gameID].players == old(games[gameID].players)
                        && games[gameID].history == old(games[gameID].history))
        && (r.Some? ==> r == Some(MaverickChess.Failed("Game not active")) && unchanged(games[gameID]))
    {
      if gameID in games {
        var game := games[gameID];
        if game.status == Ongoing || game.status == Pending {
          game.status := Cancelled;
          return None;
        } else {
          return Some(MaverickChess.Failed("Game not active"));
        }
      } else {
        return Some(MaverickChess.Failed("Invalid game ID"));
      }
    }

    /** getStatus: the status string of a registered match. */
    function GetStatus(gameID: int): (r: MaverickChess.Response)
      reads this, games.Values
      ensures r.Succeeded? <==> gameID in games
      ensures r.Succeeded? ==> r.payload == MaverickChess.StatusIs(StatusCode(games[gameID].status))
      ensures r.Failed? ==> r.error == "Invalid game ID"
    {
      if gameID in games then MaverickChess.Succeeded(MaverickChess.StatusIs(StatusCode(games[gameID].status)))
      else MaverickChess.Failed("Invalid game ID")
    }

    /**
     * getState: for a registered match the reply reads `g.board.history`,
     * an attribute a ChessBoard does not have, so it raises AttributeError.
     */
    function GetState(gameID: int): (r: Outcome<MaverickChess.Response>)
      reads this
      ensures r.Raise? <==> gameID in games
      ensures r.Raise? ==> r.error == AttributeError
      ensures r.Ok? ==> r.value == MaverickChess.Failed("Invalid game ID")
    {
      if gameID in games then Raise(AttributeError)
      else Ok(MaverickChess.Failed("Invalid game ID"))
    }

    /**
     * makePly: for a registered match it calls the match's makePly with the
     * game ID as an extra argument, six where five are taken, so it raises
     * TypeError before anything changes.
     */
    function MakePly(playerID: int, gameID: int, from: Posn, to: Posn): (r: Outcome<MaverickChess.Response>)
      reads this
      ensures r.Raise? <==> gameID in games
      ensures r.Raise? ==> r.error == TypeError
      ensures r.Ok? ==> r.value == MaverickChess.Failed("Invalid game ID")
    {
      if gameID in games then Raise(TypeError)
      else Ok(MaverickChess.Failed("Invalid game ID"))
    }
  }
}
