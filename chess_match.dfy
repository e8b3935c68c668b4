/**
 * ChessMatch of maverick.data.structs (Structs) and maverick.data (Legacy):
 * two player slots, a status, and the ply history whose parity gives the
 * turn. The board is a ChessBoard object, absent until both players have
 * joined. Checkmate detection is a parameter `checkmated(board, color)`.
 */
module Match {
  import opened ChessTypes
  import opened BoardRules
  import BoardMoves
  import opened Board

  /** STATUS_PENDING, STATUS_ONGOING, STATUS_BLACK_WON, STATUS_WHITE_WON, STATUS_DRAWN, STATUS_CANCELLED. */
  datatype Status = Pending | Ongoing | BlackWon | WhiteWon | Drawn | Cancelled

  function StatusCode(st: Status): string
  {
    match st
    case Pending => "PENDING"
    case Ongoing => "ONGOING"
    case BlackWon => "W_BLACK"
    case WhiteWon => "W_WHITE"
    case Drawn => "W_DRAWN"
    case Cancelled => "CANCELD"
  }

  /** A (fromPosn, toPosn) entry of the history. */
  datatype Ply = Ply(from: Posn, to: Posn)

  /** The strings makePly returns. */
  datatype PlyReply = Success | NotInProgress | NotAPlayer | NotYourTurn | IllegalMove

  function ReplyText(r: PlyReply): string
  {
    match r
    case Success => "SUCCESS"
    case NotInProgress => "Game not in progress"
    case NotAPlayer => "You are not a player in this game"
    case NotYourTurn => "It is not your turn"
    case IllegalMove => "Illegal move"
  }

  /** whoseTurn for a history of n plies. */
  function TurnOf(n: nat): Color
  {
    if n % 2 == 0 then White else Black
  }

  lemma TurnAlternates(n: nat)
    ensures TurnOf(n + 1) == OtherColor(TurnOf(n))
    ensures TurnOf(0) == White
  {
  }

  /** getColorOfPlayer on the slot dict. */
  function ColorOfPlayer(players: PerColor<Option<int>>, id: int): (r: Option<Color>)
    ensures r == Some(White) <==> players.white == Some(id)
    ensures r == Some(Black) <==> players.white != Some(id) && players.black == Some(id)
    ensures r.Some? ==> players.Get(r.value) == Some(id)
  {
    if players.white == Some(id) then Some(White)
    else if players.black == Some(id) then Some(Black)
    else None
  }

  /**
   * The slots after join's loop, which has no break: every empty slot gets
   * the player, so a match with both slots empty ends up with the player
   * on both sides.
   */
  function JoinedPlayers(players: PerColor<Option<int>>, id: int): (r: PerColor<Option<int>>)
    ensures r.white.Some? && r.black.Some?
    ensures players.white.None? || players.black.None? ==> r.white == Some(id) || r.black == Some(id)
    ensures players.white.Some? ==> r.white == players.white
    ensures players.black.Some? ==> r.black == players.black
  {
    PerColor(if players.white.None? then Some(id) else players.white,
             if players.black.None? then Some(id) else players.black)
  }

  /** The fields of a ChessMatch, with the board's fields in place of the board object. */
  datatype MatchState = MatchState(
    board: Option<BoardState>,
    players: PerColor<Option<int>>,
    status: Status,
    history: seq<Ply>)

  predicate MatchOk(m: MatchState)
  {
    (m.board.Some? ==> WellFormed(m.board.value)) && (m.status == Ongoing ==> m.board.Some?)
  }

  datatype PlyResult = PlyResult(state: MatchState, reply: Outcome<PlyReply>)

  /**
   * What makePly does once the board's own makePly has answered `p` for
   * the player whose turn it is. The board changes even when it rejects
   * the ply (the legality test leaves its traces). On success structs.py
   * records the ply and then looks for mate and the 50-move draw; data.py
   * looks for mate first and records the ply only when there is none.
   */
  function AfterBoardPly(v: Version, m: MatchState, from: Posn, to: Posn, p: BoardMoves.PlyOutcome,
                         checkmated: (BoardState, Color) -> bool): (r: PlyResult)
    requires MatchOk(m) && WellFormed(p.state)
    ensures MatchOk(r.state)
  {
    var m1 := m.(board := Some(p.state));
    match p.verdict
    case Raise(e) => PlyResult(m1, Raise(e))
    case Ok(moveLegal) =>
      if !moveLegal then PlyResult(m1, Ok(IllegalMove))
      else if v == Structs then
        var status :=
          if checkmated(p.state, White) then BlackWon
          else if checkmated(p.state, Black) then WhiteWon
          else if p.state.drawCounter >= 51 then Drawn
          else m.status;
        PlyResult(m1.(history := m.history + [Ply(from, to)], status := status), Ok(Success))
      else if checkmated(p.state, White) then PlyResult(m1.(status := BlackWon), Ok(Success))
      else if checkmated(p.state, Black) then PlyResult(m1.(status := WhiteWon), Ok(Success))
      else PlyResult(m1.(history := m.history + [Ply(from, to)]), Ok(Success))
  }

  /** makePly: the status, membership and turn tests, then the board's makePly. */
  function MatchPly(v: Version, m: MatchState, player: int, from: Posn, to: Posn,
                    inCheck: (BoardState, Color) -> bool, checkmated: (BoardState, Color) -> bool): (r: PlyResult)
    requires MatchOk(m)
    ensures MatchOk(r.state)
  {
    if m.status != Ongoing then PlyResult(m, Ok(NotInProgress))
    else
      var color := ColorOfPlayer(m.players, player);
      if color.None? then PlyResult(m, Ok(NotAPlayer))
      else if color.value != TurnOf(|m.history|) then PlyResult(m, Ok(NotYourTurn))
      else AfterBoardPly(v, m, from, to, BoardMoves.MakePly(v, m.board.value, color.value, from, to, inCheck), checkmated)
  }

  /**
   * The replies come in this order: not ongoing, not a player, not their
   * turn, each leaving the match as it was; then whatever follows the
   * board's makePly for the player to move.
   */
  lemma MatchPlyPrecedence(v: Version, m: MatchState, player: int, from: Posn, to: Posn,
                           inCheck: (BoardState, Color) -> bool, checkmated: (BoardState, Color) -> bool)
    requires MatchOk(m)
    ensures var r := MatchPly(v, m, player, from, to, inCheck, checkmated);
      (m.status != Ongoing ==> r == PlyResult(m, Ok(NotInProgress)))
      && (m.status == Ongoing && ColorOfPlayer(m.players, player).None? ==> r == PlyResult(m, Ok(NotAPlayer)))
      && (m.status == Ongoing && ColorOfPlayer(m.players, player).Some?
          && ColorOfPlayer(m.players, player).value != TurnOf(|m.history|)
          ==> r == PlyResult(m, Ok(NotYourTurn)))
    ensures var r := MatchPly(v, m, player, from, to, inCheck, checkmated);
      m.status == Ongoing && ColorOfPlayer(m.players, player) == Some(TurnOf(|m.history|)) ==>
        r == AfterBoardPly(v, m, from, to, BoardMoves.MakePly(v, m.board.value, TurnOf(|m.history|), from, to, inCheck), checkmated)
  {
  }

  /** After the board has answered: SUCCESS exactly on a true verdict, "Illegal move" on false, the exception passed on. */
  lemma BoardVerdictReply(v: Version, m: MatchState, from: Posn, to: Posn, p: BoardMoves.PlyOutcome,
                          checkmated: (BoardState, Color) -> bool)
    requires MatchOk(m) && WellFormed(p.state)
    ensures var r := AfterBoardPly(v, m, from, to, p, checkmated);
      (r.reply == Ok(Success) <==> p.verdict == Ok(true))
      && (r.reply == Ok(IllegalMove) <==> p.verdict == Ok(false))
      && (r.reply.Raise? <==> p.verdict.Raise?)
      && r.state.board == Some(p.state)
      && (r.reply != Ok(Success) ==> r.state.history == m.history && r.state.status == m.status)
  {
  }

  /**
   * structs.py: the history grows by exactly the ply made when the reply
   * is SUCCESS and is untouched otherwise, so a rejected ply does not
   * pass the turn and a successful one does.
   */
  lemma StructsHistory(m: MatchState, from: Posn, to: Posn, p: BoardMoves.PlyOutcome,
                       checkmated: (BoardState, Color) -> bool)
    requires MatchOk(m) && WellFormed(p.state)
    ensures var r := AfterBoardPly(Structs, m, from, to, p, checkmated);
      (r.reply == Ok(Success) <==> r.state.history == m.history + [Ply(from, to)])
      && (r.reply != Ok(Success) ==> r.state.history == m.history)
      && (r.reply == Ok(Success) ==> TurnOf(|r.state.history|) == OtherColor(TurnOf(|m.history|)))
  {
    var r := AfterBoardPly(Structs, m, from, to, p, checkmated);
    if r.state.history == m.history + [Ply(from, to)] {
      assert |r.state.history| != |m.history|;
    }
  }

  /**
   * data.py: a successful ply is recorded exactly when it mates neither
   * king; a mating ply ends the game with the ply missing from the history.
   */
  lemma LegacyHistory(m: MatchState, from: Posn, to: Posn, p: BoardMoves.PlyOutcome,
                      checkmated: (BoardState, Color) -> bool)
    requires MatchOk(m) && WellFormed(p.state)
    ensures var r := AfterBoardPly(Legacy, m, from, to, p, checkmated);
      r.reply == Ok(Success) ==>
        (r.state.history == m.history + [Ply(from, to)] <==> !checkmated(p.state, White) && !checkmated(p.state, Black))
        && (checkmated(p.state, White) ==> r.state.status == BlackWon && r.state.history == m.history)
        && (!checkmated(p.state, White) && checkmated(p.state, Black) ==> r.state.status == WhiteWon && r.state.history == m.history)
  {
    var r := AfterBoardPly(Legacy, m, from, to, p, checkmated);
    if r.reply == Ok(Success) && r.state.history == m.history + [Ply(from, to)] {
      assert |r.state.history| != |m.history|;
    }
  }

  /** structs.py: a successful ply that mates neither king draws the game once the board's counter reaches 51. */
  lemma StructsFiftyMoveDraw(m: MatchState, from: Posn, to: Posn, p: BoardMoves.PlyOutcome,
                             checkmated: (BoardState, Color) -> bool)
    requires MatchOk(m) && m.status == Ongoing && WellFormed(p.state)
    ensures var r := AfterBoardPly(Structs, m, from, to, p, checkmated);
      r.reply == Ok(Success) ==>
        (r.state.status == Drawn <==> !checkmated(p.state, White) && !checkmated(p.state, Black) && p.state.drawCounter >= 51)
        && (r.state.status == Ongoing <==> !checkmated(p.state, White) && !checkmated(p.state, Black) && p.state.drawCounter < 51)
  {
  }

  class ChessMatch {
    const version: Version
    var board: ChessBoard?
    var players: PerColor<Option<int>>
    var status: Status
    var history: seq<Ply>
    var freshStart: bool

    /** The flag lists of the board, which the board's plies may replace. */
    function BoardArrays(): set<object>
      reads this, board
    {
      if board == null then {} else {board.epWhite, board.epBlack}
    }

    /** The match object, its board and the board's flag lists. */
    function Footprint(): set<object>
      reads this, board
    {
      {this} + (if board == null then {} else {board as ChessBoard, board.epWhite, board.epBlack})
    }

    ghost predicate Valid()
      reads this, board
    {
      (board != null ==> board.Valid() && board.version == version)
      && (status == Ongoing ==> board != null)
      && (status == Pending ==> players.white.None? || players.black.None?)
    }

    function State(): MatchState
      reads this, board, BoardArrays()
    {
      MatchState(if board == null then None else Some(board.State()), players, status, history)
    }

    lemma StateOk()
      requires Valid()
      ensures MatchOk(State())
    {
      if board != null {
        board.StateWellFormed();
      }
    }

    /** ChessMatch(firstPlayerID, p1ReqFreshStart): the first player lands in a slot chosen at random. */
    constructor (v: Version, firstPlayerID: Option<int>, p1ReqFreshStart: bool)
      ensures Valid() && version == v && board == null && status == Pending && history == []
      ensures freshStart == p1ReqFreshStart
      ensures players == PerColor(firstPlayerID, None) || players == PerColor(None, firstPlayerID)
    {
      version := v;
      board := null;
      var slot: Color :| true;
      players := PerColor(None, None).Set(slot, firstPlayerID);
      status := Pending;
      history := [];
      freshStart := p1ReqFreshStart;
    }

    /** whoseTurn of structs.py's ChessMatch class. */
    function WhoseTurn(): (c: Color)
      reads this
      ensures c == White <==> |history| % 2 == 0
    {
      TurnOf(|history|)
    }

    function GetColorOfPlayer(id: int): Option<Color>
      reads this
    {
      ColorOfPlayer(players, id)
    }

    /** makePly; `inCheck` is the board's king-safety test, `checkmated` isKingCheckmated. */
    method MakePly(player: int, from: Posn, to: Posn,
                   inCheck: (BoardState, Color) -> bool, checkmated: (BoardState, Color) -> bool)
      returns (r: Outcome<PlyReply>)
      requires Valid()
      modifies this, board, BoardArrays()
      ensures Valid() && board == old(board)
      ensures board != null ==>
        (board.epWhite == old(board.epWhite) || fresh(board.epWhite)) && (board.epBlack == old(board.epBlack) || fresh(board.epBlack))
      ensures MatchOk(old(State()))
      ensures State() == MatchPly(version, old(State()), player, from, to, inCheck, checkmated).state
      ensures r == MatchPly(version, old(State()), player, from, to, inCheck, checkmated).reply
    {
      StateOk();
      if status == Ongoing {
        var color;
        if players.white == Some(player) {
          color := White;
        } else if players.black == Some(player) {
          color := Black;
        } else {
          return Ok(NotAPlayer);
        }
        if color != WhoseTurn() {
          return Ok(NotYourTurn);
        }
        ghost var m0 := State();
        var moveLegal := board.MakePly(color, from, to, inCheck);
        ghost var p := BoardMoves.PlyOutcome(moveLegal, board.State());
        r := RecordPly(from, to, moveLegal, checkmated, m0, p);
      } else {
        return Ok(NotInProgress);
      }
    }

    /** The rest of makePly, once the board has answered `moveLegal`. */
    method RecordPly(from: Posn, to: Posn, moveLegal: Outcome<bool>, checkmated: (BoardState, Color) -> bool,
                     ghost m0: MatchState, ghost p: BoardMoves.PlyOutcome)
      returns (r: Outcome<PlyReply>)
      requires board != null && board.Valid() && board.version == version && status == Ongoing
      requires MatchOk(m0) && p.verdict == moveLegal && p.state == board.State()
      requires m0.history == history && m0.status == status && m0.players == players
      modifies this
      ensures Valid() && board == old(board)
      ensures State() == AfterBoardPly(version, m0, from, to, p, checkmated).state
      ensures r == AfterBoardPly(version, m0, from, to, p, checkmated).reply
    {
      board.StateWellFormed();
      if moveLegal.Raise? {
        return Raise(moveLegal.error);
      }
      if moveLegal.value {
        if version == Structs {
          history := history + [Ply(from, to)];
          if checkmated(board.State(), White) {
            status := BlackWon;
          } else if checkmated(board.State(), Black) {
            status := WhiteWon;
          } else if ForcedDraw() {
            status := Drawn;
          }
        } else {
          if checkmated(board.State(), White) {
            status := BlackWon;
          } else if checkmated(board.State(), Black) {
            status := WhiteWon;
          } else {
            history := history + [Ply(from, to)];
          }
        }
        return Ok(Success);
      } else {
        return Ok(IllegalMove);
      }
    }

    /** __makePly_forcedDrawP: the 50-move rule, one ply of grace; threefold repetition is never detected. */
    function ForcedDraw(): bool
      requires board != null
      reads this, board
    {
      var fiftyMovesDraw := board.drawCounter >= 51;
      var threeFoldRepetition := false;
      fiftyMovesDraw || threeFoldRepetition
    }

    /**
     * join. The loop over the two colours has no break: a player joining a
     * match with both slots empty fills both. When no slot is left empty the
     * game starts on a new board: the default one when either side asked
     * for a fresh start, otherwise `midGame` (getMidGameBoard in
     * structs.py, genRandomLegalBoard in data.py). With no empty slot at
     * all, `retVal` is never bound and the return raises UnboundLocalError.
     */
    method Join(playerID: int, p2ReqFreshStart: bool, midGame: BoardState) returns (r: Outcome<Option<Color>>)
      requires Valid() && WellFormed(midGame)
      modifies this
      ensures Valid()
      ensures board == old(board) || (fresh(board) && fresh(board.epWhite) && fresh(board.epBlack))
      ensures old(status) != Pending || old(players.white) == Some(playerID) || old(players.black) == Some(playerID) ==>
        r == Ok(None) && unchanged(this)
      ensures old(status) == Pending && old(players.white) != Some(playerID) && old(players.black) != Some(playerID) ==>
        if old(players.white).None? && old(players.black).None? then
          r == Ok(Some(Black)) && players == PerColor(Some(playerID), Some(playerID)) && status == Ongoing
        else if old(players.white).None? then
          r == Ok(Some(White)) && players == old(players).(white := Some(playerID)) && status == Ongoing
        else
          r == Ok(Some(Black)) && players == old(players).(black := Some(playerID)) && status == Ongoing
      ensures old(status) == Pending && old(players.white) != Some(playerID) && old(players.black) != Some(playerID) ==>
        players == JoinedPlayers(old(players), playerID)
      ensures status == Ongoing && old(status) != Ongoing ==>
        fresh(board) && freshStart == (old(freshStart) || p2ReqFreshStart)
        && board.State() == if freshStart then InitialState() else midGame.(drawCounter := if version == Structs then midGame.drawCounter else 0)
      ensures history == old(history)
    {
      if status != Pending {
        return Ok(None);
      } else if players.white == Some(playerID) || players.black == Some(playerID) {
        return Ok(None);
      }
      var retVal: Option<Color> := None;
      ghost var old0 := players;
      var colors := [White, Black];
      var i := 0;
      while i < |colors|
        invariant 0 <= i <= |colors|
        invariant status == Pending || status == Ongoing
        invariant board != null ==> board.Valid() && board.version == version
        invariant status == Ongoing ==>
          (board != null && fresh(board) && freshStart == (old(freshStart) || p2ReqFreshStart)
           && board.State() == if freshStart then InitialState() else midGame.(drawCounter := if version == Structs then midGame.drawCounter else 0))
        invariant status == Pending ==> board == old(board) && freshStart == old(freshStart)
        invariant board == old(board) || (fresh(board) && fresh(board.epWhite) && fresh(board.epBlack))
        invariant status == Ongoing <==> players.white.Some? && players.black.Some?
        invariant history == old(history)
        invariant i == 0 ==> players == old0 && retVal.None?
        invariant i >= 1 ==> players.white == (if old0.white.None? then Some(playerID) else old0.white)
        invariant i == 1 ==> retVal == (if old0.white.None? then Some(White) else None)
        invariant i == 2 ==> players.black == (if old0.black.None? then Some(playerID) else old0.black)
        invariant i == 2 ==> retVal == (if old0.black.None? then Some(Black) else if old0.white.None? then Some(White) else None)
        invariant i <= 1 ==> players.black == old0.black
      {
        var color := colors[i];
        if players.Get(color).None? {
          players := players.Set(color, Some(playerID));
          if players.white.Some? && players.black.Some? {
            status := Ongoing;
            freshStart := freshStart || p2ReqFreshStart;
            if freshStart {
              board := new ChessBoard(version);
            } else {
              board := new ChessBoard.FromState(version, midGame);
            }
          }
          retVal := Some(color);
        }
        i := i + 1;
      }
      if retVal.None? {
        return Raise(UnboundLocalError);
      }
      return Ok(retVal);
    }
  }
}
