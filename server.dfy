/**
 * The TournamentSystem of maverick/server.py: the player registry
 * (playerID to name), the game registry (gameID to a data.py ChessMatch),
 * _getUniqueInt, the getState serializers, and the request table with
 * its exact-argument-set check from MaverickServerProtocol.lineReceived.
 */
module Server {
  import opened ChessTypes
  import opened BoardRules
  import opened Match
  import Board

  /** 2**32 - 1, the largest identifier _getUniqueInt draws. */
  const MaxVals: int := 0xFFFF_FFFF
  /** 2**31, the number of identifiers at which _getUniqueInt refuses. */
  const MaxSize: int := 0x8000_0000

  /** Fewer than n values in a set leave one of 1..n out. */
  lemma {:induction false} FreshValueExists(used: set<int>, n: nat)
    requires |used| < n
    ensures exists x :: 1 <= x <= n && x !in used
  {
    if n in used {
      FreshValueExists(used - {n}, n - 1);
      var x :| 1 <= x <= n - 1 && x !in used - {n};
      assert x !in used;
    } else {
      assert 1 <= n <= n && n !in used;
    }
  }

  lemma SubsetSize(a: set<int>, b: set<int>)
    requires a <= b
    ensures |a| <= |b|
  {
    assert b == a + (b - a);
  }

  /**
   * _getUniqueInt: fail fast on a half-full identifier space, otherwise
   * draw from [1, 2**32 - 1] until the value is not taken.
   */
  method UniqueInt(used: set<int>) returns (r: Outcome<int>)
    ensures r.Raise? <==> |used| >= MaxSize
    ensures r.Raise? ==> r.error == RuntimeError
    ensures r.Ok? ==> 1 <= r.value <= MaxVals && r.value !in used
  {
    if |used| >= MaxSize {
      return Raise(RuntimeError);
    }
    // the draws of this call so far; each new draw is one of the others
    var tried: set<int> := {};
    FreshValueExists(tried, MaxVals);
    var n :| 1 <= n <= MaxVals && n !in tried;
    while n in used
      invariant 1 <= n <= MaxVals && n !in tried && tried <= used
      decreases MaxVals - |tried|
    {
      tried := tried + {n};
      SubsetSize(tried, used);
      FreshValueExists(tried, MaxVals);
      n :| 1 <= n <= MaxVals && n !in tried;
    }
    return Ok(n);
  }

  // ---------------------------------------------------------------------
  // Serializers of getState
  // ---------------------------------------------------------------------

  /** One serialized square: None, or (piece.color, piece.pieceType). */
  type SquareInfo = Option<(Color, Kind)>

  function PieceOfInfo(info: SquareInfo): Square
  {
    if info.None? then None else Some(Piece(info.value.0, info.value.1))
  }

  /** A serialized ply: {fromRank, fromFile, toRank, toFile}. */
  datatype PlyDict = PlyDict(fromRank: int, fromFile: int, toRank: int, toFile: int)

  function PlyOfDict(d: PlyDict): Ply
  {
    Ply(Posn(d.fromRank, d.fromFile), Posn(d.toRank, d.toFile))
  }

  /** __getState_serializeLayout: row by row; the rows decode back to the layout. */
  method SerializeLayout(layout: seq<seq<Square>>) returns (rowsList: seq<seq<SquareInfo>>)
    ensures |rowsList| == |layout|
    ensures forall r :: 0 <= r < |layout| ==>
      |rowsList[r]| == |layout[r]| && forall f :: 0 <= f < |layout[r]| ==> PieceOfInfo(rowsList[r][f]) == layout[r][f]
    ensures LayoutOfRows(rowsList) == layout
  {
    rowsList := [];
    var r := 0;
    while r < |layout|
      invariant 0 <= r <= |layout| && |rowsList| == r
      invariant forall i :: 0 <= i < r ==>
        |rowsList[i]| == |layout[i]| && forall f :: 0 <= f < |layout[i]| ==> PieceOfInfo(rowsList[i][f]) == layout[i][f]
    {
      var row := layout[r];
      var rowPieceTupleList: seq<SquareInfo> := [];
      var f := 0;
      while f < |row|
        invariant 0 <= f <= |row| && |rowPieceTupleList| == f
        invariant forall j :: 0 <= j < f ==> PieceOfInfo(rowPieceTupleList[j]) == row[j]
      {
        var piece := row[f];
        if piece.None? {
          rowPieceTupleList := rowPieceTupleList + [None];
        } else {
          rowPieceTupleList := rowPieceTupleList + [Some((piece.value.color, piece.value.kind))];
        }
        f := f + 1;
      }
      rowsList := rowsList + [rowPieceTupleList];
      r := r + 1;
    }
    forall i | 0 <= i < |layout|
      ensures LayoutOfRows(rowsList)[i] == layout[i]
    {
      assert |LayoutOfRows(rowsList)[i]| == |layout[i]|;
    }
  }

  /** __getState_serializeHistory: one dict per ply, in history order; the dicts decode back to the history. */
  method SerializeHistory(history: seq<Ply>) returns (plyDictList: seq<PlyDict>)
    ensures |plyDictList| == |history|
    ensures forall i :: 0 <= i < |history| ==> PlyOfDict(plyDictList[i]) == history[i]
    ensures HistoryOfDicts(plyDictList) == history
  {
    plyDictList := [];
    var i := 0;
    while i < |history|
      invariant 0 <= i <= |history| && |plyDictList| == i
      invariant forall j :: 0 <= j < i ==> PlyOfDict(plyDictList[j]) == history[j]
    {
      var ply := history[i];
      plyDictList := plyDictList + [PlyDict(ply.from.rank, ply.from.file, ply.to.rank, ply.to.file)];
      i := i + 1;
    }
  }

  // ---------------------------------------------------------------------
  // Replies of the TournamentSystem
  // ---------------------------------------------------------------------

  datatype Payload =
    | PlayerIdIs(playerID: int)
    | GameIdIs(gameID: int)
    | StatusIs(status: string)
    | TurnIs(isMyTurn: bool)
    | StateIs(youAreColor: Color, isWhitesTurn: bool, layout: seq<seq<SquareInfo>>,
              enPassantFlags: PerColor<seq<bool>>, canCastleFlags: PerColor<Castle>, history: seq<PlyDict>)
    | NoPayload

  /** (True, {...}) or (False, {"error": message}). */
  datatype Response = Succeeded(payload: Payload) | Failed(error: string)

  /**
   * makePly's mapping of the match's reply, as server.py writes it. The
   * maverick-chess server has its own copy (MaverickChess.PlyResponse) over
   * its own Response type; the two programs share no code.
   */
  function PlyResponse(reply: Outcome<PlyReply>): (r: Outcome<Response>)
    ensures r.Raise? <==> reply.Raise?
    ensures r == Ok(Succeeded(NoPayload)) <==> reply == Ok(Success)
    ensures reply.Ok? && reply.value != Success ==> r == Ok(Failed(ReplyText(reply.value)))
  {
    match reply
    case Raise(e) => Raise(e)
    case Ok(text) => if text == Success then Ok(Succeeded(NoPayload)) else Ok(Failed(ReplyText(text)))
  }

  lemma OrderCoversGames<T>(order: seq<int>, games: map<int, T>)
    requires forall id :: id in games <==> id in order
    ensures forall j :: 0 <= j < |order| ==> order[j] in games
  {
    forall j | 0 <= j < |order| ensures order[j] in games {
      var id := order[j];
      assert id in order;
      assert id in games <==> id in order;
    }
  }

  /** `name in self.players.values()`. */
  predicate Registered(players: map<int, string>, name: string)
  {
    exists id :: id in players && players[id] == name
  }

  /** A pending match that `join` would let the player into. */
  predicate Joinable(status: Status, players: PerColor<Option<int>>, playerID: int)
  {
    status == Pending && players.white != Some(playerID) && players.black != Some(playerID)
  }

  /**
   * `m` is the match `join` let the player into, with slots `before`:
   * the player holds a slot, every empty slot holds the player, the game
   * is under way on a default board (join asks for a fresh start), and the
   * history is kept.
   */
  ghost predicate Joined(before: PerColor<Option<int>>, history: seq<Ply>, m: ChessMatch, playerID: int)
    reads m, m.board, m.BoardArrays()
  {
    (m.players.white == Some(playerID) || m.players.black == Some(playerID))
    && m.players == Match.JoinedPlayers(before, playerID)
    && m.status == Ongoing && m.history == history && m.board != null
    && m.board.State() == Board.InitialState()
  }

  /**
   * What register answers and leaves, from `players` to `players'`: a known
   * name gets its existing ID back; a new name is mapped from a fresh ID;
   * a full registry raises RuntimeError.
   */
  predicate RegisterAnswer(players: map<int, string>, players': map<int, string>, name: string, r: Outcome<Response>)
  {
    (Registered(players, name) ==>
       players' == players && r.Ok? && r.value.Succeeded? && r.value.payload.PlayerIdIs?
       && r.value.payload.playerID in players && players[r.value.payload.playerID] == name)
    && (!Registered(players, name) && r.Ok? ==>
          r.value.Succeeded? && r.value.payload.PlayerIdIs?
          && r.value.payload.playerID !in players && 1 <= r.value.payload.playerID <= MaxVals
          && players' == players[r.value.payload.playerID := name])
    && (r.Raise? ==>
          !Registered(players, name) && |players| >= MaxSize && r.error == RuntimeError && players' == players)
  }

  /** register hands out one ID per name. */
  predicate NamesUnique(players: map<int, string>)
  {
    forall i, j :: i in players && j in players && players[i] == players[j] ==> i == j
  }

  /** The footprints of different matches share no object. */
  predicate Separate(footprints: map<int, set<object>>)
  {
    forall i, j :: i in footprints && j in footprints && i != j ==> footprints[i] !! footprints[j]
  }

  /** `fp` is exactly the footprint of the valid data.py match `m`. */
  ghost predicate Owns(m: ChessMatch, fp: set<object>)
    reads fp
  {
    m in fp && (m.board != null ==> m.board in fp)
    && m.Footprint() == fp && m.Valid() && m.version == Legacy
  }

  /** A footprint that grows only by objects outside `repr` stays apart from the others. */
  lemma Regrow(footprints: map<int, set<object>>, repr: set<object>, gameID: int, fp: set<object>)
    requires Separate(footprints)
    requires forall id :: id in footprints ==> footprints[id] <= repr
    requires forall o :: o in fp ==> (gameID in footprints && o in footprints[gameID]) || o !in repr
    ensures Separate(footprints[gameID := fp])
  {
    forall id | id in footprints && id != gameID
      ensures fp !! footprints[id]
    {
      if gameID in footprints {
        assert footprints[gameID] !! footprints[id];
      }
    }
  }

  /** The rows of a serialized layout, read back as squares. */
  function LayoutOfRows(rows: seq<seq<SquareInfo>>): seq<seq<Square>>
  {
    seq(|rows|, r requires 0 <= r < |rows| => seq(|rows[r]|, f requires 0 <= f < |rows[r]| => PieceOfInfo(rows[r][f])))
  }

  /** A serialized history, read back as plies. */
  function HistoryOfDicts(dicts: seq<PlyDict>): seq<Ply>
  {
    seq(|dicts|, i requires 0 <= i < |dicts| => PlyOfDict(dicts[i]))
  }

  class TournamentSystem {
    var games: map<int, ChessMatch>
    var players: map<int, string>
    /** The objects of all registered matches. */
    ghost var Repr: set<object>
    /** The footprint of each registered match. */
    ghost var footprints: map<int, set<object>>

    ghost predicate Valid()
      reads this, Repr
    {
      this !in Repr
      && footprints.Keys == games.Keys
      && Separate(footprints)
      && (forall id :: id in games ==> footprints[id] <= Repr && Owns(games[id], footprints[id]))
      && NamesUnique(players)
    }

    constructor ()
      ensures Valid() && games == map[] && players == map[]
    {
      games := map[];
      players := map[];
      Repr := {};
      footprints := map[];
    }

    /** Records the footprint of a match that has just been given new objects. */
    ghost method Rebind(gameID: int)
      requires this !in Repr && footprints.Keys == games.Keys && Separate(footprints) && NamesUnique(players)
      requires gameID in games && games[gameID].Valid() && games[gameID].version == Legacy
      requires forall id :: id in games && id != gameID ==> footprints[id] <= Repr && Owns(games[id], footprints[id])
      requires forall o :: o in games[gameID].Footprint() ==> o in footprints[gameID] || o !in Repr
      requires footprints[gameID] <= Repr && this !in games[gameID].Footprint()
      modifies this
      ensures Valid() && games == old(games) && players == old(players)
      ensures footprints == old(footprints)[gameID := games[gameID].Footprint()]
    {
      var fp := games[gameID].Footprint();
      Regrow(footprints, Repr, gameID, fp);
      Repr := Repr + fp;
      footprints := footprints[gameID := fp];
    }

    /** The match with that ID is in no other match's footprint. */
    lemma OthersApart(gameID: int)
      requires Valid() && gameID in games
      ensures forall id :: id in games && id != gameID ==> games[gameID] !in footprints[id]
    {
      forall id | id in games && id != gameID
        ensures games[gameID] !in footprints[id]
      {
        assert footprints[id] !! footprints[gameID];
      }
    }

    /** register: an existing name gets its ID back; a new name gets a fresh ID. */
    method Register(name: string) returns (r: Outcome<Response>)
      requires Valid()
      modifies this
      ensures Valid() && games == old(games) && Repr == old(Repr) && footprints == old(footprints)
      ensures RegisterAnswer(old(players), players, name, r)
    {
      if exists id :: id in players && players[id] == name {
        var userPID :| userPID in players && players[userPID] == name;
        return Ok(Succeeded(PlayerIdIs(userPID)));
      } else {
        var newID := UniqueInt(players.Keys);
        if newID.Raise? {
          return Raise(newID.error);
        }
        players := players[newID.value := name];
        return Ok(Succeeded(PlayerIdIs(newID.value)));
      }
    }

    /** game.join(playerID) on one pending game; true when the player got a colour. */
    method TryJoin(gameID: int, playerID: int) returns (joined: bool)
      requires Valid() && gameID in games && games[gameID].status == Pending
      modifies this, games[gameID]
      ensures Valid() && games == old(games) && players == old(players)
      ensures joined <==> old(Joinable(games[gameID].status, games[gameID].players, playerID))
      ensures !joined ==> Repr == old(Repr) && footprints == old(footprints) && unchanged(footprints[gameID])
      ensures joined ==> Joined(old(games[gameID].players), old(games[gameID].history), games[gameID], playerID)
      ensures forall id :: id in games && id != gameID ==>
        games[id] != games[gameID] && footprints[id] == old(footprints[id]) && unchanged(footprints[id])
    {
      var game := games[gameID];
      OthersApart(gameID);
      var color := game.Join(playerID, true, Board.InitialState());
      if color.Raise? {
        assert false;
      }
      joined := color.value.Some?;
      if joined {
        var fp := game.Footprint();
        forall o | o in fp
          ensures o in footprints[gameID] || o !in Repr
        {
          if o !in footprints[gameID] {
            assert fresh(o);
          }
        }
        Regrow(footprints, Repr, gameID, fp);
        Repr := Repr + fp;
        footprints := footprints[gameID := fp];
      }
      forall id | id in games && id != gameID
        ensures games[id] != games[gameID] && footprints[id] == old(footprints[id]) && unchanged(footprints[id])
      {
        assert game !in old(footprints[id]);
      }
    }

    /**
     * joinGame, with `order` the iteration order of the games dict: the
     * first pending game, in that order, that join lets the player into;
     * otherwise a new pending game holding the player, under a fresh ID.
     */
    method JoinGame(playerID: int, order: seq<int>) returns (r: Outcome<Response>)
      requires Valid()
      requires forall i, j :: 0 <= i < j < |order| ==> order[i] != order[j]
      requires forall id :: id in games <==> id in order
      modifies this, Repr
      ensures Valid() && players == old(players)
      ensures r.Ok? ==> r.value.Succeeded? && r.value.payload.GameIdIs? && r.value.payload.gameID in games
      ensures r.Ok? && r.value.payload.gameID in old(games) ==>
        games == old(games)
        && exists k :: (0 <= k < |order| && order[k] == r.value.payload.gameID
          && old(Joinable(games[order[k]].status, games[order[k]].players, playerID))
          && forall j :: 0 <= j < k ==> !old(Joinable(games[order[j]].status, games[order[j]].players, playerID)))
      ensures r.Ok? && r.value.payload.gameID in old(games) ==>
        Joined(old(games[r.value.payload.gameID].players), old(games[r.value.payload.gameID].history), games[r.value.payload.gameID], playerID)
        && forall id :: id in games && id != r.value.payload.gameID ==> footprints[id] == old(footprints[id]) && unchanged(footprints[id])
      ensures r.Ok? && r.value.payload.gameID !in old(games) ==>
        var g := games[r.value.payload.gameID];
        fresh(g) && games == old(games)[r.value.payload.gameID := g] && 1 <= r.value.payload.gameID <= MaxVals
        && g.status == Pending && g.history == [] && g.board == null
        && (g.players == PerColor(Some(playerID), None) || g.players == PerColor(None, Some(playerID)))
        && forall id :: id in old(games) ==> !old(Joinable(games[id].status, games[id].players, playerID))
      ensures r.Raise? ==> games == old(games) && r.error == RuntimeError && |old(games)| >= MaxSize
      // when no existing game was joined, every existing game is left as it was
      ensures r.Raise? || r.value.payload.gameID !in old(games) ==>
        forall id :: id in old(games) ==> footprints[id] == old(footprints[id]) && unchanged(footprints[id])
    {
      var found := FindGame(playerID, order);

      if found.Some? {
        return Ok(Succeeded(GameIdIs(found.value)));
      }
      var newID := OpenGame(playerID);
      if newID.Raise? {
        return Raise(newID.error);
      }
      return Ok(Succeeded(GameIdIs(newID.value)));
    }

    /** The loop of joinGame: the first game in `order` that join lets the player into. */
    method FindGame(playerID: int, order: seq<int>) returns (found: Option<int>)
      requires Valid()
      requires forall id :: id in games <==> id in order
      modifies this, Repr
      ensures Valid() && games == old(games) && players == old(players)
      ensures forall j :: 0 <= j < |order| ==> order[j] in games
      ensures found.Some? ==>
        exists k :: (0 <= k < |order| && order[k] == found.value
          && old(Joinable(games[order[k]].status, games[order[k]].players, playerID))
          && forall j :: 0 <= j < k ==> !old(Joinable(games[order[j]].status, games[order[j]].players, playerID)))
      ensures found.Some? ==>
        Joined(old(games[found.value].players), old(games[found.value].history), games[found.value], playerID)
        && forall id :: id in games && id != found.value ==> footprints[id] == old(footprints[id]) && unchanged(footprints[id])
      ensures found.None? ==>
        Repr == old(Repr) && footprints == old(footprints)
        && (forall id :: id in games ==> unchanged(games[id]) && unchanged(footprints[id]))
        && forall id :: id in games ==> !Joinable(games[id].status, games[id].players, playerID)
    {
      OrderCoversGames(order, games);
      var i := 0;
      while i < |order|
        invariant 0 <= i <= |order|
        invariant Valid() && games == old(games) && players == old(players)
        invariant Repr == old(Repr) && footprints == old(footprints)
        invariant forall id :: id in games ==> unchanged(footprints[id])
        invariant forall j :: 0 <= j < |order| ==> order[j] in games
        invariant forall j :: 0 <= j < i ==> !Joinable(games[order[j]].status, games[order[j]].players, playerID)
      {
        var gameID := order[i];
        if games[gameID].status == Pending {
          var joined := TryJoin(gameID, playerID);
          if joined {
            assert 0 <= i < |order| && order[i] == gameID;
            return Some(gameID);
          }
        }
        i := i + 1;
      }
      forall id | id in games
        ensures !Joinable(games[id].status, games[id].players, playerID)
      {
        assert id in games <==> id in order;
        var j :| 0 <= j < |order| && order[j] == id;
      }
      return None;
    }

    /** The end of joinGame: a new pending match holding the player, under a fresh ID. */
    method OpenGame(playerID: int) returns (r: Outcome<int>)
      requires Valid()
      modifies this
      ensures Valid() && players == old(players)
      ensures r.Raise? ==> games == old(games) && r.error == RuntimeError && |old(games)| >= MaxSize
      ensures r.Ok? ==>
        r.value in games && var g := games[r.value];
        r.value !in old(games) && 1 <= r.value <= MaxVals && fresh(g) && games == old(games)[r.value := g]
        && g.status == Pending && g.history == [] && g.board == null
        && (g.players == PerColor(Some(playerID), None) || g.players == PerColor(None, Some(playerID)))
      ensures forall id :: id in old(games) ==> footprints[id] == old(footprints[id]) && unchanged(footprints[id])
    {
      var newGame := new ChessMatch(Legacy, Some(playerID), true);
      var newID := UniqueInt(games.Keys);
      if newID.Raise? {
        return Raise(newID.error);
      }
      Adopt(newID.value, newGame);
      return Ok(newID.value);
    }

    /** Registers a match that owns nothing but itself under an unused ID. */
    method Adopt(gameID: int, g: ChessMatch)
      requires Valid() && gameID !in games && g !in Repr
      requires g.Valid() && g.version == Legacy && g.board == null
      modifies this
      ensures Valid() && players == old(players) && games == old(games)[gameID := g]
      ensures forall id :: id in old(games) ==> footprints[id] == old(footprints[id])
    {
      assert Owns(g, {g});
      Regrow(footprints, Repr, gameID, {g});
      games := games[gameID := g];
      Repr := Repr + {g};
      footprints := footprints[gameID := {g}];
    }

    /**
     * cancelGame. On an active match the logger object itself is called,
     * which raises TypeError before the status is written; nothing changes.
     */
    method CancelGame(gameID: int) returns (r: Outcome<Response>)
      requires Valid()
      ensures gameID !in games ==> r == Ok(Failed("Invalid game ID"))
      ensures gameID in games ==>
        (r == Raise(TypeError) <==> games[gameID].status == Ongoing || games[gameID].status == Pending)
      ensures gameID in games && games[gameID].status != Ongoing && games[gameID].status != Pending ==>
        r == Ok(Failed("Game not active"))
    {
      if gameID in games {
        if games[gameID].status == Ongoing || games[gameID].status == Pending {
          return Raise(TypeError);
        } else {
          return Ok(Failed("Game not active"));
        }
      } else {
        return Ok(Failed("Invalid game ID"));
      }
    }

    /**
     * getStatus of server.py: the status code of a registered match. It reads
     * like MaverickChess.TournamentSystem.GetStatus because the two servers
     * were written alike, but each is its own program over its own match class.
     */
    function GetStatus(gameID: int): (r: Response)
      reads this, games.Values
      ensures r.Succeeded? <==> gameID in games
      ensures r.Succeeded? ==> r.payload == StatusIs(StatusCode(games[gameID].status))
      ensures r.Failed? ==> r.error == "Invalid game ID"
    {
      if gameID in games then Succeeded(StatusIs(StatusCode(games[gameID].status)))
      else Failed("Invalid game ID")
    }

    /** isMyTurn: whether the colour the player holds is the one to move. */
    function IsMyTurn(gameID: int, playerID: int): (r: Response)
      reads this, games.Values
      ensures gameID !in games ==> r == Failed("Invalid game ID")
      ensures gameID in games ==>
        (r == Failed("Not a player in the game") <==> ColorOfPlayer(games[gameID].players, playerID).None?)
      ensures r.Succeeded? ==>
        gameID in games && ColorOfPlayer(games[gameID].players, playerID).Some? && r.payload.TurnIs?
        && (r.payload.isMyTurn <==>
              games[gameID].players.Get(TurnOf(|games[gameID].history|)) == Some(playerID)
              && (TurnOf(|games[gameID].history|) == Black ==> games[gameID].players.white != Some(playerID)))
    {
      if gameID in games then
        var myColor := games[gameID].GetColorOfPlayer(playerID);
        if myColor.None? then Failed("Not a player in the game")
        else Succeeded(TurnIs(games[gameID].WhoseTurn() == myColor.value))
      else Failed("Invalid game ID")
    }

    /**
     * What getState answers: a failure for an unknown game or a
     * non-participant, AttributeError for a match without a board, and
     * otherwise the caller's colour, whose turn it is, and the serialized
     * layout, flags and history.
     */
    ghost predicate StateAnswer(playerID: int, gameID: int, r: Outcome<Response>)
      requires Valid()
      reads this, Repr
    {
      (gameID !in games ==> r == Ok(Failed("Invalid game ID")))
      && (gameID in games && ColorOfPlayer(games[gameID].players, playerID).None? ==>
            r == Ok(Failed("You are not a player in this game")))
      && (gameID in games && ColorOfPlayer(games[gameID].players, playerID).Some? && games[gameID].board == null ==>
            r == Raise(AttributeError))
      && (gameID in games && ColorOfPlayer(games[gameID].players, playerID).Some? && games[gameID].board != null ==>
            var g := games[gameID];
            r.Ok? && r.value.Succeeded? && r.value.payload.StateIs?
            && r.value.payload.youAreColor == ColorOfPlayer(g.players, playerID).value
            && (r.value.payload.isWhitesTurn <==> |g.history| % 2 == 0)
            && LayoutOfRows(r.value.payload.layout) == g.board.layout
            && r.value.payload.enPassantFlags == g.board.State().enPassant
            && r.value.payload.canCastleFlags == g.board.canCastle
            && HistoryOfDicts(r.value.payload.history) == g.history)
    }

    /**
     * getState. A pending match has no board, so serializing it raises
     * AttributeError even for a player of that match.
     */
    method GetState(playerID: int, gameID: int) returns (r: Outcome<Response>)
      requires Valid()
      ensures StateAnswer(playerID, gameID, r)
    {
      if gameID in games {
        var g := games[gameID];
        var youAreColor := g.GetColorOfPlayer(playerID);
        if youAreColor.None? {
          return Ok(Failed("You are not a player in this game"));
        }
        if g.board == null {
          return Raise(AttributeError);
        }
        var serialLayout := SerializeLayout(g.board.layout);
        var serialHst := SerializeHistory(g.history);
        var flags := PerColor(g.board.epWhite[..], g.board.epBlack[..]);
        return Ok(Succeeded(StateIs(youAreColor.value, g.WhoseTurn() == White, serialLayout,
                                    flags, g.board.canCastle, serialHst)));
      } else {
        return Ok(Failed("Invalid game ID"));
      }
    }

    /** makePly: the match's own makePly on ChessPosn(fromRank, fromFile), ChessPosn(toRank, toFile). */
    method MakePly(playerID: int, gameID: int, fromRank: int, fromFile: int, toRank: int, toFile: int,
                   inCheck: (BoardState, Color) -> bool, checkmated: (BoardState, Color) -> bool)
      returns (r: Outcome<Response>)
      requires Valid()
      modifies this, if gameID in games then footprints[gameID] else {}
      ensures Valid() && games == old(games) && players == old(players)
      ensures gameID !in games ==> r == Ok(Failed("Invalid game ID"))
      ensures gameID in games ==>
        var res := MatchPly(Legacy, old(games[gameID].State()), playerID,
                            Posn(fromRank, fromFile), Posn(toRank, toFile), inCheck, checkmated);
        games[gameID].State() == res.state && r == PlyResponse(res.reply)
      ensures forall id :: id in games && id != gameID ==> footprints[id] == old(footprints[id]) && unchanged(footprints[id])
    {
      var fromPosn := Posn(fromRank, fromFile);
      var toPosn := Posn(toRank, toFile);
      if gameID in games {
        var game := games[gameID];
        OthersApart(gameID);
        ghost var fp := footprints[gameID];
        assert {game} + (if game.board == null then {} else {game.board}) + game.BoardArrays() <= fp;
        var result := game.MakePly(playerID, fromPosn, toPosn, inCheck, checkmated);
        forall o | o in game.Footprint()
          ensures o in footprints[gameID] || o !in Repr
        {
          if o !in footprints[gameID] {
            assert fresh(o);
          }
        }
        Rebind(gameID);
        forall id | id in games && id != gameID
          ensures unchanged(footprints[id])
        {
          assert footprints[id] == old(footprints[id]) && footprints[id] !! fp;
        }
        return PlyResponse(result);
      } else {
        return Ok(Failed("Invalid game ID"));
      }
    }
  }

  // ---------------------------------------------------------------------
  // MaverickServerProtocol.lineReceived
  // ---------------------------------------------------------------------

  /** The index of the first space of the line, or its length when it has none. */
  function SpaceIndex(line: string): (i: nat)
    ensures i <= |line| && (i < |line| ==> line[i] == ' ')
    ensures forall j :: 0 <= j < i ==> line[j] != ' '
  {
    if |line| == 0 || line[0] == ' ' then 0 else 1 + SpaceIndex(line[1..])
  }

  /** str.partition(" "), without the separator. */
  function Partition(line: string): (r: (string, string))
    ensures ' ' !in r.0
    ensures ' ' in line ==> line == r.0 + " " + r.1
    ensures ' ' !in line ==> r == (line, "")
  {
    var i := SpaceIndex(line);
    if i == |line| then (line, "") else (line[..i], line[i + 1..])
  }

  /** A request line "VERB args" splits back into its verb and its arguments. */
  lemma {:induction false} PartitionRequest(verb: string, rest: string)
    requires ' ' !in verb
    ensures Partition(verb + " " + rest) == (verb, rest)
  {
    var line := verb + " " + rest;
    assert line[|verb|] == ' ';
    var i := SpaceIndex(line);
    assert i == |verb|;
    assert line[..i] == verb && line[i + 1..] == rest;
  }

  datatype Verb = RegisterVerb | JoinGameVerb | GetStatusVerb | IsMyTurnVerb | GetStateVerb | MakePlyVerb

  /** The keys of VALID_REQUESTS: non-empty names without a space, so partition never splits one. */
  function VerbName(v: Verb): (r: string)
    ensures |r| > 0 && ' ' !in r
  {
    match v
    case RegisterVerb => "REGISTER"
    case JoinGameVerb => "JOIN_GAME"
    case GetStatusVerb => "GET_STATUS"
    case IsMyTurnVerb => "IS_MY_TURN"
    case GetStateVerb => "GET_STATE"
    case MakePlyVerb => "MAKE_PLY"
  }

  /** `requestName in VALID_REQUESTS`. */
  function VerbNamed(name: string): (r: Option<Verb>)
    ensures r.Some? ==> VerbName(r.value) == name
    ensures forall v :: VerbName(v) == name ==> r == Some(v)
  {
    if name == "REGISTER" then Some(RegisterVerb)
    else if name == "JOIN_GAME" then Some(JoinGameVerb)
    else if name == "GET_STATUS" then Some(GetStatusVerb)
    else if name == "IS_MY_TURN" then Some(IsMyTurnVerb)
    else if name == "GET_STATE" then Some(GetStateVerb)
    else if name == "MAKE_PLY" then Some(MakePlyVerb)
    else None
  }

  /** The expected argument names of each request: every request but REGISTER names a player or a game. */
  function ExpectedArgs(v: Verb): (r: set<string>)
    ensures "name" in r <==> v == RegisterVerb
    ensures "playerID" in r <==> v != RegisterVerb && v != GetStatusVerb
    ensures "gameID" in r <==> v != RegisterVerb && v != JoinGameVerb
  {
    match v
    case RegisterVerb => {"name"}
    case JoinGameVerb => {"playerID"}
    case GetStatusVerb => {"gameID"}
    case IsMyTurnVerb => {"gameID", "playerID"}
    case GetStateVerb => {"playerID", "gameID"}
    case MakePlyVerb => {"playerID", "gameID", "fromRank", "fromFile", "toRank", "toFile"}
  }

  /** A JSON value: an integer, a string, or anything else. */
  datatype Json = JInt(n: int) | JStr(s: string) | JOther

  /** What json.loads makes of the argument text. */
  datatype ParsedArgs = InvalidJson | NotAnObject | JsonObject(fields: map<string, Json>)

  /** A request whose arguments have the types the TournamentSystem method compares against. */
  datatype Request =
    | RegisterReq(name: string)
    | JoinGameReq(playerID: int)
    | GetStatusReq(gameID: int)
    | IsMyTurnReq(gameID: int, playerID: int)
    | GetStateReq(playerID: int, gameID: int)
    | MakePlyReq(playerID: int, gameID: int, fromRank: int, fromFile: int, toRank: int, toFile: int)

  /** The route lineReceived takes: a call, an error reply, an escaping exception, or argument types outside the model. */
  datatype Routed = Call(request: Request) | Reject(message: string) | Fault(exception: PyError) | OtherTypes

  /** The verb a request answers to. */
  function VerbOf(req: Request): Verb
  {
    match req
    case RegisterReq(_) => RegisterVerb
    case JoinGameReq(_) => JoinGameVerb
    case GetStatusReq(_) => GetStatusVerb
    case IsMyTurnReq(_, _) => IsMyTurnVerb
    case GetStateReq(_, _) => GetStateVerb
    case MakePlyReq(_, _, _, _, _, _) => MakePlyVerb
  }

  /** The request built from arguments with exactly the expected names, when their types fit. */
  function Typed(v: Verb, fields: map<string, Json>): (r: Option<Request>)
    requires fields.Keys == ExpectedArgs(v)
    ensures r.Some? ==> VerbOf(r.value) == v
  {
    match v
    case RegisterVerb =>
      if fields["name"].JStr? then Some(RegisterReq(fields["name"].s)) else None
    case JoinGameVerb =>
      if fields["playerID"].JInt? then Some(JoinGameReq(fields["playerID"].n)) else None
    case GetStatusVerb =>
      if fields["gameID"].JInt? then Some(GetStatusReq(fields["gameID"].n)) else None
    case IsMyTurnVerb =>
      if fields["gameID"].JInt? && fields["playerID"].JInt?
      then Some(IsMyTurnReq(fields["gameID"].n, fields["playerID"].n)) else None
    case GetStateVerb =>
      if fields["playerID"].JInt? && fields["gameID"].JInt?
      then Some(GetStateReq(fields["playerID"].n, fields["gameID"].n)) else None
    case MakePlyVerb =>
      if fields["playerID"].JInt? && fields["gameID"].JInt? && fields["fromRank"].JInt?
         && fields["fromFile"].JInt? && fields["toRank"].JInt? && fields["toFile"].JInt?
      then Some(MakePlyReq(fields["playerID"].n, fields["gameID"].n, fields["fromRank"].n,
                           fields["fromFile"].n, fields["toRank"].n, fields["toFile"].n))
      else None
  }

  /** ",".join(names): the names in order, a comma between each two. */
  function JoinComma(names: seq<string>): (r: string)
    ensures |names| > 0 ==> |names[0]| <= |r| && r[..|names[0]|] == names[0]
    ensures |names| > 1 ==> |r| > |names[0]| && r[|names[0]|] == ','
    ensures |names| == 0 ==> r == ""
  {
    if |names| == 0 then "" else if |names| == 1 then names[0] else names[0] + "," + JoinComma(names[1..])
  }

  /**
   * `listing` is an iteration order of the expected-argument set of the
   * verb the line names: each expected name exactly once.
   */
  predicate ListsExpected(line: string, listing: seq<string>)
  {
    VerbNamed(Partition(line).0).Some? ==> multiset(listing) == multiset(ExpectedArgs(VerbNamed(Partition(line).0).value))
  }

  /**
   * The routing of lineReceived. `parse` stands for json.loads and
   * `listing` for the iteration order of the expected-argument set.
   * Parsed JSON that is not an object has no keys(): the AttributeError
   * escapes lineReceived.
   */
  function Route(line: string, parse: string -> ParsedArgs, listing: seq<string>): (r: Routed)
    requires ListsExpected(line, listing)
    ensures VerbNamed(Partition(line).0).None? ==> r.Reject?
    ensures r.Fault? ==> r.exception == AttributeError && parse(Partition(line).1).NotAnObject?
    ensures r.Call? ==> VerbNamed(Partition(line).0) == Some(VerbOf(r.request))
  {

    var (requestName, requestArgsString) := Partition(line);
    match VerbNamed(requestName)
    case None => Reject("Unrecognized verb \"" + requestName + "\" in request")
    case Some(v) =>
      match parse(requestArgsString)
      case InvalidJson => Reject("Invalid JSON for arguments")
      case NotAnObject => Fault(AttributeError)
      case JsonObject(fields) =>
        if ExpectedArgs(v) != fields.Keys then Reject("Invalid arguments, expected: " + JoinComma(listing))
        else match Typed(v, fields)
          case None => OtherTypes
          case Some(req) => Call(req)
  }

  /** A well-formed request line reaches the method it names, whatever the listing order. */
  lemma RequestReachesMethod(v: Verb, rest: string, parse: string -> ParsedArgs, listing: seq<string>)
    requires parse(rest).JsonObject? && parse(rest).fields.Keys == ExpectedArgs(v)
    requires Typed(v, parse(rest).fields).Some?
    requires multiset(listing) == multiset(ExpectedArgs(v))
    ensures ListsExpected(VerbName(v) + " " + rest, listing)
    ensures Route(VerbName(v) + " " + rest, parse, listing) == Call(Typed(v, parse(rest).fields).value)
  {
    PartitionRequest(VerbName(v), rest);
    assert Partition(VerbName(v) + " " + rest) == (VerbName(v), rest);
    assert VerbNamed(VerbName(v)) == Some(v);
  }

  /** Only a known verb with exactly the expected argument names is ever called. */
  lemma CallsOnlyExpected(line: string, parse: string -> ParsedArgs, listing: seq<string>)
    requires ListsExpected(line, listing) && Route(line, parse, listing).Call?
    ensures VerbNamed(Partition(line).0) == Some(VerbOf(Route(line, parse, listing).request))
    ensures parse(Partition(line).1).JsonObject?
    ensures parse(Partition(line).1).fields.Keys == ExpectedArgs(VerbOf(Route(line, parse, listing).request))
  {
  }

  /** The line sent back: "SUCCESS {json}" or "ERROR {message}"; the JSON text itself is not modelled. */
  datatype ServerLine = SuccessLine(payload: Payload) | ErrorLine(message: string)

  /** The answer of a dispatched call: an exception becomes "Uncaught exception". */
  function Respond(result: Outcome<Response>): (l: ServerLine)
    ensures l.ErrorLine? <==> result.Raise? || result.value.Failed?
    ensures result.Raise? ==> l == ErrorLine("Uncaught exception")
    ensures result.Ok? && result.value.Failed? ==> l == ErrorLine(result.value.error)
    ensures result.Ok? && result.value.Succeeded? ==> l == SuccessLine(result.value.payload)
  {
    match result
    case Raise(_) => ErrorLine("Uncaught exception")
    case Ok(Failed(e)) => ErrorLine(e)
    case Ok(Succeeded(p)) => SuccessLine(p)
  }

  /**
   * lineReceived: route the line, dispatch the call to the tournament
   * system, and build the reply. For a dispatched request, `outcome`
   * is what the called method answered, and the contract states, per
   * request, what that method promises about it and about the registry.
   */
  method LineReceived(ts: TournamentSystem, line: string, parse: string -> ParsedArgs, listing: seq<string>,
                      order: seq<int>, inCheck: (BoardState, Color) -> bool, checkmated: (BoardState, Color) -> bool)
    returns (r: Outcome<ServerLine>, ghost routed: Routed, ghost outcome: Outcome<Response>)
    requires ListsExpected(line, listing)
    requires ts.Valid() && Route(line, parse, listing) != OtherTypes
    requires forall i, j :: 0 <= i < j < |order| ==> order[i] != order[j]
    requires forall id :: id in ts.games <==> id in order
    modifies ts, ts.Repr
    ensures ts.Valid() && routed == Route(line, parse, listing)
    ensures routed.Reject? ==> r == Ok(ErrorLine(routed.message))
    ensures routed.Fault? ==> r == Raise(routed.exception)
    ensures !routed.Call? ==>
      ts.games == old(ts.games) && ts.players == old(ts.players) && ts.Repr == old(ts.Repr) && unchanged(ts.Repr)
    ensures routed.Call? ==> r == Ok(Respond(outcome))
    // REGISTER: register's answer
    ensures routed.Call? ==> var q := routed.request; q.RegisterReq? ==>
      ts.games == old(ts.games) && RegisterAnswer(old(ts.players), ts.players, q.name, outcome)
    // JOIN_GAME: a slot in the first joinable game in `order`, or a new game
    ensures routed.Call? ==> var q := routed.request; q.JoinGameReq? ==>
      ts.players == old(ts.players)
      && (outcome.Ok? ==> outcome.value.Succeeded? && outcome.value.payload.GameIdIs? && outcome.value.payload.gameID in ts.games)
      && (outcome.Ok? && outcome.value.payload.gameID in old(ts.games) ==>
            var id := outcome.value.payload.gameID;
            ts.games == old(ts.games)
            && (exists k :: 0 <= k < |order| && order[k] == id
                  && old(Joinable(ts.games[order[k]].status, ts.games[order[k]].players, q.playerID))
                  && forall j :: 0 <= j < k ==> !old(Joinable(ts.games[order[j]].status, ts.games[order[j]].players, q.playerID)))
            && Joined(old(ts.games[id].players), old(ts.games[id].history), ts.games[id], q.playerID)
            && forall other :: other in ts.games && other != id ==>
                 ts.footprints[other] == old(ts.footprints[other]) && unchanged(ts.footprints[other]))
      && (outcome.Ok? && outcome.value.payload.gameID !in old(ts.games) ==>
            var g := ts.games[outcome.value.payload.gameID];
            fresh(g) && ts.games == old(ts.games)[outcome.value.payload.gameID := g]
            && g.status == Pending && g.history == [] && g.board == null
            && (g.players == PerColor(Some(q.playerID), None) || g.players == PerColor(None, Some(q.playerID)))
            && forall id :: id in old(ts.games) ==> !old(Joinable(ts.games[id].status, ts.games[id].players, q.playerID)))
      && (outcome.Raise? ==> ts.games == old(ts.games) && outcome.error == RuntimeError)
      && (outcome.Raise? || outcome.value.payload.gameID !in old(ts.games) ==>
            forall id :: id in old(ts.games) ==> ts.footprints[id] == old(ts.footprints[id]) && unchanged(ts.footprints[id]))
    // GET_STATUS, IS_MY_TURN and GET_STATE: read-only answers

    ensures routed.Call? ==> var q := routed.request; q.GetStatusReq? ==>
      outcome == Ok(old(ts.GetStatus(q.gameID)))
    ensures routed.Call? ==> var q := routed.request; q.IsMyTurnReq? ==>
      outcome == Ok(old(ts.IsMyTurn(q.gameID, q.playerID)))
    ensures routed.Call? ==> var q := routed.request; q.GetStateReq? ==>
      ts.StateAnswer(q.playerID, q.gameID, outcome)
    ensures routed.Call? ==> var q := routed.request; (q.GetStatusReq? || q.IsMyTurnReq? || q.GetStateReq?) ==>
        ts.games == old(ts.games) && ts.players == old(ts.players) && ts.Repr == old(ts.Repr) && unchanged(ts.Repr)
    // MAKE_PLY: the match's makePly, and no other match touched
    ensures routed.Call? ==> var q := routed.request; q.MakePlyReq? ==>
      ts.games == old(ts.games) && ts.players == old(ts.players)
      && (q.gameID !in ts.games ==> outcome == Ok(Failed("Invalid game ID")))
      && (q.gameID in ts.games ==>
            var res := MatchPly(Legacy, old(ts.games[q.gameID].State()), q.playerID,
                                Posn(q.fromRank, q.fromFile), Posn(q.toRank, q.toFile), inCheck, checkmated);
            ts.games[q.gameID].State() == res.state && outcome == PlyResponse(res.reply))
      && forall id :: id in ts.games && id != q.gameID ==>
           ts.footprints[id] == old(ts.footprints[id]) && unchanged(ts.footprints[id])
  {
    var route := Route(line, parse, listing);
    routed := route;
    outcome := Ok(Succeeded(NoPayload));
    match route
    case Reject(e) =>
      r := Ok(ErrorLine(e));
    case Fault(e) =>
      r := Raise(e);
    case Call(req) =>
      var result: Outcome<Response>;
      match req {
        case RegisterReq(name) =>
          result := ts.Register(name);
        case JoinGameReq(playerID) =>
          result := ts.JoinGame(playerID, order);
        case GetStatusReq(gameID) =>
          result := Ok(ts.GetStatus(gameID));
        case IsMyTurnReq(gameID, playerID) =>
          result := Ok(ts.IsMyTurn(gameID, playerID));
        case GetStateReq(playerID, gameID) =>
          result := ts.GetState(playerID, gameID);
        case MakePlyReq(playerID, gameID, fromRank, fromFile, toRank, toFile) =>
          result := ts.MakePly(playerID, gameID, fromRank, fromFile, toRank, toFile, inCheck, checkmated);
      }
      outcome := result;
      r := Ok(Respond(result));
  }
}
