# Maverick chess server, modelled in Dafny

Maverick is a chess tournament server. Players register under a name and
join matches. The server shows each match's status and state and takes
plies (single moves of one side) checked against the rules of chess. A
move generator enumerates every ply a side can make.

The repository holds the engine in several generations. The model keeps
them apart, one module per generation:

- `ChessTypes` (chess_types.dfy) holds the shared values:
  - colours, piece kinds, pieces and positions (`ChessPosn`, `ChessPiece`);
  - the per-colour dicts;
  - Python's exceptions, as `Outcome<T> = Ok(value) | Raise(error)`.
- `BoardRules` (board_rules.dfy) holds the 0-indexed board of
  `maverick/data/structs.py` and `maverick/data.py` as a value, with its
  read and write operations, paths, movement pattern and the static part
  of `isLegalMove`. A `Version` parameter (`Structs` or `Legacy`) selects
  whichever file's behaviour differs.
- `BoardMoves` (board_moves.dfy) specifies `_executePly` stage by stage,
  along with the undo replay, the board left after `isLegalMove`, and
  `makePly`.
- `Board` (board.dfy) is the `ChessBoard` class. The per-colour en-passant
  lists are arrays, so the shallow dict copy kept in the undo record
  aliases them just as Python does. Every method is proved against the
  `BoardMoves` functions.
- `Match` (chess_match.dfy) is the `ChessMatch` class of both files: the
  status, the two player slots and the ply history. `MatchPly` is its
  specification.
- `BoardPaths`, `BoardUndo`, `BoardCases` (board_paths.dfy,
  board_undo.dfy, board_cases.dfy) hold the lemmas:
  - what the paths and patterns mean, against FIDE Laws of Chess,
    Article 3;
  - what the undo restores and what it loses;
  - concrete boards that show where the two files differ.
- `Server` (server.dfy) holds the registry of `maverick/server.py`:
  - `_getUniqueInt`;
  - the `TournamentSystem` class with its player and game maps;
  - the state serializers;
  - the request dispatcher of `lineReceived`.
- `MaverickChess` (maverick_chess.dfy) is the stand-alone, 1-indexed
  board, match and registry of `maverick-chess/server/TournamentSystem.py`.
- `Prototype` (prototype.dfy) is the first prototype
  (`Maverick/maverick/server/TournamentSystem.py`). Its board rows are
  arrays, because four of them are one shared list.
- `StateExpansion` (state_expansion.dfy) holds the move generator of
  `players/ais/analyzers/stateExpansion.py`, compared with `data.py`,
  which is the module it imports. For every piece but the king, the
  candidates are proved sound and complete against data.py's pattern.
  For the king, whose castle test is taken in its corrected form, only
  soundness is proved; the test as written is modelled separately, in
  the as-written canMoveTo.

Three things are parameters of the model:
- **The king-safety test inside `isLegalMove`.** It is
  `inCheck(board, colour)`. Which board it looks at is part of the model:
  `structs.py` looks at the board after the undo, `data.py` at the board
  after the hypothetical ply. In `maverick-chess` the test is given the
  board after the hypothetical ply, and it is passed in with each call,
  so it may also close over the current board: the source's
  `isKingInCheck` finds the pieces on the new board but asks
  `isLegalMove`, which reads the current one, whether they reach the
  king, so the board it looks at is mixed.
- **Checkmate detection.** It is `checkmated(board, colour)`. In
  `maverick-chess` both tests return an `Outcome`, so they may raise, as
  the source's do on a board where a king has been captured.
- **The move generator's self-check filter.** It is `kingSafe(from, to)`.

Random choices (the first player's colour and `random.randint` in
`_getUniqueInt`) are nondeterministic. Their contracts state only the
range and that the value is new.

## Model

Source cells are paths inside the repository, with the lines each member models.

| member | source | states |
|---|---|---|
| ChessTypes.OtherColor | src/main/python/maverick/data/structs.py:453-466 | getOtherColor never returns its argument |
| ChessTypes.Set | src/main/python/maverick/data/structs.py:263 | writing one colour's entry of a per-colour dict leaves the other colour's entry alone |
| ChessTypes.Repeat | src/main/python/maverick/data/structs.py:263 | `[x] * n` has length n and every entry x |
| BoardRules.SetSq | src/main/python/maverick/data/structs.py:239-243 | __setitem__ puts the piece on that square and leaves every other square as it was |
| BoardRules.PathSquares | src/main/python/maverick/data/structs.py:1014-1086 | the path is shorter than the move's distance; a move that is not straight falls into the vertical branch, so its squares keep the origin's file |
| BoardRules.ClearPath | src/main/python/maverick/data/structs.py:468-500 | a move to a neighbouring square is always clear; BoardPaths.ClearPathMeaning states the rest |
| BoardRules.PawnPattern | src/main/python/maverick/data/structs.py:577-640 | a pawn passes only one or two squares forward and never straight onto a piece; only a forward diagonal step can raise, and then IndexError |
| BoardRules.KnightPattern | src/main/python/maverick/data/structs.py:656-665 | true exactly on the (1,2) and (2,1) displacements |
| BoardRules.CastleTarget | src/main/python/maverick/data/structs.py:711-724 | data.py's target lies on the home rank at the castle file; structs.py's swaps the two, so it misses both unless they are equal |
| BoardRules.KingPattern | src/main/python/maverick/data/structs.py:699-730 | every neighbouring square passes; a longer move needs a castle right and lands on file 6 or 2 of the home rank in data.py, and on rank 6 or 2 of the home file in structs.py |
| BoardRules.MovementInPattern | src/main/python/maverick/data/structs.py:546-732 | true only with a piece of the mover's colour on the origin; only a pawn raises, and then IndexError |
| BoardRules.StaticChecks | src/main/python/maverick/data/structs.py:777-802 | true only for the mover's piece going somewhere on the board, onto an empty square or an enemy piece other than a king; it raises exactly when the pattern raises, and then IndexError |
| Board.ChessBoard.constructor | src/main/python/maverick/data/structs.py:185-226 | a default board holds the default layout, no en-passant flags, every castle right and a zero counter, in fresh flag lists |
| Board.ChessBoard.FromState | src/main/python/maverick/data/structs.py:185-226 | a board built from given fields holds copies of them; data.py has no draw counter (0) |
| Board.ChessBoard.SetItem | src/main/python/maverick/data/structs.py:239-243 | the square reads the new piece afterwards, and nothing else about the board changes |
| Board.ChessBoard.ExecutePly | src/main/python/maverick/data/structs.py:245-361 | the new fields and the returned undo list are those of BoardMoves.ExecutePly; the mover gets a fresh flag list and the opponent's list is written in place |
| Board.ChessBoard.LiftPiece | src/main/python/maverick/data/structs.py:253-300 | lifting the piece, replacing the mover's flag list, the castle rights, the draw counter, the double-step flag and the note of the destination give exactly BoardMoves.LiftStage |
| Board.ChessBoard.UpdateCastleRights | src/main/python/maverick/data/structs.py:265-273 | a king move drops both of the mover's rights, a rook leaving file 0 or 7 drops that side's right, and nothing else changes |
| Board.ChessBoard.UpdateDrawCounter | src/main/python/maverick/data/structs.py:275-278 | structs.py: the counter restarts after a capture and then counts up by one; the `movedPiece == "P"` test is never true; data.py has no counter |
| Board.ChessBoard.PlacePiece | src/main/python/maverick/data/structs.py:302-329 | putting the piece on the destination and moving the castling rook give exactly BoardMoves.PlaceStage, with the flags, rights and counter unchanged |
| Board.ChessBoard.CaptureEnPassant | src/main/python/maverick/data/structs.py:331-355 | removing the pawn taken en passant and clearing the opponent's flag give exactly BoardMoves.EnPassantStage, with the mover's flags unchanged |
| Board.ChessBoard.GetPlyResult | src/main/python/maverick/data/structs.py:822-854 | the undo record holds the old castle dict and the old flag lists (shallow copies), the move's undo list, and the board is BoardMoves.ExecutePly's |
| Board.ChessBoard.UndoPlyResult | src/main/python/maverick/data/structs.py:856-874 | the saved rights and flag lists come back, the layout is the replay of the undo list in order, and the draw counter is not restored |
| Board.ChessBoard.IsLegalMove | src/main/python/maverick/data/structs.py:734-820 | the verdict is BoardMoves.Legality and the board left behind is BoardMoves.AfterLegalityCheck: the tried ply followed by its undo |
| Board.ChessBoard.StaticChecksOf | src/main/python/maverick/data/structs.py:777-802 | the checks before the hypothetical ply, in the source's order, give exactly BoardRules.StaticChecks |
| Board.ChessBoard.TryPly | src/main/python/maverick/data/structs.py:804-820 | the king-safety test sees BoardMoves.CheckedBoard (the board after the undo in structs.py, after the ply in data.py), the board is left as BoardMoves.AfterUndo says, and the flag lists are the same objects |
| Board.ChessBoard.MakePly | src/main/python/maverick/data/structs.py:363-388 | the verdict and the new board are BoardMoves.MakePly's: isLegalMove's verdict, with _executePly run only when it is true |
| Board.ChessBoard.ResetFlags | src/main/python/maverick/data/structs.py:262-263 | the mover gets a new list of eight false flags; the opponent's list and the rest of the board are unchanged |
| Board.ChessBoard.IsClearLinearPath | src/main/python/maverick/data/structs.py:468-500 | the loop answers true exactly when BoardRules.ClearPath holds: a non-empty path, or a one-square move, with every path square empty |
| Board.ChessBoard.GetPiecesOfColor | src/main/python/maverick/data/structs.py:905-919 | the list holds exactly the on-board squares with a piece of that colour, in strictly increasing row-major order |
| Board.ChessBoard.FindKings | src/main/python/maverick/data/structs.py:527-544 | the first square in row-major order holding the colour's king, or MaverickDataException when there is none |
| Board.RangeBetween | src/main/python/maverick/data/structs.py:1043-1050 | `range(start, stop, step)`, less the two ends, gives the values strictly between start and stop in order |
| Board.GetSquaresInPath | src/main/python/maverick/data/structs.py:1014-1086 | the loops build exactly BoardRules.PathSquares, whose meaning BoardPaths.PathSquaresExact states |
| BoardMoves.ExecutePly | src/main/python/maverick/data/structs.py:245-361 | the mover's flags are all false except the origin file after a double step; the mover's castle rights follow the moved piece and the opponent's are untouched; opponent flags only go from true to false; the undo list starts with the piece and its origin, then the destination |
| BoardMoves.LiftStage | src/main/python/maverick/data/structs.py:253-300 | the first part of _executePly keeps the board well formed and starts the undo list with the piece at its origin and what stood on the destination |
| BoardMoves.PlaceStage | src/main/python/maverick/data/structs.py:302-329 | putting the piece down, and moving the rook of a castle, keeps the board well formed and only adds to the undo list; BoardUndo.PlaceKeeps states what it changes |
| BoardMoves.EnPassantStage | src/main/python/maverick/data/structs.py:331-355 | the en-passant capture keeps the board well formed and only adds to the undo list; BoardUndo.EnPassantKeeps states what it changes |
| BoardMoves.Replay | src/main/python/maverick/data/structs.py:866-872 | undoPlyResult's loop keeps the grid 8x8; BoardUndo.ReplayRecords states what it restores |
| BoardMoves.MakePly | src/main/python/maverick/data/structs.py:363-388 | makePly returns isLegalMove's verdict, unless an accepted ply raises AttributeError; a refused ply leaves the board isLegalMove left |
| BoardMoves.AfterLegalityCheck | src/main/python/maverick/data/structs.py:734-820 | the board stays well formed; BoardUndo.LegalityCheckRestores states what comes back |
| BoardMoves.AfterUndo | src/main/python/maverick/data/structs.py:822-874 | after getPlyResult and undoPlyResult both sides' castle rights and the mover's flags are back |
| BoardMoves.PassingStaticChecks | src/main/python/maverick/data/structs.py:777-802 | a ply that passes the static checks starts from a piece of the mover's colour and lands on the board |
| BoardMoves.CheckedBoard | src/main/python/maverick/data/structs.py:804-820 | structs.py tests the king on the board after the undo, whose castle rights and mover's flags are back; data.py on the board after the ply, whose mover's rights follow the moved piece and whose opponent's rights are kept |
| BoardMoves.Legality | src/main/python/maverick/data/structs.py:734-820 | isLegalMove raises exactly when the pattern raises, and then IndexError; it is true only when the static checks pass |
| BoardMoves.LegalityRejects | src/main/python/maverick/data/structs.py:777-820 | isLegalMove is false when the origin lacks a piece of the mover's colour; it is true exactly when the piece is the mover's, the move is in the pattern, the destination is empty or an enemy piece other than a king, the move goes somewhere, it stays on the board and the king is then safe |
| BoardUndo.ExecutePlyFrame | src/main/python/maverick/data/structs.py:245-361 | _executePly changes only the squares its undo list names; when each square is named once, each entry holds what stood there before |
| BoardUndo.ReplayRecords | src/main/python/maverick/data/structs.py:866-872 | replaying an undo list of original contents puts those contents back on the named squares and leaves the others alone |
| BoardUndo.UndoRestoresLayout | src/main/python/maverick/data/structs.py:822-875 | undoPlyResult(getPlyResult(from, to)) gives back the layout when the undo list names each square once |
| BoardUndo.AcceptedMoveDistinct | src/main/python/maverick/data/structs.py:245-361 | every ply that passes the static checks names each square once in its undo list, except a structs.py castle, whose rook is looked for on the king's own landing square |
| BoardUndo.LegalityCheckRestores | src/main/python/maverick/data/structs.py:806-820 | after isLegalMove the layout, both sides' castle rights and the mover's flags are as before; the opponent's flags only lose entries; data.py away from an en-passant capture gets the whole board back |
| BoardUndo.LegacyMakePlyVerdict | src/main/python/maverick/data.py:350-372 | data.py's makePly always returns isLegalMove's verdict |
| BoardUndo.EnPassantCaptureLost | src/main/python/maverick/data/structs.py:848-849 | an en-passant capture accepted by isLegalMove has its flag cleared in the shared list, so makePly succeeds but leaves the passed pawn on the board |
| BoardUndo.IntendedMakePly | src/main/python/maverick/data/structs.py:363-385 | makePly with copied flag lists: the verdict is isLegalMove's, and a refused ply leaves the board as given |
| BoardUndo.IntendedEnPassantCapture | src/main/python/maverick/data/structs.py:331-355 | with copied flag lists, an accepted en-passant capture puts the pawn on the destination and removes the opponent's passed pawn |
| BoardUndo.IntendedMakePlyAgrees | src/main/python/maverick/data.py:350-372 | in data.py the copies change nothing except the en-passant capture: every other ply gives makePly's own verdict and board |
| BoardUndo.UndoDrawCounter | src/main/python/maverick/data/structs.py:856-874 | the undo does not put the draw counter back: structs.py keeps the tried ply's count, data.py has none |
| BoardUndo.ExecutePlyEffect | src/main/python/maverick/data.py:293-342 | the piece leaves its origin for the destination; a castling king moves the rook from file 7 to 5 or from file 0 to 3; an en-passant capture removes the pawn behind the destination and clears that flag |
| BoardPaths.PathSquaresExact | src/main/python/maverick/data/structs.py:1014-1086 | for a straight move the path is the Distance - 1 strictly intermediate squares, in order from the origin |
| BoardPaths.PathMembership | src/main/python/maverick/data/structs.py:1014-1086 | a square is on the path exactly when it is k steps along the line for some 0 < k < Distance |
| BoardPaths.PathExcludesEnds | src/main/python/maverick/data/structs.py:1014-1086 | neither the origin nor the destination is on the path |
| BoardPaths.ClearPathMeaning | src/main/python/maverick/data/structs.py:468-500 | on a straight line the path is clear exactly when every strictly intermediate square is empty |
| BoardPaths.SlidingPattern | src/main/python/maverick/data/structs.py:642-697 | rook, bishop and queen pass the pattern exactly with the right shape (orthogonal, diagonal, either) and nothing in between |
| BoardPaths.KnightPatternMeaning | src/main/python/maverick/data/structs.py:656-665 | the knight passes exactly on the (1,2) and (2,1) displacements, whatever stands between |
| BoardPaths.KingPatternMeaning | src/main/python/maverick/data/structs.py:699-730 | the king passes on one square any way, or on the version's castle target whose right is held |
| BoardPaths.LegacyCastleLanding | src/main/python/maverick/data.py:687-722 | data.py: a king move of more than one square lands on file 6 or 2 of the home rank (0 for White, 7 for Black) and needs that side's right |
| BoardPaths.EpCaptureRanks | src/main/python/maverick/data/structs.py:608-616 | the en-passant capture rank is 5 for White and 2 for Black |
| BoardPaths.PawnPatternMeaning | src/main/python/maverick/data/structs.py:577-640 | the pawn passes exactly one ahead onto empty, one diagonally ahead onto a piece or the en-passant square, or two ahead from the start rank over and onto empty squares |
| BoardPaths.PawnPatternRaises | src/main/python/maverick/data/structs.py:606-619 | the pattern raises IndexError exactly for a forward diagonal step whose file lies past the opponent's eight flags |
| BoardCases.DefaultBoard | src/main/python/maverick/data.py:122-143 | the default board has 32 pieces on ranks 0, 1, 6, 7 (White below), pawns on ranks 1 and 6, the kings on file 4, no flags and every right |
| BoardCases.EmptyLayout | src/main/python/maverick/data/structs.py:185-226 | a layout of 64 empty squares |
| BoardCases.StructsCastleTargetSwapped | src/main/python/maverick/data/structs.py:715-724 | structs.py passes White's king e1 onto (2, 0) using the queen-side right, and data.py refuses it |
| BoardCases.StructsRejectsRealCastle | src/main/python/maverick/data/structs.py:715-724 | with f1 and g1 emptied, data.py passes e1-g1 and structs.py refuses it |
| BoardCases.StructsCheckDuplicatesKing | src/main/python/maverick/data/structs.py:806-820 | a structs.py "castle" whose landing square is the rook square leaves two white kings after the legality test |
| BoardCases.StructsMakePlyRaises | src/main/python/maverick/data/structs.py:363-388 | after such a test the origin is empty, and structs.py's makePly raises AttributeError |
| Match.TurnAlternates | src/main/python/maverick/data/structs.py:1159-1164 | White moves first and every ply passes the turn |
| Match.ColorOfPlayer | src/main/python/maverick/data.py:1241-1248 | White when the white slot holds the ID, else Black when the black slot does, else None |
| Match.MatchPly | src/main/python/maverick/data/structs.py:1175-1212 | makePly keeps every match well formed (see the lemmas below) |
| Match.AfterBoardPly | src/main/python/maverick/data/structs.py:1193-1212 | the match after the board has answered is well formed |
| Match.MatchPlyPrecedence | src/main/python/maverick/data/structs.py:1175-1192 | in this order, each leaving the match unchanged: "Game not in progress", "You are not a player in this game", "It is not your turn"; then the board's makePly for the player to move |
| Match.BoardVerdictReply | src/main/python/maverick/data/structs.py:1193-1212 | SUCCESS exactly on a true verdict, "Illegal move" on false, an exception passed through; a reply other than SUCCESS keeps the history and status |
| Match.StructsHistory | src/main/python/maverick/data/structs.py:1190-1209 | structs.py: the history grows by exactly the ply exactly when the reply is SUCCESS, and the turn passes |
| Match.LegacyHistory | src/main/python/maverick/data.py:1265-1282 | data.py: a successful ply is recorded exactly when it mates neither king; a mate sets W_BLACK/W_WHITE and leaves the ply out of the history |
| Match.StructsFiftyMoveDraw | src/main/python/maverick/data/structs.py:1199-1222 | structs.py: with no mate, a successful ply draws the game exactly when the counter has reached 51 |
| Match.ChessMatch.constructor | src/main/python/maverick/data/structs.py:1129-1157 | a new match is PENDING, has an empty history and no board, and has the first player in one slot |
| Match.ChessMatch.WhoseTurn | src/main/python/maverick/data/structs.py:1159-1164 | White exactly when the history length is even |
| Match.ChessMatch.MakePly | src/main/python/maverick/data/structs.py:1175-1212 | the reply and the new match state are those of Match.MatchPly |
| Match.ChessMatch.RecordPly | src/main/python/maverick/data/structs.py:1193-1212 | once the board has answered, the reply and the state are Match.AfterBoardPly |
| Match.JoinedPlayers | src/main/python/maverick/data/structs.py:1237-1257 | after join's loop both slots are filled, filled slots are kept, and a match with an empty slot holds the player |
| Match.ChessMatch.Join | src/main/python/maverick/data/structs.py:1224-1259 | None unless PENDING and the ID is in neither slot; otherwise the slots are JoinedPlayers': every empty slot is filled, because the loop has no break, so one player fills both slots of an empty match; the game starts on a new board once no slot is empty |
| Server.UniqueInt | src/main/python/maverick/server.py:304-317 | raises RuntimeError exactly when 2^31 IDs are in use; otherwise returns an n in [1, 2^32 - 1] that is not in use |
| Server.SerializeLayout | src/main/python/maverick/server.py:159-180 | the 8x8 shape is kept and each entry is the piece's (color, pieceType), or None; decoding gives back the layout |
| Server.SerializeHistory | src/main/python/maverick/server.py:183-206 | one {fromRank, fromFile, toRank, toFile} dict per ply, in history order; decoding gives back the history |
| Server.PlyResponse | src/main/python/maverick/server.py:296-299 | SUCCESS becomes (True, {}), every other reply (False, {"error": reply}), and an exception passes through |
| Server.TournamentSystem.constructor | src/main/python/maverick/server.py:37-44 | no games and no players |
| Server.TournamentSystem.Register | src/main/python/maverick/server.py:72-92 | a known name gives back the existing ID and leaves players unchanged; a new name is mapped from a fresh ID in [1, 2^32 - 1]; a full registry raises RuntimeError; the games are untouched |
| Server.TournamentSystem.TryJoin | src/main/python/maverick/server.py:109-111 | a PENDING match's join succeeds exactly when the ID is in neither slot; then the player holds a slot, every empty slot holds the player, the game is ONGOING on a new default board and the history is kept; on failure the match is untouched; every other game is untouched either way |
| Server.TournamentSystem.FindGame | src/main/python/maverick/server.py:108-114 | the first game in iteration order whose join succeeds, left as TryJoin says, with every other game untouched; if none does, nothing changed, and no game was joinable |
| Server.TournamentSystem.OpenGame | src/main/python/maverick/server.py:117-119 | a fresh ID maps to one new PENDING match holding the player; the other games are untouched |
| Server.TournamentSystem.JoinGame | src/main/python/maverick/server.py:94-122 | either the first joinable game in iteration order, with the map unchanged, that game joined as TryJoin says and every other game untouched, or exactly one new PENDING game under a fresh ID containing the player, with every existing game untouched; when no ID is free, the map and every game are as before |
| Server.TournamentSystem.CancelGame | src/main/python/maverick/server.py:124-139 | "Invalid game ID" for an unknown ID, "Game not active" when not PENDING or ONGOING, and otherwise the call of the logger object raises TypeError before the status is set |
| Server.TournamentSystem.GetStatus | src/main/python/maverick/server.py:141-156 | (True, {"status": s}) exactly for a known game, "Invalid game ID" otherwise |
| Server.TournamentSystem.IsMyTurn | src/main/python/maverick/server.py:208-224 | fails for an unknown game or a non-participant; otherwise tells whether whoseTurn() is the caller's colour |
| Server.TournamentSystem.GetState | src/main/python/maverick/server.py:226-273 | fails for an unknown game or a non-participant; no board raises AttributeError; otherwise the caller's colour, isWhitesTurn from history parity, the serialized layout, the flags and the history |
| Server.TournamentSystem.MakePly | src/main/python/maverick/server.py:275-301 | "Invalid game ID" for an unknown game; otherwise the match's new state is Match.MatchPly's, and the reply its PlyResponse; every other game is untouched |
| Server.SpaceIndex | src/main/python/maverick/server.py:413 | the index of the first space, or the length when there is none |
| Server.Partition | src/main/python/maverick/server.py:413 | `line.partition(" ")`: the verb holds no space, and the line is verb + " " + rest when it has a space |
| Server.PartitionRequest | src/main/python/maverick/server.py:413 | a verb without spaces and any argument text split back into that verb and text |
| Server.VerbName | src/main/python/maverick/server.py:350-370 | every key of VALID_REQUESTS is a non-empty name without a space, so partition never splits it |
| Server.VerbNamed | src/main/python/maverick/server.py:350-370 | the VALID_REQUESTS entry for a name, and only that entry |
| Server.ExpectedArgs | src/main/python/maverick/server.py:350-370 | "name" is expected by REGISTER alone; "playerID" by every request but REGISTER and GET_STATUS; "gameID" by every request but REGISTER and JOIN_GAME |
| Server.JoinComma | src/main/python/maverick/server.py:430 | `",".join(names)` starts with the first name, followed by a comma when there are more |
| Server.Route | src/main/python/maverick/server.py:406-434 | for an expected-argument listing that names each expected argument once: an unknown verb is always rejected; the only escaping exception is AttributeError, for JSON that is not an object; a call is for the verb the line names |
| Server.Typed | src/main/python/maverick/server.py:424-434 | a request built from exactly the expected arguments is a call to that verb's method |
| Server.RequestReachesMethod | src/main/python/maverick/server.py:416-434 | a known verb whose JSON object has exactly the expected keys is dispatched to its method |
| Server.CallsOnlyExpected | src/main/python/maverick/server.py:416-434 | a line is dispatched only when its verb is known and its argument keys equal the expected set |
| Server.Respond | src/main/python/maverick/server.py:436-476 | an exception gives "ERROR Uncaught exception", a failure "ERROR msg", a success "SUCCESS payload" |
| Server.LineReceived | src/main/python/maverick/server.py:406-476 | an unknown verb or wrong arguments give the error line and change nothing; a dispatched request's line is Respond of the method's outcome, and for each request kind that outcome and the new state are those of the TournamentSystem method it names (register, joinGame, getStatus, isMyTurn, getState, makePly), the three queries changing nothing; a join that joined no existing game leaves every existing game untouched |
| MaverickChess.Slot | src/main/python/maverick-chess/server/TournamentSystem.py:554-555 | `xs[i - 1]` reads list index i - 1, counted from the end when negative |
| MaverickChess.Cell | src/main/python/maverick-chess/server/TournamentSystem.py:554-555 | every addressable 1-indexed position reads some square of the board |
| MaverickChess.CellOnBoard | src/main/python/maverick-chess/server/TournamentSystem.py:554-555 | a position in range(1, 9) reads the square one rank and one file lower |
| MaverickChess.Lookup | src/main/python/maverick-chess/server/TournamentSystem.py:554-555 | reading `board[rank - 1][file - 1]` raises IndexError exactly off the addressable range, and otherwise yields that square |
| MaverickChess.Store | src/main/python/maverick-chess/server/TournamentSystem.py:509-510 | a write changes exactly the addressed square |
| MaverickChess.StartingBoard | src/main/python/maverick-chess/server/TournamentSystem.py:62-104 | the starting board is 8x8 |
| MaverickChess.StartingPosition | src/main/python/maverick-chess/server/TournamentSystem.py:62-104 | kings on e1 and e8, pawns on ranks 2 and 7, ranks 3 to 6 empty |
| MaverickChess.SquaresInPath | src/main/python/maverick-chess/server/TournamentSystem.py:170-234 | every vertical path is empty, and no path is as long as the move's distance |
| MaverickChess.SquaresInPathBranches | src/main/python/maverick-chess/server/TournamentSystem.py:170-234 | diagonal and horizontal paths are those of the 0-indexed engine; every other path, vertical ones included, is empty |
| MaverickChess.ClearLinearPath | src/main/python/maverick-chess/server/TournamentSystem.py:236-272 | a move to a neighbouring square is always clear |
| MaverickChess.DiagonalOrHorizontalPath | src/main/python/maverick-chess/server/TournamentSystem.py:170-234 | a diagonal or horizontal path is the strictly intermediate squares in order |
| MaverickChess.PathAddressed | src/main/python/maverick-chess/server/TournamentSystem.py:236-272 | a path between addressable squares never reads outside the board list |
| MaverickChess.VerticalSlideBlocked | src/main/python/maverick-chess/server/TournamentSystem.py:226 | no vertical slide of more than one square is ever clear |
| MaverickChess.ClearLinearPathMeaning | src/main/python/maverick-chess/server/TournamentSystem.py:236-272 | on a diagonal or horizontal line the path is clear exactly when every intermediate square is empty |
| MaverickChess.PawnMoveOk | src/main/python/maverick-chess/server/TournamentSystem.py:566-595 | a pawn goes one or two squares forward, never one straight ahead onto a piece, and sideways only one file, one rank ahead, onto a piece |
| MaverickChess.PawnMoveMeaning | src/main/python/maverick-chess/server/TournamentSystem.py:566-595 | one ahead onto empty, one diagonally ahead onto a piece, or two straight ahead from rank 2 (White) or 7 (Black) |
| MaverickChess.PawnDoubleStepUnchecked | src/main/python/maverick-chess/server/TournamentSystem.py:591-595 | the double step from the start rank passes whatever stands on the two squares ahead |
| MaverickChess.KingMoveOk | src/main/python/maverick-chess/server/TournamentSystem.py:658-691 | a king move changing both the rank and the file by more than one passes only onto kingStartRank, with a castle right |
| MaverickChess.PieceMoveOk | src/main/python/maverick-chess/server/TournamentSystem.py:566-691 | a rook passes only along a rank or a file, a bishop only along a diagonal, a queen only along a straight line, and a pawn only one or two squares forward |
| MaverickChess.KingAdjacentLineUnbounded | src/main/python/maverick-chess/server/TournamentSystem.py:677-691 | any king move changing the rank or the file by exactly one passes, however far it goes the other way |
| MaverickChess.KingLongMoveLanding | src/main/python/maverick-chess/server/TournamentSystem.py:658-691 | any other king move passes only onto file 6 or 3 of rank 1 (White) or 7 (Black), with that side's right |
| MaverickChess.NoLongVerticalSlide | src/main/python/maverick-chess/server/TournamentSystem.py:597-656 | rooks and queens never pass a slide of more than one square along a file |
| MaverickChess.IntendedClearPathMeaning | src/main/python/maverick-chess/server/TournamentSystem.py:221-226 | with the vertical branch repaired, every straight path, vertical included, is clear exactly when the intermediate squares are empty |
| MaverickChess.IntendedKingMoveMeaning | src/main/python/maverick-chess/server/TournamentSystem.py:677 | with "or" for "and", the king moves one square any way or lands on a castle square whose right it holds |
| MaverickChess.IntendedPawnMoveMeaning | src/main/python/maverick-chess/server/TournamentSystem.py:591-595 | with both squares checked, the double step goes from the start rank over and onto empty squares |
| MaverickChess.ResultBoard | src/main/python/maverick-chess/server/TournamentSystem.py:485-511 | getResultBoard: the destination holds the origin's entry, the origin is empty, every other square is unchanged |
| MaverickChess.IsLegalMove | src/main/python/maverick-chess/server/TournamentSystem.py:513-714 | IndexError exactly for an unaddressable square; false with no own piece on the origin or an own piece on the destination; never true for a null move or off the board; on addressable squares with the mover's piece on the origin, a distinct on-board destination not holding an own piece and the piece's test passing, the verdict is exactly the king-safety test on the result board, negated, or its exception |
| MaverickChess.ChessBoard.constructor | src/main/python/maverick-chess/server/TournamentSystem.py:62-104 | a new board holds the starting position |
| MaverickChess.ChessBoard.MakePly | src/main/python/maverick-chess/server/TournamentSystem.py:106-168 | the verdict is IsLegalMove's (with full castle rights); the board becomes ResultBoard exactly when it is true; the flags never change, because the piece tests compare tuples with strings |
| MaverickChess.GamePly | src/main/python/maverick-chess/server/TournamentSystem.py:752-779 | a ply keeps the board 8x8 (see the lemmas below) |
| MaverickChess.GamePlyPrecedence | src/main/python/maverick-chess/server/TournamentSystem.py:756-777 | "Game not in progress", then "You are not a player in this game", then "It is not your turn", each changing nothing; then SUCCESS exactly on a true verdict whose mate tests do not raise, "Illegal move" exactly on a false one, and the verdict's exception with the match unchanged |
| MaverickChess.GamePlyRecords | src/main/python/maverick-chess/server/TournamentSystem.py:767-775 | the ply is appended exactly on SUCCESS, even right after a mate sets W_BLACK or W_WHITE, and the board becomes ResultBoard; a reply that is not SUCCESS leaves the match unchanged, except that a mate test that raises does so with the piece already moved and the ply unrecorded |
| MaverickChess.ChessMatch.constructor | src/main/python/maverick-chess/server/TournamentSystem.py:725-743 | a new match is PENDING with the starting board, an empty history and the first player in one slot |
| MaverickChess.ChessMatch.WhoseTurn | src/main/python/maverick-chess/server/TournamentSystem.py:745-750 | White exactly when the history length is even |
| MaverickChess.ChessMatch.MakePly | src/main/python/maverick-chess/server/TournamentSystem.py:752-779 | the reply and the new state are MaverickChess.GamePly's |
| MaverickChess.FirstSlotFilled | src/main/python/maverick-chess/server/TournamentSystem.py:793-798 | with an empty slot, join puts the player in the white slot when it is empty and otherwise in the black one, keeping the other slot |
| MaverickChess.ChessMatch.Join | src/main/python/maverick-chess/server/TournamentSystem.py:781-798 | None for a match that is not PENDING or that the ID is already in; otherwise exactly one empty slot is filled, White first, and the game starts once both are filled |
| MaverickChess.PlyResponse | src/main/python/maverick-chess/server/TournamentSystem.py:954-960 | SUCCESS becomes (True, {}), every other reply (False, {"error": reply}) |
| MaverickChess.TournamentSystem.constructor | src/main/python/maverick-chess/server/TournamentSystem.py:803-807 | no games and no players |
| MaverickChess.TournamentSystem.Register | src/main/python/maverick-chess/server/TournamentSystem.py:831-847 | a taken name fails with "player with this name already exists" and leaves players unchanged; a new name gets a fresh ID in [1, 2^32 - 1]; a full registry raises RuntimeError |
| MaverickChess.TournamentSystem.FindGame | src/main/python/maverick-chess/server/TournamentSystem.py:859-864 | the first game in iteration order whose join succeeds; there the player takes the white slot if empty, else the black one, the status is ONGOING once both are filled and PENDING otherwise, and the history is kept; every other game and every board is untouched; if none, nothing changed and no game was joinable |
| MaverickChess.TournamentSystem.OpenGame | src/main/python/maverick-chess/server/TournamentSystem.py:866-870 | a fresh ID maps to one new PENDING match that has the starting board and holds the player; every existing game and its board are untouched |
| MaverickChess.TournamentSystem.JoinGame | src/main/python/maverick-chess/server/TournamentSystem.py:849-870 | the first joinable game with the map unchanged, joined as FindGame says, with every other game and its board untouched, or exactly one new PENDING game under a fresh ID with every existing game and its board untouched; when no ID is free, the map and every game are as before |
| MaverickChess.TournamentSystem.CancelGame | src/main/python/maverick-chess/server/TournamentSystem.py:872-886 | CANCELLED from PENDING or ONGOING, returning None; "Game not active" otherwise; "Invalid game ID" for an unknown ID |
| MaverickChess.TournamentSystem.GetStatus | src/main/python/maverick-chess/server/TournamentSystem.py:888-901 | (True, {"status": s}) exactly for a known game, "Invalid game ID" otherwise |
| MaverickChess.TournamentSystem.GetState | src/main/python/maverick-chess/server/TournamentSystem.py:903-936 | fails for an unknown game or a non-participant; otherwise the caller's colour, isWhitesTurn from history parity, the board and the history |
| MaverickChess.TournamentSystem.MakePly | src/main/python/maverick-chess/server/TournamentSystem.py:938-962 | "Invalid game ID" for an unknown game; otherwise the match's new state is GamePly's and the reply its PlyResponse |
| Prototype.Slot | src/main/python/Maverick/maverick/server/TournamentSystem.py:209-210 | `xs[i]` reads list index i, counted from the end when negative |
| Prototype.Cell | src/main/python/Maverick/maverick/server/TournamentSystem.py:209-210 | every indexable position reads some square, an on-board one its own |
| Prototype.Lookup | src/main/python/Maverick/maverick/server/TournamentSystem.py:209-210 | reading `board[rank][file]` raises IndexError exactly off the indexable range, and otherwise yields that square |
| Prototype.NegativeIndexWraps | src/main/python/Maverick/maverick/server/TournamentSystem.py:209-210 | a rank or file eight below a square reads that square; eight above raises |
| Prototype.PawnMoveOk | src/main/python/Maverick/maverick/server/TournamentSystem.py:222-248 | a pawn goes one or two squares forward, and two only straight ahead from file 2 (White) or 6 (Black), whatever its rank |
| Prototype.PawnMoveMeaning | src/main/python/Maverick/maverick/server/TournamentSystem.py:222-248 | one ahead onto empty, one diagonally ahead onto a piece, or two straight ahead when the pawn stands on file 2 (White) or 6 (Black) |
| Prototype.PawnDoubleStepTestsFile | src/main/python/Maverick/maverick/server/TournamentSystem.py:247 | every opening white pawn off file 2 is refused the double step, the one on file 2 may take it from any rank, and Black's from rank 6 is refused |
| Prototype.IntendedDoubleStepFromStartRank | src/main/python/Maverick/maverick/server/TournamentSystem.py:33 | comparing the rank with PAWN_STARTING_RANKS, every opening pawn may step twice, from that rank only |
| Prototype.IsLegalMove | src/main/python/Maverick/maverick/server/TournamentSystem.py:167-255 | IndexError exactly for an unindexable square; true exactly with the mover's piece on the origin, a pawn passing its test, and no own piece on the destination |
| Prototype.OnlyPawnsHaveRules | src/main/python/Maverick/maverick/server/TournamentSystem.py:250-255 | any other piece may go to any square not holding its own colour, and no piece may stay put |
| Prototype.QueenCrossesTheBoard | src/main/python/Maverick/maverick/server/TournamentSystem.py:167-255 | on a new board the white queen may take the pawn on d7 at once |
| Prototype.ChessBoard.Layout | src/main/python/Maverick/maverick/server/TournamentSystem.py:62-79 | the grid read through the row lists |
| Prototype.ChessBoard.Written | src/main/python/Maverick/maverick/server/TournamentSystem.py:130 | a write to a square changes that file in every rank that shares the row list |
| Prototype.ChessBoard.Moved | src/main/python/Maverick/maverick/server/TournamentSystem.py:129-152 | the grid after lifting the piece and putting it down, through the shared rows |
| Prototype.ChessBoard.Put | src/main/python/Maverick/maverick/server/TournamentSystem.py:130 | a write through the row list changes that file of every rank sharing the row, and holds the value written |
| Prototype.ChessBoard.constructor | src/main/python/Maverick/maverick/server/TournamentSystem.py:62-102 | the starting position, with ranks 2 to 5 one shared list |
| Prototype.ChessBoard.MakePly | src/main/python/Maverick/maverick/server/TournamentSystem.py:104-165 | the verdict is IsLegalMove's; the grid becomes Moved exactly when it is true; the flags never change |
| Prototype.SameGrid | src/main/python/Maverick/maverick/server/TournamentSystem.py:62-79 | two 8x8 grids with equal squares are equal |
| Prototype.FirstStepFillsFourRanks | src/main/python/Maverick/maverick/server/TournamentSystem.py:77 | after a2-a3 on a new board a white pawn stands on a3, a4, a5 and a6 at once, and a2 is empty |
| Prototype.MatchReply | src/main/python/Maverick/maverick/server/TournamentSystem.py:295-316 | "Game not in progress", then not a player, then not your turn, then SUCCESS / "Illegal move" from the verdict, each exactly in its case, the exception passed through |
| Prototype.ChessMatch.constructor | src/main/python/Maverick/maverick/server/TournamentSystem.py:268-286 | a new match is PENDING with the starting board, an empty history and the first player in one slot |
| Prototype.ChessMatch.WhoseTurn | src/main/python/Maverick/maverick/server/TournamentSystem.py:288-293 | White exactly when the history length is even |
| Prototype.ChessMatch.MakePly | src/main/python/Maverick/maverick/server/TournamentSystem.py:295-316 | the reply is MatchReply's; the ply is appended and the board moved exactly on SUCCESS |
| Prototype.ChessMatch.Join | src/main/python/Maverick/maverick/server/TournamentSystem.py:318-335 | None for a match that is not PENDING or that the ID is already in; otherwise exactly one empty slot is filled, White first, and the game starts once both are filled |
| Prototype.TournamentSystem.constructor | src/main/python/Maverick/maverick/server/TournamentSystem.py:339-343 | no games and no players |
| Prototype.TournamentSystem.Register | src/main/python/Maverick/maverick/server/TournamentSystem.py:367-380 | a taken name fails and leaves players unchanged; a new name gets a fresh ID in [1, 2^32 - 1]; a full registry raises RuntimeError |
| Prototype.TournamentSystem.JoinGame | src/main/python/Maverick/maverick/server/TournamentSystem.py:382-399 | with any game present, unpacking an integer key raises TypeError; with none, exactly one new PENDING game holding the player |
| Prototype.TournamentSystem.CancelGame | src/main/python/Maverick/maverick/server/TournamentSystem.py:401-416 | CANCELLED from PENDING or ONGOING; "Game not active" otherwise; "Invalid game ID" for an unknown ID |
| Prototype.TournamentSystem.GetStatus | src/main/python/Maverick/maverick/server/TournamentSystem.py:418-429 | (True, {"status": s}) exactly for a known game, "Invalid game ID" otherwise |
| Prototype.TournamentSystem.GetState | src/main/python/Maverick/maverick/server/TournamentSystem.py:431-446 | a known game raises AttributeError on `g.board.history`; an unknown one fails |
| Prototype.TournamentSystem.MakePly | src/main/python/Maverick/maverick/server/TournamentSystem.py:448-469 | a known game raises TypeError from the extra gameID argument; an unknown one fails |
| StateExpansion.Walk | src/main/python/maverick/players/ais/analyzers/stateExpansion.py:17-30 | the loop visits at most the given translations |
| StateExpansion.MoveLoop | src/main/python/maverick/players/ais/analyzers/stateExpansion.py:17-30 | __canMoveTo_moveLoop appends exactly Walk's squares to the list |
| StateExpansion.WalkStopsAtFirstPiece | src/main/python/maverick/players/ais/analyzers/stateExpansion.py:22-30 | the squares are the translations, in order; all but the last are empty; a walk cut short ends on the first occupied square, which it includes |
| StateExpansion.RookMoves | src/main/python/maverick/players/ais/analyzers/stateExpansion.py:66-88 | the four loops give exactly RookCandidates: up, down, right, left, each up to 7 steps, stopping after a piece |
| StateExpansion.BishopMoves | src/main/python/maverick/players/ais/analyzers/stateExpansion.py:104-124 | the four loops give exactly BishopCandidates along the four diagonals |
| StateExpansion.QueenMoves | src/main/python/maverick/players/ais/analyzers/stateExpansion.py:127-131 | the bishop candidates followed by the rook candidates |
| StateExpansion.KnightCandidates | src/main/python/maverick/players/ais/analyzers/stateExpansion.py:91-101 | eight translations |
| StateExpansion.KnightCandidatesMeaning | src/main/python/maverick/players/ais/analyzers/stateExpansion.py:91-101 | a square is a candidate exactly at displacement (1,2) or (2,1) |
| StateExpansion.PawnDiagonalMove | src/main/python/maverick/players/ais/analyzers/stateExpansion.py:52-61 | one pass of the diagonal loop gives PawnDiagonal for that file delta |
| StateExpansion.PawnAheadMoves | src/main/python/maverick/players/ais/analyzers/stateExpansion.py:36-47 | one square ahead when empty, then two ahead from the start rank over and onto empty squares: exactly PawnAhead |
| StateExpansion.PawnMoves | src/main/python/maverick/players/ais/analyzers/stateExpansion.py:33-63 | the generator gives exactly PawnCandidates: ahead moves, then the -1 and +1 diagonals |
| StateExpansion.PawnAheadMeaning | src/main/python/maverick/players/ais/analyzers/stateExpansion.py:41-47 | one ahead only onto an empty square; two ahead only from the start rank with both squares empty |
| StateExpansion.PawnDiagonalMeaning | src/main/python/maverick/players/ais/analyzers/stateExpansion.py:51-61 | a diagonal only onto an enemy piece, or onto an empty en-passant square on the capture rank |
| StateExpansion.PawnCandidatesMeaning | src/main/python/maverick/players/ais/analyzers/stateExpansion.py:33-63 | on an on-board square not holding its own piece, the pawn's candidates are exactly BoardPaths.PawnRule |
| StateExpansion.KingSideTestClearsRookPath | src/main/python/maverick/players/ais/analyzers/stateExpansion.py:155-159 | the corrected king-side test holds exactly when the right is held and files 5 and 6 between king and rook are empty |
| StateExpansion.QueenSideTestClearsRookPath | src/main/python/maverick/players/ais/analyzers/stateExpansion.py:147-154 | the queen-side candidate is offered exactly when the right is held and files 1 to 3 of the home rank are empty |
| StateExpansion.KingSideOfferedAsWritten | src/main/python/maverick/players/ais/analyzers/stateExpansion.py:155-159 | the test as written needs the king-side right, and fails whenever any piece, the rook included, stands on file 7 of the home rank |
| StateExpansion.KingCandidates | src/main/python/maverick/players/ais/analyzers/stateExpansion.py:134-161 | eight to ten squares, none the origin, each at most one rank and two files away |
| StateExpansion.KingCandidatesAsWritten | src/main/python/maverick/players/ais/analyzers/stateExpansion.py:134-161 | _canMoveTo_king as written offers the square two files right exactly when the test on files 6 and 7 passes, and equals KingCandidates whenever the two tests agree |
| StateExpansion.KingCandidatesMeaning | src/main/python/maverick/players/ais/analyzers/stateExpansion.py:134-161 | the eight neighbours, plus two files left when the queen-side test passes and two files right when the king-side test passes |
| StateExpansion.RookCandidatesMeaning | src/main/python/maverick/players/ais/analyzers/stateExpansion.py:66-88 | for on-board squares, a candidate exactly when orthogonal with nothing in between |
| StateExpansion.BishopCandidatesMeaning | src/main/python/maverick/players/ais/analyzers/stateExpansion.py:104-124 | for on-board squares, a candidate exactly when diagonal with nothing in between |
| StateExpansion.QueenCandidatesMeaning | src/main/python/maverick/players/ais/analyzers/stateExpansion.py:127-131 | for on-board squares, a candidate exactly when orthogonal or diagonal with nothing in between |
| StateExpansion.Filter | src/main/python/maverick/players/ais/analyzers/stateExpansion.py:192-197 | `filter` keeps exactly the members that pass the test, never adding any |
| StateExpansion.Unblocked | src/main/python/maverick/players/ais/analyzers/stateExpansion.py:188-197 | exactly the candidates on the board that do not hold a piece of the mover's colour |
| StateExpansion.Reachable | src/main/python/maverick/players/ais/analyzers/stateExpansion.py:209-215 | exactly the unblocked squares that the self-check filter keeps |
| StateExpansion.UnblockedAsWritten | src/main/python/maverick/players/ais/analyzers/stateExpansion.py:188-197 | exactly the as-written candidates on the board that do not hold a piece of the mover's colour |
| StateExpansion.UnblockedAgreesOffKing | src/main/python/maverick/players/ais/analyzers/stateExpansion.py:164-197 | for every piece but the king, the as-written and the corrected generators keep the same squares |
| StateExpansion.CanMoveToAsWritten | src/main/python/maverick/players/ais/analyzers/stateExpansion.py:209-213 | as written (the king-side test on files 6 and 7 included), canMoveTo raises AttributeError as soon as any unblocked square is left, and returns [] otherwise |
| StateExpansion.KingSideCandidateRaises | src/main/python/maverick/players/ais/analyzers/stateExpansion.py:155-159 | a king on its home square whose king-side test as written passes is offered the square two files right, so canMoveTo raises, whatever stands on file 5 |
| StateExpansion.CanMoveTo | src/main/python/maverick/players/ais/analyzers/stateExpansion.py:164-215 | canMoveTo with the self-check filter as a parameter returns exactly Reachable |
| StateExpansion.OpeningPawnRaises | src/main/python/maverick/players/ais/analyzers/stateExpansion.py:210-212 | canMoveTo raises for the a2 pawn of the default board |
| StateExpansion.PawnAdvanceRaises | src/main/python/maverick/players/ais/analyzers/stateExpansion.py:210-212 | canMoveTo raises for any pawn with an empty square ahead |
| StateExpansion.CandidatesArePattern | src/main/python/maverick/data.py:532-725 | for every piece but the king, an enterable square is a candidate exactly when the move goes somewhere and passes data.py's pattern |
| StateExpansion.ReachableAgreesWithIsLegalMove | src/main/python/maverick/data.py:727-819 | for every piece but the king, and a destination without a king, canMoveTo yields a square exactly when isLegalMove's static checks pass and the king-safety filter agrees; on a king's square the two disagree, as the Findings table shows |
| StateExpansion.KingCaptureOffered | src/main/python/maverick/players/ais/analyzers/stateExpansion.py:188-197 | the filters keep an enemy king's square that is in the piece's pattern, so canMoveTo offers its capture, which isLegalMove's static checks refuse |
| StateExpansion.ReachableWithoutKings | src/main/python/maverick/players/ais/analyzers/stateExpansion.py:188-215 | canMoveTo's squares with every square holding a king dropped |
| StateExpansion.ReachableWithoutKingsIsLegal | src/main/python/maverick/data.py:727-819 | for every piece but the king, a square is kept exactly when isLegalMove's static checks pass and the king-safety filter agrees, on every destination |
| StateExpansion.KingReachableIsLegal | src/main/python/maverick/data.py:687-722 | every square offered to a king that stands on its home square, or that moves to a neighbour, or that holds no castle right, passes isLegalMove's static checks and the king-safety filter |
| StateExpansion.KingSideTestNeedsRookGone | src/main/python/maverick/players/ais/analyzers/stateExpansion.py:155-159 | with f1 and g1 empty, isLegalMove passes e1-g1 but the test as written refuses it, so it can only offer the castle once the rook has left h1 |
| StateExpansion.Pairs | src/main/python/maverick/players/ais/analyzers/stateExpansion.py:235-236 | the (fromPosn, toPosn) pairs of one origin, one per destination |
| StateExpansion.MovesFrom | src/main/python/maverick/players/ais/analyzers/stateExpansion.py:231-238 | the moves found for a square all start from it |
| StateExpansion.SquareMoves | src/main/python/maverick/players/ais/analyzers/stateExpansion.py:231-238 | one pass of the inner loop: the pairs for an own piece, none otherwise |
| StateExpansion.RankLoop | src/main/python/maverick/players/ais/analyzers/stateExpansion.py:230-238 | the inner loop over the files of one rank |
| StateExpansion.EnumPossBoardMoves | src/main/python/maverick/players/ais/analyzers/stateExpansion.py:218-240 | the nested loops give the moves of every square, rank by rank |
| StateExpansion.EnumMembership | src/main/python/maverick/players/ais/analyzers/stateExpansion.py:218-240 | (from, to) is enumerated exactly when `from` is on the board, holds a piece of the colour, and `to` is in canMoveTo's list for it |
| StateExpansion.ReachableIsLegalMove | src/main/python/maverick/data.py:727-819 | with data.py's king test on the board after the ply as the self-check filter, a piece other than a king is offered a square holding no king exactly when the whole of isLegalMove returns true |
| StateExpansion.EnumIsLegalMove | src/main/python/maverick/players/ais/analyzers/stateExpansion.py:218-240 | with that filter, a pair whose origin is not a king and whose destination holds no king is enumerated exactly when isLegalMove returns true for the colour |

## Left out

- I/O is left out: sockets, Twisted, the telnet and socket clients, JSON parsing, the welcome line, `sendLine`/`loseConnection`, logging, and `saveTS`/`loadTS` (pickle). JSON parsing is a parameter `parse` of the dispatcher.
- The king-safety tests (`pieceCheckingKing`, `isKingInCheck`) and checkmate detection (`isKingCheckmated`, `isCheckMated`) are parameters. They search the board for attacking pieces and legal escapes, and `isKingCheckmated` carries a comment saying it still has to be verified (structs.py:948, data.py:945). In the 1-indexed copy `isKingInCheck` and `isLegalMove` call each other with nothing that decreases, so there both parameters return an `Outcome`: `findKingAndEnemies` raises UnboundLocalError on a board without the colour's king, which a ply capturing a king produces (for instance 1.e4 e5 2.Bb5 d6 3.Bxe8), and the model's GamePly then raises with the piece moved and the ply unrecorded, as makePly does.
- StateExpansion.Reachable: the self-check filter is the parameter `kingSafe`. The source's `selfKingNotInCheck` cannot work, because it calls `isKingInCheck` on the undo dict that `getResultOfPly` returns. StateExpansion.CanMoveToAsWritten models what it does: it raises.
- StateExpansion.CanMoveToAsWritten: the board changes that the first hypothetical ply makes before the raise are not modelled.
- StateExpansion.KingCandidates uses the corrected king-side test (files 5 and 6), and so do Reachable, CanMoveTo and the enumeration built on it. The test as written is StateExpansion.KingSideOfferedAsWritten; StateExpansion.CanMoveToAsWritten is built on it, and the Findings table shows the difference.
- StateExpansion.KingReachableIsLegal covers a king on its home square, a move to a neighbour, and a king without castle rights. A king elsewhere that keeps a right can be offered the square two files away, which data.py's fixed landing squares refuse. It gives only one direction: the generator offers a castle only over empty squares, but data.py's pattern does not look at them.
- StateExpansion.CanMoveTo: the `assert fromPiece is not None` is a requires. The MaverickAIException branch for an unknown piece type cannot happen with the six kinds.
- StateExpansion.EnumMembership does not prove the test's count of 20 moves for White on the initial board. That count needs the king-safety filter, which is a parameter.
- Server.UniqueInt, MaverickChess.TournamentSystem.Register, Prototype.TournamentSystem.Register: `random.randint` retries are drawn from values not yet tried in that call, so the loop terminates. The real loop may draw the same value again.
- Server.LineReceived: requests whose argument values have the wrong JSON types (`OtherTypes`) are excluded. What the methods do with them depends on Python's dynamic typing.
- Server.TournamentSystem.JoinGame: `dict.iteritems()` order is the parameter `order`.
- `cancelGame` is not in VALID_REQUESTS, so the dispatcher never reaches it. Server.TournamentSystem.CancelGame is modelled as a method on its own.
- Match.ChessMatch.Join: `getMidGameBoard` and `genRandomLegalBoard`, which supply the board when neither player asked for a fresh start, are a parameter `midGame`.
- The draw counter of data.py: that file has none, so the model keeps it at 0 for `Legacy`.
- `__str__`/`__repr__` rendering, `ChessBoardUtils.genRandomLegalBoard`, data/utils.py, the AI heuristics, the polling players and core.py are not part of this model. They are floating point, random, I/O or empty stubs.
- MaverickChess.ChessBoard.constructor: `__init__` takes a `startBoard` argument but ignores it and always copies STARTING_BOARD, so the model's constructor takes no argument. `isCheckMated` is a parameter.
- MaverickChess.ChessBoard.MakePly: castle rights stay full and the en-passant flags stay false, because the source's tests never fire. The rook of a castle is never moved, and no en-passant capture happens.
- Prototype: the `ChessBoard(startBoard)` path is left out. TournamentSystem.joinGame calls `game.getStatus()` at line 390, a method the prototype's ChessMatch does not have; the TypeError of the unpacking at line 389 is raised first.

- Threefold repetition is never detected by the source, and is not modelled.

## Findings

| source | as written | input that shows it | evidently intended | confidence | as-written member | corrected member |
|---|---|---|---|---|---|---|
| src/main/python/maverick/data/structs.py:715 | the castle target is `ChessPosn(castleFile, kingStartRank)`, rank and file swapped | White king e1 to (rank 2, file 0) on the default board passes the pattern with the queen-side right | the target is (home rank, 6) or (home rank, 2), as in data.py | high, not executed | BoardCases.StructsCastleTargetSwapped | BoardPaths.LegacyCastleLanding |
| src/main/python/maverick/data/structs.py:806-820 | the king-safety test runs after the undo, and for a swapped castle target the undo leaves the king on the landing square | black king (6,5) to (6,7) with only kings on the board: makePly raises AttributeError | makePly returns isLegalMove's verdict, as data.py's does | high, not executed | BoardCases.StructsMakePlyRaises | BoardUndo.LegacyMakePlyVerdict |
| src/main/python/maverick-chess/server/TournamentSystem.py:226 | the vertical path pairs the ranks with `[fromFile] * len(path_file_values)`, an empty list | any rook move a1-a3: the path is empty, so the move is refused even over an empty a2 | `[fromFile] * len(path_rank_values)` | high, not executed | MaverickChess.VerticalSlideBlocked | MaverickChess.IntendedClearPathMeaning |
| src/main/python/maverick-chess/server/TournamentSystem.py:677 | a king move is treated as long only when `file_delta_abs != 1 and rank_delta_abs != 1` | king e1 to h2 (rank +1, file +3) passes | `file_delta_abs > 1 or rank_delta_abs > 1` | high, not executed | MaverickChess.KingAdjacentLineUnbounded | MaverickChess.IntendedKingMoveMeaning |
| src/main/python/maverick-chess/server/TournamentSystem.py:591-595 | the pawn double step checks neither the square passed over nor the destination | pawn e2-e4 over a piece on e3 passes | both squares must be empty | high, not executed | MaverickChess.PawnDoubleStepUnchecked | MaverickChess.IntendedPawnMoveMeaning |
| src/main/python/Maverick/maverick/server/TournamentSystem.py:247 | the double step compares `fromFile` with pawnStartRank 2/6 | a white pawn on c3 may step to c5; the a2 pawn may not step to a4 | compare `fromRank` with PAWN_STARTING_RANKS (1 and 6) | high, not executed | Prototype.PawnDoubleStepTestsFile | Prototype.IntendedDoubleStepFromStartRank |
| src/main/python/maverick/players/ais/analyzers/stateExpansion.py:157-158 | the king-side test asks files 6 and 7 of the home rank to be empty | with f1 and g1 empty and the rook on h1, e1-g1 is not offered although isLegalMove passes it | files 5 and 6, the squares between king and rook | high, not executed | StateExpansion.KingSideTestNeedsRookGone | StateExpansion.KingSideTestClearsRookPath |
| src/main/python/maverick/players/ais/analyzers/stateExpansion.py:211-212 | `selfKingNotInCheck` calls `isKingInCheck` on the undo dict that `getResultOfPly` returns | the a2 pawn of the default board: canMoveTo raises AttributeError | test the king on the board after the ply | high, not executed | StateExpansion.OpeningPawnRaises | StateExpansion.ReachableAgreesWithIsLegalMove |
| src/main/python/maverick/players/ais/analyzers/stateExpansion.py:191-197 | no filter drops a square holding a king, so canMoveTo offers the capture of the enemy king, which isLegalMove refuses (data.py:782-786) | a white rook on a1 and the black king on a8 with nothing between: a8 is offered, and isLegalMove(a1, a8) is false | the generator yields only what isLegalMove accepts, as the tests' `_onlyLegalMoves` expects | medium, not executed | StateExpansion.KingCaptureOffered | StateExpansion.ReachableWithoutKingsIsLegal |
| src/main/python/maverick/data/structs.py:848-849 | the undo record takes `.copy()` of the flag dictionary, which shares the per-colour lists, so isLegalMove's tried ply clears the opponent's en-passant flag for good | a white pawn on (4,4) takes en passant onto (5,3) after a black pawn's double step from (6,3) to (4,3): makePly succeeds and the black pawn on (4,3) stays | the undo record copies the lists too, and the capture takes the passed pawn off | high, not executed | BoardUndo.EnPassantCaptureLost | BoardUndo.IntendedEnPassantCapture |
