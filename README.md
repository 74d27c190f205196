# Chess playground: the `ChessGame` turn controller

This project models the turn-taking logic of the chess playground's
`ChessGame` component. The component accepts drag-and-drop moves from the
human player. It checks them against the chess.js rules library, applies
them and derives the status line. It then asks a Stockfish worker for a
reply over the UCI text protocol and applies the reply it parses.

The rules library becomes an abstract oracle (`Rules.Oracle`). Its
functions have no properties beyond their types: legal destinations from a
square, the piece on a square, applying a move, checkmate, stalemate,
check, side to move, FEN and the initial position. Positions have an
opaque type parameter `P`. A position is what a FEN string (section 16.1 of
the PGN Standard) encodes, but the model never looks inside one.

Modules:

- `Wrappers`: `Option`.
- `JsString`: the ECMAScript string built-ins the handler uses.
  `split(' ')` keeps empty fields between consecutive spaces.
  `substring` clamps its indices. Indices count Unicode scalar values
  rather than UTF-16 code units (see "## Left out").
- `Uci`: parsing the engine's `bestmove` line, and the `position fen` and
  `go depth` commands.
- `Rules`: the oracle, the promotion test and the status deriver.
- `Playground`: class `ChessGame`, with one field for each piece of
  component state (`position`, `status`, `gameOver`, `aiThinking`) and an
  `outbox` holding every message posted to the engine. Its methods are the
  component's handlers. Each handler is written step by step as in the
  component and is proved against the pure functions of `Uci` and `Rules`.

Three behaviours are kept as in the component:

- `onPieceDrop` tests only `gameOver`. The thinking flag locks the board
  only through `arePiecesDraggable`, which `BoardDrop` models.
- After a human move that ends the game, `isAiThinking` is still true and
  the engine request is still posted.
- The legality test compares only the destination square and never the
  promotion piece.

The component as written is looser than a strict turn controller, and the
model keeps it so:

- Human moves are not refused while the engine thinks; only the board's
  drag flag stops them.
- The thinking flag is not cleared when a human move ends the game.
- Reset does not clear the thinking flag.
- The engine token is sliced with clamping `substring`, whatever its
  length.

## Model

| member | source | states |
|---|---|---|
| `JsString.Split` | src/ChessGame.js:29 | `split(' ')` always gives at least one field, so only the second field can be missing |
| `JsString.StartsWith` | src/ChessGame.js:28 | `startsWith` is a prefix test: it holds exactly when the line is the prefix followed by some rest (so `bestmoves …` passes as well) |
| `JsString.SplitJoin` | src/ChessGame.js:29 | joining the fields with the separator gives back the line, and no field contains a space |
| `JsString.Substring` | src/ChessGame.js:34-35 | JavaScript `substring`: an in-range slice is `s[start..end]`; past the end it is clamped to the tail; never longer than `s` |
| `Uci.MoveToken` | src/ChessGame.js:28-32 | a move token is found only on a line starting with `bestmove`; it is the second space-separated field, and a `bestmove` line whose second field is neither empty nor `(none)` always yields that field; it is never empty, never `(none)` and contains no space |
| `Uci.SliceMove` | src/ChessGame.js:34-36 | for a token of 4 or more characters, from is `token[0..2]` and to is `token[2..4]`; a 3-character token gives `token[0..2]` and `token[2..3]`; a token of 2 or fewer characters gives the whole token as from and an empty to; there is a promotion letter exactly when the token is longer than 4, and it is `token[4]` |
| `Uci.ParseBestMove` | src/ChessGame.js:28-36 | there is no move exactly when there is no token; otherwise the move is the slicing of the token |
| `Uci.SecondField` | src/ChessGame.js:29 | the second field is the text between the first space and the next space or the end of the line |
| `Uci.MoveTextRoundTrip` | src/ChessGame.js:34-36 | slicing the text of a coordinate move (two 2-character squares and an optional letter) gives the move back |
| `Uci.TokenRoundTrip` | src/ChessGame.js:34-36 | a 4- or 5-character token is exactly from + to + promotion letter of its slicing |
| `Uci.BestMoveLine` | src/ChessGame.js:28-36 | `bestmove <move>` followed by nothing or by further fields (`ponder …`) parses to exactly that move |
| `Uci.NoMoveLine` | src/ChessGame.js:32 | `bestmove (none)` and a bare `bestmove` carry no move |
| `Uci.PositionCommand` | src/ChessGame.js:104 | the command starts with `position fen ` and the rest of it is the FEN |
| `Rules.PromotionOnOpponentBackRank` | src/ChessGame.js:83-88 | the promotion test holds exactly for a pawn landing on its opponent's back rank (rank 8 for white, rank 1 for black) |
| `Rules.IsPromotion` | src/ChessGame.js:84-88 | only a pawn can promote; for a pawn on a target of at least two characters the test is rank `'8'` for white and `'1'` for black; a target shorter than two characters (`targetSquare[1]` undefined) matches neither |
| `Rules.PromotionFor` | src/ChessGame.js:83-95 | the promotion passed to the move is a queen when the promotion test holds and nothing otherwise; no other piece is ever passed |
| `Rules.StatusOf` | src/ChessGame.js:119-141 | checkmate wins over everything and the winner is the side not to move; stalemate only when there is no mate; check only when there is neither; otherwise "to move" for the side to move; terminal exactly for mate or stalemate |
| `Rules.SideName` | src/ChessGame.js:122 | the `turn() === 'w' ? … : …` names: five letters, `"White"` exactly for white, otherwise `"Black"` |
| `Rules.StatusText` | src/ChessGame.js:121-138 | the four status strings; the text marks a finished game exactly when it is `"Stalemate!"` or begins `"Checkmate!"`; `StatusTextInjective` shows no two statuses share a text |
| `Rules.StatusTextInjective` | src/ChessGame.js:120-139 | no two statuses produce the same status text |
| `Rules.MateIsNotReportedAsCheck` | src/ChessGame.js:120-123 | a mated position shows "Checkmate! <other side> wins", never "<side> is in check", whatever the check test says |
| `Playground.ChessGame.constructor` | src/ChessGame.js:12-16 | initial position, "White to move", both flags false, nothing posted |
| `Playground.ChessGame.PiecesDraggable` | src/ChessGame.js:166 | the board's drag flag is `!aiThinking && !gameOver`: it is off while the engine thinks and once the game is over |
| `Playground.ChessGame.UpdateStatus` | src/ChessGame.js:119-141 | the status text and `gameOver` become those derived from the position; the thinking flag is cleared on a terminal status and kept otherwise; position and outbox are unchanged |
| `Playground.ChessGame.RequestEngineMove` | src/ChessGame.js:113-117 | appends exactly `position fen <fen>` and `go depth 10` |
| `Playground.ChessGame.OnPieceDrop` | src/ChessGame.js:67-109 | accepted if and only if the game is not over and the target is a legal destination from the source; a refusal changes nothing and posts nothing; an acceptance applies the move with the queen-promotion rule, shows the derived status, leaves the thinking flag true, appends exactly `position fen <new fen>` and `go depth 15`, and makes the pieces undraggable |
| `Playground.ChessGame.BoardDrop` | src/ChessGame.js:162-166 | a drop gesture succeeds if and only if the pieces are draggable and the move is legal; while the engine thinks, every gesture is refused |
| `Playground.ChessGame.OnEngineMessage` | src/ChessGame.js:26-56 | posts nothing; a line that is not `bestmove`, carries no move, or names an illegal destination changes nothing; otherwise the parsed move is applied, the derived status is shown and the thinking flag cleared |
| `Playground.ChessGame.ResetGame` | src/ChessGame.js:144-156 | initial position, `gameOver` false, "White to move"; when black moves first it raises the thinking flag and appends `position fen <fen>` and `go depth 10`; otherwise the flag and the outbox are unchanged; the shown status is the derived one exactly when the initial position is a plain "White to move" |
| `Playground.ChessGame.ResetStatusShown` | src/ChessGame.js:149 | the hard-coded reset text equals the derived status exactly when the derived status is "White to move" |
| `Playground.ChessGame.ResetGameUnlocked` | src/ChessGame.js:144-156 | the corrected reset: like `ResetGame`, but when white moves first the thinking flag is false and the pieces are draggable |
| `Playground.LockedAfterReset` | src/ChessGame.js:98-106 | a mating human move, then `bestmove (none)`, then a reset with white to move, leaves the fresh game undraggable with the thinking flag up |
| `Playground.UnlockedAfterReset` | src/ChessGame.js:144-156 | the same sequence with the corrected reset leaves the fresh game draggable |
| `Playground.HumanThenEngine` | src/ChessGame.js:38-55 | a legal human move answered by a legal engine move: the position is the two moves applied in turn, one request pair was posted, the status is derived, and the board is unlocked unless the reply ended the game |

## Findings

| source | as written | input that shows it | evidently intended | confidence | as-written member | corrected member |
|---|---|---|---|---|---|---|
| src/ChessGame.js:144-156 | `resetGame` raises `isAiThinking` when black moves first but never lowers it otherwise. A human move that ends the game leaves the flag raised (line 103), and the engine's `bestmove (none)` reply returns early (line 32) without lowering it. | The human plays a mating move. The engine answers `bestmove (none)`. The human presses Reset. The new game starts with white to move, but the pieces are not draggable and no engine request is pending. | Reset clears the thinking flag, so the human can play the fresh game | not executed | `Playground.LockedAfterReset` | `Playground.ChessGame.ResetGameUnlocked` |

## Left out

- Worker lifecycle: creating the worker, the startup `uci` and `isready` messages, and `terminate` on unmount (src/ChessGame.js:23-24, 59-64). These are asynchronous I/O. The outbox records only the messages the handlers post.
- The `engine.current` null test (src/ChessGame.js:102): the model assumes the worker exists. It is created at mount, before any drop can happen.
- `console.error` for an illegal engine move (src/ChessGame.js:45): logging only.
- The refs `pendingEngineMove` and `lastFen` (src/ChessGame.js:19-20, 30, 54, 150): they are written but never read.
- The `fen` state (src/ChessGame.js:13, 52, 98, 148): it always equals `oracle.fen(position)` after a handler runs, so it is not a separate field.
- chess.js itself: move generation, FEN, and the check, checkmate and stalemate tests are oracle functions with no contracts. `game.move` throws on a move it rejects, for example a promotion letter that does not fit the move. The oracle's `apply` is total, so that exception path is not modelled.
- React semantics: batched state updates become sequential assignments. The mount-time `onmessage` handler keeps using the first `game` object after a reset. Within `resetGame` itself, `requestEngineMove` (src/ChessGame.js:114) still reads the render's old `game`, because `setGame(newGame)` (line 147) takes effect only on the next render; so when black moves first the source posts the FEN of the game before the reset, where `ResetGame` posts the FEN of the fresh position. That branch never runs with `new Chess()`, which is white to move. The model has one authoritative position instead.
- Rendering: JSX, the status paragraph and the `Chessboard` props other than `arePiecesDraggable`. `BoardDrop` assumes the board calls `onPieceDrop` only while pieces are draggable.
- JsString: string lengths and indices count Unicode scalar values, while JavaScript's `length`, `moveStr[4]` and `substring` count UTF-16 code units. They differ only on characters outside the Basic Multilingual Plane (a token `"😀e2e4"` slices differently); UCI engine output is ASCII, so the handler never sees such text.
- The undo window, reply timeouts and stale-reply tagging: this revision of the component has none of them.
