# Chess move signalling link, modelled in Dafny

The system has two small programs. An operator's program (`chess_cheat.py`)
keeps an undo stack of board positions over a chess engine. It checks moves
for legality, formats the engine's suggestions and sends moves over a socket.
An actuator program (`server.py`) reads that text and turns each character
into Morse-style pulses on a GPIO pin. Each character is looked up in a fixed
table of dots and dashes that covers the chess files `A`–`H` and the ranks
`1`–`8`.

The model has four modules:

- `Pulse` (`pulse.dfy`, for `server.py`) holds the code table and `try_upper`.
  It defines `Pulses(s)`, the pure timeline of (level, milliseconds)
  stretches that a text produces. The class `Pin` holds the pin level and the
  trace of stretches recorded so far. Its `Dot`, `Dash`, `Transcode` (the
  nested loop over one chunk) and `Serve` (the loop over received chunks)
  change that state step by step, and each is proved to append exactly what
  the pure function says.
- `Session` (`session.dfy`, for `chess_cheat.py`) treats the engine as an
  oracle. Positions have an opaque type `P`. Legality, the effect of a move
  and the start position are parameters (`Rules`), so every property holds
  whatever the rules of chess are. The classes `Fish` (the engine's current
  position), `Window` (the `history` deque) and `Connection` (the bytes sent)
  are changed in place by `MakeMove`, `UndoMove`, `ResetGame` and `SendMove`.
  The engine's `is_move_correct` and `get_fen_position` are plain reads of
  that oracle (`Fish.IsMoveCorrect`, `Fish.GetFenPosition`) with no contract
  of their own; the handlers that call them state what they mean.
  `MakeMove`, `UndoMove` and `ResetGame` are each proved equal to a pure
  transition (`Make`, `Undo`, `Initial`). `SendMove` only appends to the
  connection's outgoing bytes, and only for a legal move. `GetBestMoves`
  builds the suggestion table with `+=` and is proved equal to `Formatted`.
  When no move contains a tab or newline and no score a newline, as holds
  for UCI moves and rendered scores, the table is proved to parse back into
  the engine's suggestions.
- `Link` (`link.dfy`) relates the two sides. Every ordinary UCI move such as
  `e2e4` is fully signalled. A queen, rook or knight promotion such as
  `e7e8q` stops the actuator's loop at the piece letter, because `q`, `r`
  and `n` have no code. A bishop promotion `e7e8b` is signalled whole: `b`
  normalises to the file key `B`, so the piece is sent as a fifth character
  with the code `-...`.
- `Strings` and `Wrappers` hold character counting and `Option`.

Where the code departs from the intended design, the model follows the
code:

- A character with no code is not skipped. `CODE[...]` raises `KeyError`,
  which ends the loop. Everything before that character has already been
  signalled, and nothing at or after it is.
- `make_move` transmits nothing. `send_move` checks legality but does not
  check the connection, has no rollback, and never touches the history or
  the position.
- There is no connection state machine beyond the start-up retry loop.
- After the peer closes, `recv` keeps returning empty data and the loop never
  ends. The model takes the chunks received so far as a finite sequence.

## Model

| member | source | states |
|---|---|---|
| `Pulse.TryUpper` | server.py:42-46 | A digit is returned unchanged. Every result is free of lower-case letters. The result equals the input exactly when the input is not lower-case. A lower-case letter maps to its upper-case form. |
| `Pulse.TryUpperIdempotent` | server.py:42-46 | Normalising twice gives the same result as normalising once. |
| `Pulse.CodeTableShape` | server.py:9-25 | The table's keys are exactly `1`–`8` and `A`–`H`. Every code is a non-empty string of `.` and `-`. Every digit's code has five symbols. |
| `Pulse.Lookup` | server.py:61 | `CODE[try_upper(c)]`: a code exists exactly when the normalised character is one of the table's keys `1`–`8` or `A`–`H`. Otherwise the result is the `KeyError` case. |
| `Pulse.SymbolPulses` | server.py:62-67 | One code symbol's stretches. A `.` or `-` raises the pin exactly once, in its first stretch, and that stretch lasts 500 ms exactly for `-`; every later stretch is low. Any other symbol is a single 500 ms low hold. |
| `Pulse.Pulses` | server.py:60-68 | The timeline of one text, character by character up to the first character with no code. It is empty exactly when the text is empty or starts with such a character. |
| `Pulse.Scan` | server.py:60-61 | How the loop over a text ends. On a `KeyError`, the reported index holds a character with no code, every character before it has one, and the key is that character normalised. |
| `Pulse.Pin.Output` | server.py:28-39 | `GPIO.output` in `dot` and `dash` sets the pin level and records nothing. |
| `Pulse.Pin.Sleep` | server.py:28-39 | `time.sleep` in `dot` and `dash`, and the holds at lines 67 and 68, keeps the level and records one stretch at that level for the given milliseconds. |
| `Pulse.PulsesEndWithGap` | server.py:68 | Any timeline that emitted something ends with a character's 500 ms low gap, so the pin rests low between texts. |
| `Pulse.StreamScan` | server.py:57-61 | When everything before a chunk has a code and the chunk has a character without one, the stream fails at that character. Its stream index is the chunk's own index plus the length of the text before the chunk. |
| `Pulse.LookupDefinedIff` | server.py:61 | The lookup succeeds exactly for `1`–`8`, `A`–`H` and `a`–`h`. |
| `Pulse.LookupNormalised` | server.py:61 | Looking up a character gives the same result as looking up its normalised form. |
| `Pulse.PulsesCaseInsensitive` | server.py:61 | A text and its normalised form produce the same timeline, so a lower-case letter signals like its upper-case form. |
| `Pulse.Pin.constructor` | server.py:49-50 | The configured output pin starts low with nothing emitted. |
| `Pulse.Pin.Dot` | server.py:28-32 | Appends 200 ms high then 200 ms low, and leaves the pin low. |
| `Pulse.Pin.Dash` | server.py:35-39 | Appends 500 ms high then 200 ms low, and leaves the pin low. |
| `Pulse.Pin.EmitCode` | server.py:61-67 | The symbol loop appends exactly `CodePulses(code)`: a dash for `-`, a dot for `.`, and a 500 ms low hold for any other symbol. The pin stays low. |
| `Pulse.Pin.Transcode` | server.py:60-68 | The character loop over one chunk appends exactly `Pulses(data)` and returns `Scan(data)`. That is either a clean finish, or a `KeyError` naming the normalised key and the index of the first character without a code. |
| `Pulse.Pin.Serve` | server.py:57-68 | Processing the received chunks in order appends `Pulses` of their concatenation, so chunk boundaries do not matter. It reports a clean finish exactly when every character of the stream has a code. On a `KeyError`, the key is the stream's first unknown character, normalised. The index is the one reported for the failing chunk, which locates that character in the stream once offset by the text before the chunk. |
| `Pulse.FirstUnknown` | server.py:60-61 | Returns the index of the first character with no code, or the text's length if there is none. Every character before that index has a code. |
| `Pulse.ScanIff` | server.py:60-61 | The loop finishes cleanly exactly when every character has a code. Otherwise it fails at the first character without one, and the error carries its normalised key. |
| `Pulse.CodePulsesShape` | server.py:61-65 | A dot/dash code of n symbols gives 2n stretches. Stretch `2i` is high for 500 ms on a dash and for 200 ms on a dot. Stretch `2i+1` is 200 ms low. |
| `Pulse.LetterPulsesShape` | server.py:61-68 | A character's stretches are its symbol pulses followed by exactly one extra 500 ms low gap. |
| `Pulse.LetterHighs` | server.py:61-65 | A character raises the pin exactly once per symbol of its code. Its i-th high stretch lasts 500 ms exactly when the i-th symbol is `-`. |
| `Pulse.CodeDuration` | server.py:61-67 | A code string takes 400 ms per dot, 700 ms per dash and 500 ms per any other symbol. |
| `Pulse.KnownLetterDuration` | server.py:61-68 | A character with a code takes 400·#dots + 700·#dashes + 500 ms, because no table code has a separator symbol. |
| `Pulse.PulsesAppend` | server.py:60-68 | Transcoding follows input order. If every character of `s` has a code, the timeline of `s + t` is the timeline of `s` followed by that of `t`. |
| `Pulse.PulsesEmpty` | server.py:60 | An empty text emits nothing. |
| `Pulse.PulsesHalt` | server.py:61 | Once `s` contains a character with no code, appending text after `s` emits nothing more. |
| `Pulse.PulsesUpToFirstUnknown` | server.py:60-61 | The timeline is exactly that of the text before the first character with no code. |
| `Pulse.StopAt` | server.py:61 | If the character at index `i` is the first with no code, the loop fails there and has emitted only the prefix before it. |
| `Pulse.PulsesA1` | server.py:9-25 | The text `"A1"` gives the exact pulse sequence for `.-`, a gap, then `.----` and a gap. |
| `Pulse.ScanUnknownExample` | server.py:61 | `"1x2"` fails at index 1 on key `X` and signals only the `1`. |
| `Session.Initial` | chess_cheat.py:161-164 | A fresh or reset session has an empty history and the start position, and undo leaves it unchanged. |
| `Session.Make` | chess_cheat.py:73-77 | A legal move grows the history by exactly one and keeps the old entries. The new top is the position before the move, and the position becomes `apply(old, move)`. An illegal move changes nothing. |
| `Session.Undo` | chess_cheat.py:56-59 | On an empty history nothing changes. Otherwise the new history followed by the new position equals the old history: only the top is removed, and it becomes the position. |
| `Session.UndoMake` | chess_cheat.py:56-59 | Undo reverses an accepted move, restoring both the history and the position. |
| `Session.MakeUndoRoundTrip` | chess_cheat.py:56-77 | N legal moves followed by N undos restore the original position and history. |
| `Session.MakeAllHistory` | chess_cheat.py:76 | Legal moves push exactly one snapshot each on top of the old stack. Each snapshot is the position the move was made from, in order. |
| `Session.CommittedHistory` | chess_cheat.py:76 | Under the session invariant, the stack is exactly the trail of positions the committed moves were made from, starting at the start position. There is one snapshot per move committed since the last reset, and the position is where those moves lead. |
| `Session.InitialCommitted` | chess_cheat.py:161-164 | The state after a reset satisfies the invariant with no moves committed. |
| `Session.CommittedMake` | chess_cheat.py:73-77 | `make_move` preserves the invariant: a legal move is added to the committed moves and an illegal one is not. |
| `Session.CommittedUndo` | chess_cheat.py:56-59 | `undo_move` preserves the invariant by taking back the last committed move. With nothing committed it does nothing. |
| `Session.MakeMove` | chess_cheat.py:73-77 | The history and position change exactly as `Make` says: the engine's legality check (line 75) gates the push of its position snapshot (line 76) and the move. Only the window and the engine are modified, so nothing is sent. |
| `Session.UndoMove` | chess_cheat.py:56-60 | The history and position change exactly as `Undo` says. |
| `Session.ResetGame` | chess_cheat.py:161-165 | Whatever the prior state, the history is empty and the position is the start position. |
| `Session.SendMove` | chess_cheat.py:63-70 | The move is appended to the outgoing stream exactly when the engine's legality check (line 65) accepts it in the current position, and nothing is sent otherwise. Only the connection is modified, so the history and the position never change. |
| `Session.GetBestMoves` | chess_cheat.py:27-31 | The `+=` loop builds exactly `Formatted(GetTopMoves(3))`. |
| `Session.Formatted` | chess_cheat.py:29-31 | The table starts with the header, is the header alone when the engine has no suggestions, and otherwise continues with the first suggestion's move. |
| `Session.FormattedRoundTrip` | chess_cheat.py:28-31 | The table is the header followed by one `move\tscore\n` row per suggestion, in the engine's order. When no move contains a tab or newline and no score a newline, which holds for UCI moves and rendered integer or `None` scores, reading the table back returns those suggestions. |
| `Session.FormattedLines` | chess_cheat.py:28-31 | The table has one line for the header and one per suggestion. |
| `Session.ParseRowsRoundTrip` | chess_cheat.py:30-31 | The rows read back as the suggestions they were built from. |
| `Session.Fish.GetTopMoves` | chess_cheat.py:28 | Returns at most `n` lines, as a prefix of the engine's ranking. It returns all of them when the engine has fewer than `n`. |
| `Session.Fish.SetFenPosition` | chess_cheat.py:59 | The engine's position becomes the given snapshot. |
| `Session.Fish.MakeMovesFromCurrentPosition` | chess_cheat.py:77 | The position becomes `apply(old, move)` for a legal move. |
| `Session.Fish.SetPosition` | chess_cheat.py:162 | The position becomes the start position. |
| `Session.Window.constructor` | chess_cheat.py:119 | The history starts empty. |
| `Session.Window.Append` | chess_cheat.py:76 | Appends on the right, which is the top of the stack. |
| `Session.Window.Pop` | chess_cheat.py:58 | Removes and returns the rightmost entry. |
| `Session.Window.Clear` | chess_cheat.py:164 | Empties the history. |
| `Session.Connection.Send` | chess_cheat.py:68 | The bytes are appended after everything sent before. |
| `Session.PlayAndTakeBack` | chess_cheat.py:56-77 | Running N legal Make Move handlers and then N Undo handlers leaves the window's history and the engine's position as they were. |
| `Link.UciMoveSignalled` | server.py:9-25 | Every non-promotion UCI move (file, rank, file, rank) has a code for each character and finishes cleanly. Its timeline is exactly its four characters' stretches in order, each with its gap. |
| `Link.QueenPromotionStops` | server.py:61 | `"e7e8q"` ends the loop with a `KeyError` on `Q` after signalling only `"e7e8"`. |
| `Link.BishopPromotionSignalled` | server.py:18 | `"e7e8b"` is signalled whole: the timeline of `"e7e8"` followed by the code `-...` of `B` and its gap. |
| `Link.SentMovesSignalled` | server.py:57-68 | Ordinary moves sent one after another are signalled whole and in the order they were sent. |

## Left out

- Sockets are not modelled. This covers `setup_socket`, the unbounded 5-second retry loop in `attempt_pi_connection`, `bind`/`listen`/`accept`/`close` and `on_closing`; they are network I/O. Sending is modelled only as appending to `Connection.sent`.
- Session.Connection.Send: does not model a partial `socket.send`, which may transmit fewer bytes than asked. Every send is taken as delivered whole.
- ASCII decoding is not modelled: input is an already-decoded string, so a `UnicodeDecodeError` on non-ASCII bytes is not represented. The 1024-byte `recv` limit is not modelled either; chunk boundaries are arbitrary, and `Pin.Serve` shows they do not matter.
- Pulse.TryUpper: models ASCII upper-casing and ASCII digits only, because text reaches the loop ASCII-decoded.
- `print(data)` is output only.
- GPIO setup and wall-clock timing are not modelled. The pin is assumed low after `GPIO.setup`, `time.sleep` is an exact integer-millisecond stretch, and scheduling jitter is left out.
- Stockfish internals are not modelled. This covers move legality, evaluation, FEN contents, `create_fish` and `set_depth`. A FEN snapshot is an opaque position `P`, and the `send_ucinewgame_token` argument of `set_fen_position` is not modelled. Centipawn scores arrive already rendered by `str`.
- Session.Fish.MakeMovesFromCurrentPosition: requires a legal move, because the source only calls it after `is_move_correct`. The engine's error on an illegal move is not modelled.
- The UI is not modelled. This covers the Tk window, the status-label texts and entry clearing in `send_move`, `clear_text`, `flip_board`, `display_board` and `init_window`'s widgets. `get_best_moves` writing its text into the widget is also left out; `GetBestMoves` returns the text instead.
- `main` and module-level setup are wiring only.
