/** The operator side (chess_cheat.py): an undo stack of board positions over a
    chess engine, a legality-gated send, and the engine's suggestions as text.
    The engine is an oracle: positions are an opaque type `P`, and legality,
    the effect of a move and the start position are parameters, so every
    property below holds whatever the rules of chess are. */
module Session {
  import opened Wrappers
  import opened Strings

  /** A move as the operator types it (UCI text such as "e2e4"). */
  type Move = string

  /** What the engine decides: `is_move_correct`, the position a move leads
      to, and the position `set_position()` restores. */
  datatype Rules<!P> = Rules(legal: (P, Move) -> bool, apply: (P, Move) -> P, start: P)

  /** One line of the engine's analysis: a move and its centipawn score, the
      score already rendered by `str` (it is "None" on a mate line). */
  datatype Suggestion = Suggestion(move: Move, centipawn: string)

  /** The session state: `window.history` and the engine's current position.
      The history's last element is the top of the stack. */
  datatype Game<P> = Game(history: seq<P>, position: P)

  // ---------------------------------------------------------------------------
  // The state machine

  /** A fresh window over a fresh engine, and the state after `reset_game`. */
  function Initial<P>(rules: Rules<P>): (r: Game<P>)
    ensures r.history == [] && r.position == rules.start
    ensures Undo(r) == r
  {
    Game([], rules.start)
  }

  /** `make_move`: an accepted move pushes the position it was made from and
      moves the engine on; a rejected one changes nothing. */
  function Make<P>(rules: Rules<P>, g: Game<P>, m: Move): (r: Game<P>)
    ensures rules.legal(g.position, m) ==>
      |r.history| == |g.history| + 1 && r.history[..|g.history|] == g.history &&
      r.history[|g.history|] == g.position && r.position == rules.apply(g.position, m)
    ensures !rules.legal(g.position, m) ==> r == g
  {
    if rules.legal(g.position, m) then Game(g.history + [g.position], rules.apply(g.position, m))
    else g
  }

  /** `undo_move`: pops the top of the stack and makes it the position; on an
      empty stack nothing happens. */
  function Undo<P>(g: Game<P>): (r: Game<P>)
    ensures g.history == [] ==> r == g
    ensures g.history != [] ==> r.history + [r.position] == g.history
  {
    if g.history == [] then g
    else Game(g.history[..|g.history| - 1], g.history[|g.history| - 1])
  }

  /** The moves made one after another. */
  function MakeAll<P>(rules: Rules<P>, g: Game<P>, moves: seq<Move>): Game<P>
    decreases moves
  {
    if moves == [] then g else MakeAll(rules, Make(rules, g, moves[0]), moves[1..])
  }

  /** `n` undos one after another. */
  function UndoN<P>(g: Game<P>, n: nat): Game<P>
    decreases n
  {
    if n == 0 then g else UndoN(Undo(g), n - 1)
  }

  /** Every move is legal in the position the ones before it lead to from `p`. */
  predicate AllLegal<P>(rules: Rules<P>, p: P, moves: seq<Move>) {
    moves == [] ||
    (rules.legal(p, moves[0]) && AllLegal(rules, rules.apply(p, moves[0]), moves[1..]))
  }

  /** The positions the moves are made from, starting at `p`. */
  function Trail<P>(rules: Rules<P>, p: P, moves: seq<Move>): (ps: seq<P>)
    ensures |ps| == |moves|
    ensures moves != [] ==> ps[0] == p
  {
    if moves == [] then [] else [p] + Trail(rules, rules.apply(p, moves[0]), moves[1..])
  }

  /** The position the moves lead to from `p`. */
  function Final<P>(rules: Rules<P>, p: P, moves: seq<Move>): P {
    if moves == [] then p else Final(rules, rules.apply(p, moves[0]), moves[1..])
  }

  /** The session invariant: the state is what committing `moves`, each of
      them legal, since the last reset produced. */
  ghost predicate Committed<P>(rules: Rules<P>, g: Game<P>, moves: seq<Move>) {
    AllLegal(rules, rules.start, moves) && g == MakeAll(rules, Initial(rules), moves)
  }

  // ---------------------------------------------------------------------------
  // Properties of the state machine

  /** Undo is the inverse of an accepted move. */
  lemma UndoMake<P>(rules: Rules<P>, g: Game<P>, m: Move)
    requires rules.legal(g.position, m)
    ensures Undo(Make(rules, g, m)) == g
  {
    var r := Make(rules, g, m);
    assert r.history[..|r.history| - 1] == g.history;
  }

  lemma {:induction false} UndoNSucc<P>(g: Game<P>, n: nat)
    ensures UndoN(g, n + 1) == Undo(UndoN(g, n))
    decreases n
  {
    if n > 0 {
      UndoNSucc(Undo(g), n - 1);
    }
  }

  /** N accepted moves followed by N undos restore both the position and the
      history. */
  lemma {:induction false} MakeUndoRoundTrip<P>(rules: Rules<P>, g: Game<P>, moves: seq<Move>)
    requires AllLegal(rules, g.position, moves)
    ensures UndoN(MakeAll(rules, g, moves), |moves|) == g
    decreases moves
  {
    if moves != [] {
      var g1 := Make(rules, g, moves[0]);
      MakeUndoRoundTrip(rules, g1, moves[1..]);
      UndoNSucc(MakeAll(rules, g1, moves[1..]), |moves| - 1);
      UndoMake(rules, g, moves[0]);
    }
  }

  /** Accepted moves push exactly one snapshot each, the positions they were
      made from, in order, on top of the old stack. */
  lemma {:induction false} MakeAllHistory<P>(rules: Rules<P>, g: Game<P>, moves: seq<Move>)
    requires AllLegal(rules, g.position, moves)
    ensures MakeAll(rules, g, moves) ==
      Game(g.history + Trail(rules, g.position, moves), Final(rules, g.position, moves))
    decreases moves
  {
    if moves != [] {
      var g1 := Make(rules, g, moves[0]);
      MakeAllHistory(rules, g1, moves[1..]);
      assert g.history + Trail(rules, g.position, moves) ==
        g1.history + Trail(rules, g1.position, moves[1..]);
    }
  }

  lemma {:induction false} MakeAllSnoc<P>(rules: Rules<P>, g: Game<P>, moves: seq<Move>, m: Move)
    ensures MakeAll(rules, g, moves + [m]) == Make(rules, MakeAll(rules, g, moves), m)
    decreases moves
  {
    if moves == [] {
      assert moves + [m] == [m];
    } else {
      assert (moves + [m])[1..] == moves[1..] + [m];
      MakeAllSnoc(rules, Make(rules, g, moves[0]), moves[1..], m);
    }
  }

  lemma {:induction false} AllLegalSnoc<P>(rules: Rules<P>, p: P, moves: seq<Move>, m: Move)
    ensures AllLegal(rules, p, moves + [m]) <==>
      AllLegal(rules, p, moves) && rules.legal(Final(rules, p, moves), m)
  {
    if moves == [] {
      assert moves + [m] == [m];
      assert [m][1..] == [];
    } else {
      assert (moves + [m])[1..] == moves[1..] + [m];
      AllLegalSnoc(rules, rules.apply(p, moves[0]), moves[1..], m);
    }
  }

  /** Under the invariant, the stack holds one snapshot per committed move,
      the oldest being the start position. */
  lemma CommittedHistory<P>(rules: Rules<P>, g: Game<P>, moves: seq<Move>)
    requires Committed(rules, g, moves)
    ensures g.history == Trail(rules, rules.start, moves)
    ensures |g.history| == |moves|
    ensures moves != [] ==> g.history[0] == rules.start
    ensures g.position == Final(rules, rules.start, moves)
  {
    MakeAllHistory(rules, Initial(rules), moves);
  }

  /** A fresh session, and `reset_game` from any state, satisfy the
      invariant with nothing committed. */
  lemma InitialCommitted<P>(rules: Rules<P>)
    ensures Committed(rules, Initial(rules), [])
  {
  }

  /** `make_move` keeps the invariant: an accepted move is committed, a
      rejected one is not. */
  lemma CommittedMake<P>(rules: Rules<P>, g: Game<P>, moves: seq<Move>, m: Move)
    requires Committed(rules, g, moves)
    ensures Committed(rules, Make(rules, g, m),
                      if rules.legal(g.position, m) then moves + [m] else moves)
  {
    if rules.legal(g.position, m) {
      CommittedHistory(rules, g, moves);
      MakeAllSnoc(rules, Initial(rules), moves, m);
      AllLegalSnoc(rules, rules.start, moves, m);
    }
  }

  /** `undo_move` keeps the invariant: it takes back the last committed move,
      and with nothing committed it does nothing. */
  lemma CommittedUndo<P>(rules: Rules<P>, g: Game<P>, moves: seq<Move>)
    requires Committed(rules, g, moves)
    ensures Committed(rules, Undo(g), if moves == [] then [] else moves[..|moves| - 1])
  {
    if moves != [] {
      var init := moves[..|moves| - 1];
      var m := moves[|moves| - 1];
      assert moves == init + [m];
      AllLegalSnoc(rules, rules.start, init, m);
      MakeAllSnoc(rules, Initial(rules), init, m);
      CommittedHistory(rules, MakeAll(rules, Initial(rules), init), init);
      UndoMake(rules, MakeAll(rules, Initial(rules), init), m);
    }
  }

  // ---------------------------------------------------------------------------
  // The engine's suggestions as text

  /** The first line of the table. */
  const Header: string := "Move\tCentipawn" + "\n"

  /** One table row: the move, a tab, the score, a newline. */
  function Row(s: Suggestion): string {
    s.move + "\t" + s.centipawn + "\n"
  }

  function Rows(ss: seq<Suggestion>): string {
    if ss == [] then [] else Row(ss[0]) + Rows(ss[1..])
  }

  /** The text `get_best_moves` shows: the header, then one row per
      suggestion in the engine's order. */
  function Formatted(ss: seq<Suggestion>): (t: string)
    ensures |Header| <= |t| && t[..|Header|] == Header
    ensures ss == [] ==> t == Header
    ensures ss != [] ==>
      |t| >= |Header| + |ss[0].move| + 2 && t[|Header|..|Header| + |ss[0].move|] == ss[0].move
  {
    Header + Rows(ss)
  }

  /** A suggestion whose fields cannot be confused with the table's
      separators (UCI moves and rendered integers never can). */
  predicate Plain(s: Suggestion) {
    '\t' !in s.move && '\n' !in s.move && '\n' !in s.centipawn
  }

  /** The text before the first `sep` and the text after it. */
  function SplitAt(s: string, sep: char): (r: Option<(string, string)>)
    ensures r.Some? <==> sep in s
    ensures r.Some? ==> s == r.value.0 + [sep] + r.value.1 && sep !in r.value.0
  {
    if s == [] then None
    else if s[0] == sep then Some(([], s[1..]))
    else match SplitAt(s[1..], sep)
      case None => None
      case Some(parts) => Some(([s[0]] + parts.0, parts.1))
  }

  /** Reads table rows back: a move up to a tab, a score up to a newline. */
  function ParseRows(t: string): Option<seq<Suggestion>>
    decreases |t|
  {
    if t == [] then Some([])
    else match SplitAt(t, '\t')
      case None => None
      case Some(first) =>
        match SplitAt(first.1, '\n')
        case None => None
        case Some(second) =>
          match ParseRows(second.1)
          case None => None
          case Some(rest) => Some([Suggestion(first.0, second.0)] + rest)
  }

  /** Reads the whole table back. */
  function ParseTable(t: string): Option<seq<Suggestion>> {
    if |t| >= |Header| && t[..|Header|] == Header then ParseRows(t[|Header|..]) else None
  }

  lemma {:induction false} SplitAtFirst(a: string, sep: char, b: string)
    requires sep !in a
    ensures SplitAt(a + [sep] + b, sep) == Some((a, b))
  {
    if a == [] {
      assert a + [sep] + b == [sep] + b;
    } else {
      assert a[0] != sep && sep !in a[1..];
      assert (a + [sep] + b)[0] == a[0];
      assert (a + [sep] + b)[1..] == a[1..] + [sep] + b;
      SplitAtFirst(a[1..], sep, b);
      assert [a[0]] + a[1..] == a;
    }
  }

  /** The rows read back as the suggestions they were made from. */
  lemma {:induction false} ParseRowsRoundTrip(ss: seq<Suggestion>)
    requires forall i :: 0 <= i < |ss| ==> Plain(ss[i])
    ensures ParseRows(Rows(ss)) == Some(ss)
  {
    if ss != [] {
      var s := ss[0];
      var rest := Rows(ss[1..]);
      var after := s.centipawn + ['\n'] + rest;
      assert Rows(ss) == s.move + ['\t'] + after;
      SplitAtFirst(s.move, '\t', after);
      SplitAtFirst(s.centipawn, '\n', rest);
      ParseRowsRoundTrip(ss[1..]);
      assert SplitAt(Rows(ss), '\t') == Some((s.move, after));
      assert SplitAt(after, '\n') == Some((s.centipawn, rest));
      assert ss == [s] + ss[1..];
    }
  }

  /** The table text determines the suggestions: reading it back gives them
      all, in the engine's order. */
  lemma FormattedRoundTrip(ss: seq<Suggestion>)
    requires forall i :: 0 <= i < |ss| ==> Plain(ss[i])
    ensures ParseTable(Formatted(ss)) == Some(ss)
  {
    assert Formatted(ss)[..|Header|] == Header;
    assert Formatted(ss)[|Header|..] == Rows(ss);
    ParseRowsRoundTrip(ss);
  }

  /** The table has one line for the header and one per suggestion. */
  lemma {:induction false} FormattedLines(ss: seq<Suggestion>)
    requires forall i :: 0 <= i < |ss| ==> Plain(ss[i])
    ensures Count(Formatted(ss), '\n') == |ss| + 1
  {
    CountAppend(Header, Rows(ss), '\n');
    HeaderLines();
    RowsLines(ss);
  }

  /** The header is one line. */
  lemma HeaderLines()
    ensures Count(Header, '\n') == 1
  {
    var a, b, c := "Move", "\t", "Centipawn";
    assert Header == a + b + c + "\n";
    CountAbsent(a, '\n');
    CountAbsent(b, '\n');
    CountAbsent(c, '\n');
    assert Count("\n", '\n') == 1 by {
      assert "\n"[1..] == [];
    }
    CountAppend(a, b, '\n');
    CountAppend(a + b, c, '\n');
    CountAppend(a + b + c, "\n", '\n');
  }


  lemma {:induction false} RowsLines(ss: seq<Suggestion>)
    requires forall i :: 0 <= i < |ss| ==> Plain(ss[i])
    ensures Count(Rows(ss), '\n') == |ss|
  {
    if ss != [] {
      var s := ss[0];
      RowsLines(ss[1..]);
      CountAppend(s.move + "\t" + s.centipawn, "\n", '\n');
      CountAppend(s.move + "\t", s.centipawn, '\n');
      CountAppend(s.move, "\t", '\n');
      CountAbsent(s.move, '\n');
      CountAbsent(s.centipawn, '\n');
      CountAppend(Row(s), Rows(ss[1..]), '\n');
    }
  }

  lemma {:induction false} RowsSnoc(ss: seq<Suggestion>, s: Suggestion)
    ensures Rows(ss + [s]) == Rows(ss) + Row(s)
  {
    if ss == [] {
      assert ss + [s] == [s];
      assert [s][1..] == [];
    } else {
      assert (ss + [s])[1..] == ss[1..] + [s];
      RowsSnoc(ss[1..], s);
    }
  }

  // ---------------------------------------------------------------------------
  // The objects the source updates in place

  /** The Stockfish engine: rules as an oracle, the current position as state. */
  class Fish<P> {
    const rules: Rules<P>
    /** The engine's ranked analysis lines for a position, best first. */
    const analysis: P -> seq<Suggestion>
    var position: P

    /** A new engine stands at the start position. */
    constructor (rules: Rules<P>, analysis: P -> seq<Suggestion>)
      ensures this.rules == rules && this.analysis == analysis
      ensures position == rules.start
    {
      this.rules := rules;
      this.analysis := analysis;
      position := rules.start;
    }

    /** `is_move_correct` */
    predicate IsMoveCorrect(m: Move)
      reads this
    {
      rules.legal(position, m)
    }

    /** `get_fen_position`: the snapshot of the current position. */
    function GetFenPosition(): P
      reads this
    {
      position
    }

    /** `set_fen_position` */
    method SetFenPosition(fen: P)
      modifies this
      ensures position == fen
    {
      position := fen;
    }

    /** `make_moves_from_current_position` with one move, which the engine
        only accepts when it is legal. */
    method MakeMovesFromCurrentPosition(m: Move)
      requires IsMoveCorrect(m)
      modifies this
      ensures position == rules.apply(old(position), m)
    {
      position := rules.apply(position, m);
    }

    /** `set_position()` with no moves: back to the start position. */
    method SetPosition()
      modifies this
      ensures position == rules.start
    {
      position := rules.start;
    }

    /** `get_top_moves(n)`: the engine's best `n` lines, fewer when it has
        fewer. */
    function GetTopMoves(n: nat): (r: seq<Suggestion>)
      reads this
      ensures |r| <= n
      ensures r <= analysis(position)
      ensures |r| == n || r == analysis(position)
    {
      var lines := analysis(position);
      if |lines| <= n then lines else lines[..n]
    }
  }

  /** The window's `history` deque. */
  class Window<P> {
    var history: seq<P>

    constructor ()
      ensures history == []
    {
      history := [];
    }

    /** `history.append` */
    method Append(x: P)
      modifies this
      ensures history == old(history) + [x]
    {
      history := history + [x];
    }

    /** `history.pop`: removes and returns the last element. */
    method Pop() returns (x: P)
      requires history != []
      modifies this
      ensures history + [x] == old(history)
    {
      x := history[|history| - 1];
      history := history[..|history| - 1];
    }

    /** `history.clear` */
    method Clear()
      modifies this
      ensures history == []
    {
      history := [];
    }
  }

  /** The socket to the actuator, as the stream of everything sent on it. */
  class Connection {
    var sent: seq<char>

    constructor ()
      ensures sent == []
    {
      sent := [];
    }

    /** `socket.send`: the bytes go out after everything sent before. */
    method Send(bytes: seq<char>)
      modifies this
      ensures sent == old(sent) + bytes
    {
      sent := sent + bytes;
    }
  }

  // ---------------------------------------------------------------------------
  // The button handlers

  /** `make_move`: only the stack and the engine change; nothing is sent. */
  method MakeMove<P>(window: Window<P>, fish: Fish<P>, move: Move)
    modifies window, fish
    ensures Game(window.history, fish.position) ==
      Make(fish.rules, old(Game(window.history, fish.position)), move)
  {
    if fish.IsMoveCorrect(move) {
      window.Append(fish.GetFenPosition());
      fish.MakeMovesFromCurrentPosition(move);
    }
  }

  /** `undo_move` */
  method UndoMove<P>(window: Window<P>, fish: Fish<P>)
    modifies window, fish
    ensures Game(window.history, fish.position) == Undo(old(Game(window.history, fish.position)))
  {
    if window.history != [] {
      var fen := window.Pop();
      fish.SetFenPosition(fen);
    }
  }

  /** `reset_game`: whatever the prior state, an empty stack at the start
      position. */
  method ResetGame<P>(window: Window<P>, fish: Fish<P>)
    modifies window, fish
    ensures Game(window.history, fish.position) == Initial(fish.rules)
  {
    fish.SetPosition();
    window.Clear();
  }

  /** `send_move`: a legal move goes out on the socket, an illegal one does
      not; the stack and the engine are not touched, and nothing checks that
      the connection is up. */
  method SendMove<P>(connection: Connection, fish: Fish<P>, move: Move)
    modifies connection
    ensures connection.sent ==
      old(connection.sent) + (if fish.rules.legal(fish.position, move) then move else [])
  {
    if fish.IsMoveCorrect(move) {
      connection.Send(move);
    }
  }

  /** `get_best_moves`: the header and one row per line of the engine's best
      three, built up with `+=`. */
  method GetBestMoves<P>(fish: Fish<P>) returns (formatted: string)
    ensures formatted == Formatted(fish.GetTopMoves(3))
  {
    var best := fish.GetTopMoves(3);
    formatted := Header;
    for k := 0 to |best|
      invariant formatted == Header + Rows(best[..k])
    {
      var v := best[k];
      assert best[..k + 1] == best[..k] + [v];
      RowsSnoc(best[..k], v);
      formatted := formatted + v.move + "\t" + v.centipawn + "\n";
    }
    assert best[..|best|] == best;
  }

  /** N moves made with the Make Move button and then taken back with N
      presses of Undo leave the stack and the board as they were. */
  method PlayAndTakeBack<P>(window: Window<P>, fish: Fish<P>, moves: seq<Move>)
    requires AllLegal(fish.rules, fish.position, moves)
    modifies window, fish
    ensures window.history == old(window.history) && fish.position == old(fish.position)
  {
    ghost var g0 := Game(window.history, fish.position);
    var i := 0;
    while i < |moves|
      invariant 0 <= i <= |moves|
      invariant Game(window.history, fish.position) == MakeAll(fish.rules, g0, moves[..i])
    {
      MakeMove(window, fish, moves[i]);
      assert moves[..i + 1] == moves[..i] + [moves[i]];
      MakeAllSnoc(fish.rules, g0, moves[..i], moves[i]);
      i := i + 1;
    }
    assert moves[..i] == moves;
    ghost var top := Game(window.history, fish.position);
    var j := 0;
    while j < |moves|
      invariant 0 <= j <= |moves|
      invariant Game(window.history, fish.position) == UndoN(top, j)
    {
      UndoMove(window, fish);
      UndoNSucc(top, j);
      j := j + 1;
    }
    MakeUndoRoundTrip(fish.rules, g0, moves);
  }
}
