/** What the two sides agree on: the operator sends UCI move text, and the
    actuator signals it with the code table. */
module Link {
  import opened Pulse

  predicate IsFile(c: char) { 'a' <= c <= 'h' }

  predicate IsRank(c: char) { '1' <= c <= '8' }

  /** A non-promotion move in UCI notation, such as "e2e4". */
  predicate IsUciMove(m: string) {
    |m| == 4 && IsFile(m[0]) && IsRank(m[1]) && IsFile(m[2]) && IsRank(m[3])
  }

  /** Every ordinary move has a code for each of its characters, so the
      actuator signals all of it. */
  lemma UciMoveSignalled(m: string)
    requires IsUciMove(m)
    ensures AllKnown(m) && Scan(m) == Done
    ensures |Highs(Pulses(m))| > 0
    ensures Pulses(m) ==
      LetterPulses(Lookup(m[0]).value) + (LetterPulses(Lookup(m[1]).value) +
      (LetterPulses(Lookup(m[2]).value) + LetterPulses(Lookup(m[3]).value)))
  {
    forall i | 0 <= i < |m| ensures Lookup(m[i]).Some? {
      LookupDefinedIff(m[i]);
    }
    ScanIff(m);
    var code := Lookup(m[0]).value;
    CodeTableShape();
    LetterHighs(code);
    assert Pulses(m) == LetterPulses(code) + Pulses(m[1..]);
    HighsAppend(LetterPulses(code), Pulses(m[1..]));
    FourLetters(m);
  }

  /** A four-character text with a code for each character: one character's
      stretches after another. */
  lemma FourLetters(m: string)
    requires |m| == 4
    requires Lookup(m[0]).Some? && Lookup(m[1]).Some? && Lookup(m[2]).Some? && Lookup(m[3]).Some?
    ensures Pulses(m) ==
      LetterPulses(Lookup(m[0]).value) + (LetterPulses(Lookup(m[1]).value) +
      (LetterPulses(Lookup(m[2]).value) + LetterPulses(Lookup(m[3]).value)))
  {
    assert m[1..][0] == m[1] && m[2..][0] == m[2] && m[3..][0] == m[3];
    assert m[1..][1..] == m[2..] && m[2..][1..] == m[3..] && m[3..][1..] == [];
    PulsesStep(m[3..]);
    PulsesStep(m[2..]);
    PulsesStep(m[1..]);
    PulsesStep(m);
  }

  /** A promotion names its piece with a letter the table lacks: "e7e8q"
      ends the actuator's loop with a KeyError on 'Q' after signalling only
      "e7e8". */
  lemma QueenPromotionStops()
    ensures Scan("e7e8q") == KeyError(4, 'Q')
    ensures Pulses("e7e8q") == Pulses("e7e8")
  {
    assert "e7e8q" == "e7e8" + "q";
    assert AllKnown("e7e8") by {
      UciMoveSignalled("e7e8");
    }
    assert Lookup('q').None?;
    FirstUnknownAt("e7e8q", 4);
    PulsesAppend("e7e8", "q");
    assert "q"[1..] == "";
  }

  /** A bishop promotion is the one promotion the table can signal: 'b'
      normalises to the file key 'B', so "e7e8b" is signalled whole, the
      piece letter as a fifth character with the code "-...". */
  lemma BishopPromotionSignalled()
    ensures AllKnown("e7e8b") && Scan("e7e8b") == Done
    ensures Pulses("e7e8b") == Pulses("e7e8") + LetterPulses("-...")
  {
    var move, piece := "e7e8", "b";
    assert "e7e8b" == move + piece;
    UciMoveSignalled(move);
    assert Lookup('b').Some? && Lookup('b').value == "-...";
    assert AllKnown(move + piece) by {
      AllKnownAppend(move, piece);
    }
    ScanIff(move + piece);
    assert Pulses(piece) == LetterPulses("-...") by {
      PulsesStep(piece);
      assert piece[1..] == "";
    }
    PulsesAppend(move, piece);
  }

  /** The timelines of moves signalled one after another. */
  function Signalled(moves: seq<string>): seq<Event> {
    if moves == [] then [] else Pulses(moves[0]) + Signalled(moves[1..])
  }

  /** Moves sent one after another on the stream are signalled whole and in
      the order they were sent, however the stream is cut into chunks. */
  lemma {:induction false} SentMovesSignalled(moves: seq<string>)
    requires forall i :: 0 <= i < |moves| ==> IsUciMove(moves[i])
    ensures Pulses(Concat(moves)) == Signalled(moves)
    ensures AllKnown(Concat(moves))
  {
    if moves != [] {
      SentMovesSignalled(moves[1..]);
      UciMoveSignalled(moves[0]);
      PulsesAppend(moves[0], Concat(moves[1..]));
      AllKnownAppend(moves[0], Concat(moves[1..]));
    }
  }
}
