/** The actuator side (server.py): text received from the controller is turned,
    character by character, into a timeline of the signalling pin. The pin and
    `time.sleep` are modelled as a trace of (level, duration in milliseconds)
    stretches; Pulses is the timeline a text produces, and Pin.Transcode is the
    nested loop that drives the pin step by step and is proved to produce it. */
module Pulse {
  import opened Wrappers
  import opened Strings

  /** Output level of the signalling pin. */
  datatype Level = Low | High

  /** The pin held at `level` for `ms` milliseconds. */
  datatype Event = Event(level: Level, ms: nat)

  /** How the loop over a text ended: it ran to the end of the text, or the
      dictionary lookup of the normalised character `key` at index `at` failed. */
  datatype Outcome = Done | KeyError(at: nat, key: char)

  const ShortMs: nat := 200      // high time of a dot
  const LongMs: nat := 500       // high time of a dash
  const RestMs: nat := 200       // low time after every dot or dash
  const SeparatorMs: nat := 500  // low hold for a code symbol that is neither '.' nor '-'
  const GapMs: nat := 500        // low hold after the last symbol of a character

  /** The code table: chess files and ranks to dot/dash strings. */
  const Code: map<char, string> := map[
    '1' := ".----", '2' := "..---", '3' := "...--", '4' := "....-",
    '5' := ".....", '6' := "-....", '7' := "--...", '8' := "---..",
    'A' := ".-", 'B' := "-...", 'C' := "-.-.", 'D' := "-..",
    'E' := ".", 'F' := "..-.", 'G' := "--.", 'H' := "...."
  ]

  predicate IsDigit(c: char) { '0' <= c <= '9' }

  predicate IsLower(c: char) { 'a' <= c <= 'z' }

  /** A rank '1'..'8' or an upper-case file 'A'..'H': the keys of the table. */
  predicate IsSquareKey(c: char) { '1' <= c <= '8' || 'A' <= c <= 'H' }

  /** A code string that the transcoder turns into dots and dashes only. */
  predicate IsPulseCode(code: string) {
    |code| > 0 && forall i :: 0 <= i < |code| ==> code[i] == '.' || code[i] == '-'
  }

  /** `try_upper`: digits pass through, other characters are upper-cased.
      Input arrives ASCII-decoded, so upper-casing maps 'a'..'z' to 'A'..'Z'
      and leaves every other character alone. */
  function TryUpper(c: char): (u: char)
    ensures IsDigit(c) ==> u == c
    ensures !IsLower(u)
    ensures u == c <==> !IsLower(c)
    ensures IsLower(c) ==> 'A' <= u <= 'Z' && u as int + 32 == c as int
  {
    if IsDigit(c) then c
    else if IsLower(c) then (c as int - 32) as char
    else c
  }

  /** `CODE[try_upper(c)]`: the code of `c`, or None where Python raises KeyError. */
  function Lookup(c: char): (r: Option<string>)
    ensures r.Some? <==> IsSquareKey(TryUpper(c))
  {
    var key := TryUpper(c);
    if key in Code then Some(Code[key]) else None
  }

  /** Every character of `s` has a code. */
  predicate AllKnown(s: string) {
    forall i :: 0 <= i < |s| ==> Lookup(s[i]).Some?
  }

  /** The stretches one code symbol produces: `dash()`, `dot()`, or a low hold.
      A dot or a dash raises the pin once, for 500 ms exactly on a dash; any
      symbol leaves the pin low afterwards. */
  function SymbolPulses(symbol: char): (r: seq<Event>)
    ensures |r| > 0 && r[|r| - 1].level == Low
    ensures r[0].level == High <==> symbol == '-' || symbol == '.'
    ensures r[0].level == High ==> (r[0].ms == LongMs <==> symbol == '-')
    ensures forall i :: 1 <= i < |r| ==> r[i].level == Low
    ensures r[0].level == Low ==> r == [Event(Low, SeparatorMs)]
  {
    if symbol == '-' then [Event(High, LongMs), Event(Low, RestMs)]
    else if symbol == '.' then [Event(High, ShortMs), Event(Low, RestMs)]
    else [Event(Low, SeparatorMs)]
  }

  /** The stretches of a code string, symbol by symbol. */
  function CodePulses(code: string): seq<Event> {
    if code == [] then [] else SymbolPulses(code[0]) + CodePulses(code[1..])
  }

  /** The stretches of one character with code `code`: its symbols, then the gap. */
  function LetterPulses(code: string): seq<Event> {
    CodePulses(code) + [Event(Low, GapMs)]
  }

  /** The timeline a text produces: each character's stretches in order, up to
      the first character without a code, where the loop stops. */
  function Pulses(s: string): (r: seq<Event>)
    ensures r == [] <==> s == [] || Lookup(s[0]).None?
  {
    if s == [] then []
    else match Lookup(s[0])
      case None => []
      case Some(code) => LetterPulses(code) + Pulses(s[1..])
  }

  /** Index of the first character without a code, or |s| if there is none. */
  function FirstUnknown(s: string): (k: nat)
    ensures k <= |s|
    ensures AllKnown(s[..k])
    ensures k < |s| ==> Lookup(s[k]) == None
  {
    if s == [] then 0
    else if Lookup(s[0]) == None then 0
    else
      var k := 1 + FirstUnknown(s[1..]);
      assert forall i :: 1 <= i < k ==> s[..k][i] == s[1..][..k - 1][i - 1];
      k
  }

  /** How transcoding `s` ends: cleanly, or at the first character without a
      code, reporting its index and its normalised key. */
  function Scan(s: string): (r: Outcome)
    ensures r.KeyError? ==> r.at < |s| && Lookup(s[r.at]) == None && r.key == TryUpper(s[r.at])
    ensures r.KeyError? ==> forall i :: 0 <= i < r.at ==> Lookup(s[i]).Some?
  {
    var k := FirstUnknown(s);
    if k == |s| then Done else KeyError(k, TryUpper(s[k]))
  }

  /** Total time of a timeline. */
  function Duration(events: seq<Event>): nat {
    if events == [] then 0 else events[0].ms + Duration(events[1..])
  }

  /** Durations of the high stretches of a timeline, in order. */
  function Highs(events: seq<Event>): seq<nat> {
    if events == [] then []
    else (if events[0].level == High then [events[0].ms] else []) + Highs(events[1..])
  }

  // ---------------------------------------------------------------------------
  // The code table and the normalisation

  /** The keys of the table are exactly 1-8 and A-H; every code is a non-empty
      string of dots and dashes; every digit has a five-symbol code. */
  lemma CodeTableShape()
    ensures forall k :: k in Code <==> IsSquareKey(k)
    ensures forall k :: k in Code ==> IsPulseCode(Code[k])
    ensures forall k :: k in Code && IsDigit(k) ==> |Code[k]| == 5
  {
  }

  /** Normalising twice is normalising once. */
  lemma TryUpperIdempotent(c: char)
    ensures TryUpper(TryUpper(c)) == TryUpper(c)
  {
  }

  /** A character has a code exactly when it is a rank 1-8 or a file letter in
      either case. */
  lemma LookupDefinedIff(c: char)
    ensures Lookup(c).Some? <==> IsSquareKey(c) || 'a' <= c <= 'h'
  {
    CodeTableShape();
  }

  // ---------------------------------------------------------------------------
  // One character

  lemma {:induction false} CodePulsesAppend(a: string, b: string)
    ensures CodePulses(a + b) == CodePulses(a) + CodePulses(b)
  {
    if a == [] {
      assert a + b == b;
    } else {
      assert (a + b)[1..] == a[1..] + b;
      CodePulsesAppend(a[1..], b);
    }
  }

  /** A dot/dash code becomes alternating high and low stretches: the i-th high
      stretch lasts 500 ms for a dash and 200 ms for a dot, each is followed by
      200 ms low. */
  lemma {:induction false} CodePulsesShape(code: string)
    requires forall i :: 0 <= i < |code| ==> code[i] == '.' || code[i] == '-'
    ensures |CodePulses(code)| == 2 * |code|
    ensures forall i :: 0 <= i < |code| ==>
      CodePulses(code)[2 * i] == Event(High, if code[i] == '-' then LongMs else ShortMs) &&
      CodePulses(code)[2 * i + 1] == Event(Low, RestMs)
  {
    if code != [] {
      var rest := code[1..];
      CodePulsesShape(rest);
      var first := SymbolPulses(code[0]);
      assert |first| == 2;
      assert CodePulses(code) == first + CodePulses(rest);
      forall i | 1 <= i < |code|
        ensures CodePulses(code)[2 * i] == Event(High, if code[i] == '-' then LongMs else ShortMs)
        ensures CodePulses(code)[2 * i + 1] == Event(Low, RestMs)
      {
        assert rest[i - 1] == code[i];
        assert CodePulses(code)[2 * i] == CodePulses(rest)[2 * (i - 1)];
        assert CodePulses(code)[2 * i + 1] == CodePulses(rest)[2 * (i - 1) + 1];
      }
    }
  }

  /** The full timeline of a character with a dot/dash code: 2 * |code| pulse
      stretches as above, then exactly one 500 ms low gap, and the pin is low
      at the end. */
  lemma LetterPulsesShape(code: string)
    requires forall i :: 0 <= i < |code| ==> code[i] == '.' || code[i] == '-'
    ensures |LetterPulses(code)| == 2 * |code| + 1
    ensures forall i :: 0 <= i < |code| ==>
      LetterPulses(code)[2 * i] == Event(High, if code[i] == '-' then LongMs else ShortMs) &&
      LetterPulses(code)[2 * i + 1] == Event(Low, RestMs)
    ensures LetterPulses(code)[2 * |code|] == Event(Low, GapMs)
  {
    CodePulsesShape(code);
  }

  lemma {:induction false} HighsAppend(a: seq<Event>, b: seq<Event>)
    ensures Highs(a + b) == Highs(a) + Highs(b)
  {
    if a == [] {
      assert a + b == b;
    } else {
      var h := if a[0].level == High then [a[0].ms] else [];
      assert (a + b)[0] == a[0];
      assert (a + b)[1..] == a[1..] + b;
      HighsAppend(a[1..], b);
      assert Highs(a + b) == h + (Highs(a[1..]) + Highs(b));
      assert h + (Highs(a[1..]) + Highs(b)) == (h + Highs(a[1..])) + Highs(b);
    }
  }

  /** A character with a dot/dash code raises the pin once per symbol, and the
      i-th high stretch is long exactly when the i-th symbol is a dash. */
  lemma {:induction false} LetterHighs(code: string)
    requires forall i :: 0 <= i < |code| ==> code[i] == '.' || code[i] == '-'
    ensures |Highs(LetterPulses(code))| == |code|
    ensures forall i :: 0 <= i < |code| ==>
      (Highs(LetterPulses(code))[i] == LongMs <==> code[i] == '-')
  {
    CodeHighs(code);
    HighsAppend(CodePulses(code), [Event(Low, GapMs)]);
    assert Highs([Event(Low, GapMs)]) == [];
  }

  lemma {:induction false} CodeHighs(code: string)
    requires forall i :: 0 <= i < |code| ==> code[i] == '.' || code[i] == '-'
    ensures |Highs(CodePulses(code))| == |code|
    ensures forall i :: 0 <= i < |code| ==>
      Highs(CodePulses(code))[i] == if code[i] == '-' then LongMs else ShortMs
  {
    if code != [] {
      CodeHighs(code[1..]);
      HighsAppend(SymbolPulses(code[0]), CodePulses(code[1..]));
      var head := SymbolPulses(code[0]);
      assert Highs(head) == [if code[0] == '-' then LongMs else ShortMs] by {
        assert head[1..][1..] == [];
      }
      forall i | 1 <= i < |code|
        ensures Highs(CodePulses(code))[i] == if code[i] == '-' then LongMs else ShortMs
      {
        assert code[1..][i - 1] == code[i];
      }
    }
  }

  lemma {:induction false} DurationAppend(a: seq<Event>, b: seq<Event>)
    ensures Duration(a + b) == Duration(a) + Duration(b)
  {
    if a == [] {
      assert a + b == b;
    } else {
      assert (a + b)[1..] == a[1..] + b;
      DurationAppend(a[1..], b);
    }
  }

  /** Time taken by a code string: 400 ms per dot, 700 ms per dash, 500 ms per
      any other symbol. */
  lemma {:induction false} CodeDuration(code: string)
    ensures Duration(CodePulses(code)) ==
      (ShortMs + RestMs) * Count(code, '.') + (LongMs + RestMs) * Count(code, '-')
      + SeparatorMs * (|code| - Count(code, '.') - Count(code, '-'))
    ensures Count(code, '.') + Count(code, '-') <= |code|
  {
    if code != [] {
      CodeDuration(code[1..]);
      DurationAppend(SymbolPulses(code[0]), CodePulses(code[1..]));
      var head := SymbolPulses(code[0]);
      if code[0] == '-' || code[0] == '.' {
        assert head[1..][1..] == [];
      } else {
        assert head[1..] == [];
      }
    }
  }

  /** Every code of the table is dots and dashes only, so the separator branch
      never fires and a known character takes 400 ms per dot, 700 ms per dash
      and a 500 ms gap. */
  lemma {:induction false} KnownLetterDuration(c: char)
    requires Lookup(c).Some?
    ensures var code := Lookup(c).value;
      Duration(LetterPulses(code)) == 400 * Count(code, '.') + 700 * Count(code, '-') + 500
  {
    var code := Lookup(c).value;
    CodeTableShape();
    DotsAndDashes(code);
    CodeDuration(code);
    DurationAppend(CodePulses(code), [Event(Low, GapMs)]);
  }

  lemma {:induction false} DotsAndDashes(code: string)
    requires forall i :: 0 <= i < |code| ==> code[i] == '.' || code[i] == '-'
    ensures Count(code, '.') + Count(code, '-') == |code|
  {
    if code != [] {
      DotsAndDashes(code[1..]);
    }
  }

  // ---------------------------------------------------------------------------
  // Texts

  /** Transcoding follows the input order: a fully known text followed by any
      text produces the first timeline followed by the second. */
  lemma {:induction false} PulsesAppend(s: string, t: string)
    requires AllKnown(s)
    ensures Pulses(s + t) == Pulses(s) + Pulses(t)
  {
    if s == [] {
      assert s + t == t;
    } else {
      assert (s + t)[0] == s[0];
      assert (s + t)[1..] == s[1..] + t;
      PulsesAppend(s[1..], t);
    }
  }

  /** A timeline that emitted anything ends with a character's gap, so the pin
      rests low between received texts. */
  lemma {:induction false} PulsesEndWithGap(s: string)
    ensures Pulses(s) != [] ==> Pulses(s)[|Pulses(s)| - 1] == Event(Low, GapMs)
  {
    if s != [] && Lookup(s[0]).Some? {
      PulsesEndWithGap(s[1..]);
    }
  }

  /** A text starting with a known character: that character's stretches, then
      the rest's. */
  lemma PulsesStep(s: string)
    requires s != [] && Lookup(s[0]).Some?
    ensures Pulses(s) == LetterPulses(Lookup(s[0]).value) + Pulses(s[1..])
  {
  }

  /** The empty text emits nothing. */
  lemma PulsesEmpty()
    ensures Pulses("") == []
  {
  }

  /** Once a character without a code occurs, nothing after it is emitted. */
  lemma {:induction false} PulsesHalt(s: string, t: string)
    requires !AllKnown(s)
    ensures Pulses(s + t) == Pulses(s)
  {
    assert s != [];
    assert (s + t)[0] == s[0];
    if Lookup(s[0]).Some? {
      assert (s + t)[1..] == s[1..] + t;
      assert !AllKnown(s[1..]) by {
        var i :| 0 <= i < |s| && Lookup(s[i]).None?;
        assert s[1..][i - 1] == s[i];
      }
      PulsesHalt(s[1..], t);
    }
  }

  /** Everything before the first unknown character is emitted, and nothing for
      that character or anything after it. */
  lemma PulsesUpToFirstUnknown(s: string)
    ensures Pulses(s) == Pulses(s[..FirstUnknown(s)])
  {
    var k := FirstUnknown(s);
    assert s == s[..k] + s[k..];
    PulsesAppend(s[..k], s[k..]);
    if k < |s| {
      assert s[k..][0] == s[k];
    }
  }

  /** Scan reports a failure exactly when some character has no code, and then
      names the first such character. */
  lemma ScanIff(s: string)
    ensures Scan(s) == Done <==> AllKnown(s)
    ensures Scan(s).KeyError? ==>
      var k := Scan(s).at;
      k < |s| && AllKnown(s[..k]) && Lookup(s[k]) == None && Scan(s).key == TryUpper(s[k])
  {
    var k := FirstUnknown(s);
    if k == |s| {
      assert s[..k] == s;
    }
  }

  /** A lower-case letter has the same code as its upper-case form. */
  lemma LookupNormalised(c: char)
    ensures Lookup(c) == Lookup(TryUpper(c))
  {
    TryUpperIdempotent(c);
  }

  /** Every character normalised with `try_upper`. */
  function Normalised(s: string): (r: string)
    ensures |r| == |s|
    ensures forall i :: 0 <= i < |s| ==> r[i] == TryUpper(s[i])
  {
    if s == [] then [] else [TryUpper(s[0])] + Normalised(s[1..])
  }

  /** Case does not matter: a text and its upper-cased form give the same
      timeline. */
  lemma {:induction false} PulsesCaseInsensitive(s: string)
    ensures Pulses(s) == Pulses(Normalised(s))
  {
    if s != [] {
      var n := Normalised(s);
      LookupNormalised(s[0]);
      assert n[1..] == Normalised(s[1..]);
      PulsesCaseInsensitive(s[1..]);
    }
  }

  /** The text "A1": `.-` then `.----`, each followed by the gap. */
  lemma PulsesA1()
    ensures Pulses("A1") == [
      Event(High, 200), Event(Low, 200), Event(High, 500), Event(Low, 200), Event(Low, 500),
      Event(High, 200), Event(Low, 200),
      Event(High, 500), Event(Low, 200), Event(High, 500), Event(Low, 200),
      Event(High, 500), Event(Low, 200), Event(High, 500), Event(Low, 200), Event(Low, 500)]
  {
    assert Pulses("A1") == LetterPulses(".-") + LetterPulses(".----") by {
      PulsesStep("A1");
      assert "A1"[1..] == "1";
      PulsesStep("1");
      assert "1"[1..] == [];
    }
    LetterA();
    Letter1();
  }

  lemma LetterA()
    ensures LetterPulses(".-") ==
      [Event(High, 200), Event(Low, 200), Event(High, 500), Event(Low, 200), Event(Low, 500)]
  {
    assert CodePulses("-") == SymbolPulses('-') by { assert "-"[1..] == []; }
    assert ".-"[1..] == "-";
  }

  lemma Letter1()
    ensures LetterPulses(".----") == [
      Event(High, 200), Event(Low, 200),
      Event(High, 500), Event(Low, 200), Event(High, 500), Event(Low, 200),
      Event(High, 500), Event(Low, 200), Event(High, 500), Event(Low, 200), Event(Low, 500)]
  {
    var dash := SymbolPulses('-');
    assert CodePulses("-") == dash by { assert "-"[1..] == []; }
    assert CodePulses("--") == dash + dash by { assert "--"[1..] == "-"; }
    assert CodePulses("---") == dash + (dash + dash) by { assert "---"[1..] == "--"; }
    assert CodePulses("----") == dash + (dash + (dash + dash)) by { assert "----"[1..] == "---"; }
    assert ".----"[1..] == "----";
  }


  /** Characters outside the table stop the text: lower-case 'x' fails on key
      'X', and nothing is emitted for "1x2" after the '1'. */
  lemma ScanUnknownExample()
    ensures Scan("1x2") == KeyError(1, 'X')
    ensures Pulses("1x2") == Pulses("1")
  {
    assert "1x2"[1..] == "x2";
    assert "1"[1..] == "";
  }

  /** Extending a fully known text by one known character adds that
      character's stretches. */
  lemma PulsesSnoc(s: string, c: char)
    requires AllKnown(s) && Lookup(c).Some?
    ensures AllKnown(s + [c])
    ensures Pulses(s + [c]) == Pulses(s) + LetterPulses(Lookup(c).value)
  {
    PulsesAppend(s, [c]);
    assert Pulses([c]) == LetterPulses(Lookup(c).value) by {
      assert [c][1..] == [];
    }
    AllKnownAppend(s, [c]);
  }

  /** The first unknown character is the one after a fully known prefix. */
  lemma FirstUnknownAt(s: string, i: nat)
    requires i < |s| && AllKnown(s[..i]) && Lookup(s[i]) == None
    ensures FirstUnknown(s) == i
  {
    var k := FirstUnknown(s);
    assert forall j :: 0 <= j < i ==> s[..i][j] == s[j];
    assert forall j :: 0 <= j < k ==> s[..k][j] == s[j];
  }

  /** One more known character: its stretches follow what was emitted. */
  lemma NextLetter(before: seq<Event>, s: string, i: nat)
    requires i < |s| && AllKnown(s[..i]) && Lookup(s[i]).Some?
    ensures AllKnown(s[..i + 1])
    ensures before + Pulses(s[..i]) + LetterPulses(Lookup(s[i]).value) == before + Pulses(s[..i + 1])
  {
    var prefix, c := s[..i], s[i];
    assert s[..i + 1] == prefix + [c];
    PulsesSnoc(prefix, c);
    AppendAssoc(before, Pulses(prefix), LetterPulses(Lookup(c).value));
  }

  /** The character at `i` is the first without a code: the loop reports it
      and has emitted the prefix before it, and nothing more. */
  lemma StopAt(s: string, i: nat)
    requires i < |s| && AllKnown(s[..i]) && Lookup(s[i]).None?
    ensures Scan(s) == KeyError(i, TryUpper(s[i]))
    ensures Pulses(s) == Pulses(s[..i])
  {
    FirstUnknownAt(s, i);
    PulsesUpToFirstUnknown(s);
  }

  /** The whole byte stream, as the concatenation of the chunks `recv` returned. */
  function Concat(chunks: seq<string>): string {
    if chunks == [] then [] else chunks[0] + Concat(chunks[1..])
  }

  lemma {:induction false} ConcatAppend(a: seq<string>, b: seq<string>)
    ensures Concat(a + b) == Concat(a) + Concat(b)
  {
    if a == [] {
      assert a + b == b;
    } else {
      assert (a + b)[1..] == a[1..] + b;
      ConcatAppend(a[1..], b);
    }
  }

  /** Concatenation of timelines regrouped: an instance the loop proofs use,
      which keeps their own contexts small. */
  lemma AppendAssoc(a: seq<Event>, b: seq<Event>, c: seq<Event>)
    ensures a + b + c == a + (b + c)
  {
  }

  /** The stream up to and including its n-th chunk. */
  lemma ConcatSnoc(chunks: seq<string>, n: nat)
    requires n < |chunks|
    ensures Concat(chunks[..n + 1]) == Concat(chunks[..n]) + chunks[n]
  {
    var before, chunk := chunks[..n], chunks[n];
    assert chunks[..n + 1] == before + [chunk];
    ConcatAppend(before, [chunk]);
    assert Concat([chunk]) == chunk by {
      assert [chunk][1..] == [];
    }
  }


  /** The stream around its n-th chunk. */
  lemma ConcatAround(chunks: seq<string>, n: nat)
    requires n < |chunks|
    ensures Concat(chunks) == Concat(chunks[..n]) + chunks[n] + Concat(chunks[n + 1..])
  {
    var upto, after := chunks[..n + 1], chunks[n + 1..];
    assert chunks == upto + after;
    ConcatAppend(upto, after);
    ConcatSnoc(chunks, n);
  }

  /** The n-th chunk is the first with a character without a code: the
      stream's timeline ends with that chunk's, and the stream fails at that
      character. */
  lemma ServeStop(chunks: seq<string>, n: nat)
    requires n < |chunks| && AllKnown(Concat(chunks[..n])) && !AllKnown(chunks[n])
    ensures Scan(chunks[n]).KeyError?
    ensures Pulses(Concat(chunks)) == Pulses(Concat(chunks[..n])) + Pulses(chunks[n])
    ensures !AllKnown(Concat(chunks))
    ensures Scan(Concat(chunks)) ==
      KeyError(|Concat(chunks[..n])| + Scan(chunks[n]).at, Scan(chunks[n]).key)
  {
    var done, chunk, rest := Concat(chunks[..n]), chunks[n], Concat(chunks[n + 1..]);
    ScanIff(chunk);
    ConcatAround(chunks, n);
    StreamHalt(done, chunk, rest);
    StreamScan(done, chunk, rest);
  }



  /** A chunk with an unknown character ends the stream's timeline with that
      chunk's own. */
  lemma StreamHalt(done: string, chunk: string, rest: string)
    requires AllKnown(done) && !AllKnown(chunk)
    ensures Pulses(done + chunk + rest) == Pulses(done) + Pulses(chunk)
    ensures !AllKnown(done + chunk + rest)
  {
    assert done + chunk + rest == done + (chunk + rest);
    PulsesAppend(done, chunk + rest);
    PulsesHalt(chunk, rest);
    AllKnownAppend(done, chunk);
    AllKnownAppend(done + chunk, rest);
  }

  /** The stream fails where its first failing chunk does: at that chunk's
      first unknown character, offset by the fully known text before it. */
  lemma StreamScan(done: string, chunk: string, rest: string)
    requires AllKnown(done) && !AllKnown(chunk)
    ensures Scan(chunk).KeyError?
    ensures Scan(done + chunk + rest) == KeyError(|done| + Scan(chunk).at, Scan(chunk).key)
  {
    ScanIff(chunk);
    var k := Scan(chunk).at;
    var s := done + chunk + rest;
    assert s[..|done| + k] == done + chunk[..k];
    AllKnownAppend(done, chunk[..k]);
    assert s[|done| + k] == chunk[k];
    FirstUnknownAt(s, |done| + k);
  }

  lemma AllKnownAppend(s: string, t: string)
    ensures AllKnown(s + t) <==> AllKnown(s) && AllKnown(t)
  {
    if AllKnown(s) && AllKnown(t) {
      forall i | 0 <= i < |s + t| ensures Lookup((s + t)[i]).Some? {
        if i >= |s| { assert (s + t)[i] == t[i - |s|]; }
      }
    }
    if AllKnown(s + t) {
      forall i | 0 <= i < |s| ensures Lookup(s[i]).Some? {
        assert (s + t)[i] == s[i];
      }
      forall i | 0 <= i < |t| ensures Lookup(t[i]).Some? {
        assert (s + t)[|s| + i] == t[i];
      }
    }
  }

  // ---------------------------------------------------------------------------
  // The pin, driven step by step

  /** GPIO pin 17 together with the clock: Output changes the level, Sleep
      holds it and records the stretch. */
  class Pin {
    var level: Level
    var trace: seq<Event>

    /** The pin after `GPIO.setup` as an output: low, nothing emitted yet. */
    constructor ()
      ensures level == Low && trace == []
    {
      level := Low;
      trace := [];
    }

    /** `GPIO.output(PIN, l)` */
    method Output(l: Level)
      modifies this
      ensures level == l && trace == old(trace)
    {
      level := l;
    }

    /** `time.sleep(ms / 1000)`: the pin keeps its level for `ms` milliseconds. */
    method Sleep(ms: nat)
      modifies this
      ensures level == old(level) && trace == old(trace) + [Event(old(level), ms)]
    {
      trace := trace + [Event(level, ms)];
    }

    /** `dot()`: high 200 ms, low 200 ms; leaves the pin low. */
    method Dot()
      modifies this
      ensures level == Low && trace == old(trace) + SymbolPulses('.')
    {
      Output(High);
      Sleep(ShortMs);
      Output(Low);
      Sleep(RestMs);
    }

    /** `dash()`: high 500 ms, low 200 ms; leaves the pin low. */
    method Dash()
      modifies this
      ensures level == Low && trace == old(trace) + SymbolPulses('-')
    {
      Output(High);
      Sleep(LongMs);
      Output(Low);
      Sleep(RestMs);
    }

    /** The inner loop: `dash()` for '-', `dot()` for '.', a 500 ms low hold
        for any other symbol. */
    method EmitCode(code: string)
      requires level == Low
      modifies this
      ensures level == Low
      ensures trace == old(trace) + CodePulses(code)
    {
      var j := 0;
      while j < |code|
        invariant 0 <= j <= |code|
        invariant level == Low
        invariant trace == old(trace) + CodePulses(code[..j])
      {
        var symbol := code[j];
        if symbol == '-' {
          Dash();
        } else if symbol == '.' {
          Dot();
        } else {
          Sleep(SeparatorMs);
        }
        assert code[..j + 1] == code[..j] + [symbol];
        CodePulsesAppend(code[..j], [symbol]);
        assert CodePulses([symbol]) == SymbolPulses(symbol) by {
          assert [symbol][1..] == [];
        }
        AppendAssoc(old(trace), CodePulses(code[..j]), SymbolPulses(symbol));
        j := j + 1;
      }
      assert code[..j] == code;
    }

    /** The loop over one received chunk: for every character its code's
        symbols, then the gap; a character without a code ends the loop with
        the KeyError, after everything before it has been emitted. */
    method Transcode(data: string) returns (outcome: Outcome)
      requires level == Low
      modifies this
      ensures level == Low
      ensures trace == old(trace) + Pulses(data)
      ensures outcome == Scan(data)
    {
      var i := 0;
      while i < |data|
        invariant 0 <= i <= |data|
        invariant level == Low
        invariant AllKnown(data[..i])
        invariant trace == old(trace) + Pulses(data[..i])
      {
        var key := TryUpper(data[i]);
        if key !in Code {
          StopAt(data, i);
          return KeyError(i, key);
        }
        var code := Code[key];
        EmitCode(code);
        Sleep(GapMs);
        NextLetter(old(trace), data, i);
        i := i + 1;
      }
      assert data[..i] == data;
      ScanIff(data);
      outcome := Done;
    }

    /** The `while True` loop over the chunks `recv` returns, in order, up to
        the first KeyError. The timeline depends only on the stream, not on
        where it was cut into chunks. On a failure the key is the stream's
        first unknown character, normalised, and `at` is its index within the
        chunk being transcoded, as in `Transcode`. */
    method Serve(chunks: seq<string>) returns (outcome: Outcome)
      requires level == Low
      modifies this
      ensures level == Low
      ensures trace == old(trace) + Pulses(Concat(chunks))
      ensures outcome == Done <==> AllKnown(Concat(chunks))
      ensures outcome.KeyError? ==>
        exists n :: (0 <= n < |chunks| && outcome == Scan(chunks[n]) &&
                     Scan(Concat(chunks)) == KeyError(|Concat(chunks[..n])| + outcome.at, outcome.key))
    {
      var n := 0;
      outcome := Done;
      while n < |chunks|
        invariant 0 <= n <= |chunks|
        invariant level == Low
        invariant outcome == Done
        invariant AllKnown(Concat(chunks[..n]))
        invariant trace == old(trace) + Pulses(Concat(chunks[..n]))
      {
        var done := Concat(chunks[..n]);
        ConcatSnoc(chunks, n);
        outcome := Transcode(chunks[n]);
        ScanIff(chunks[n]);
        if outcome != Done {
          ServeStop(chunks, n);
          AppendAssoc(old(trace), Pulses(done), Pulses(chunks[n]));
          return;
        }
        PulsesAppend(done, chunks[n]);
        AllKnownAppend(done, chunks[n]);
        AppendAssoc(old(trace), Pulses(done), Pulses(chunks[n]));
        n := n + 1;
      }
      assert chunks[..n] == chunks;
    }
  }
}
