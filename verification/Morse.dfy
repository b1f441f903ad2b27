/** Morse messages: text to stretches of tone and silence, and a listener who tells letters and
    words apart by the lengths of the gaps. */
module Morse {
  import opened Options
  import opened Clock32

  datatype Segment = Segment(on: bool, units: nat)

  function Upper(c: char): char {
    if 'a' <= c <= 'z' then c - 'a' + 'A' else c
  }

  function Code(upper: char): Option<string> {
    match upper
    case 'A' => Some(".-") case 'B' => Some("-...") case 'C' => Some("-.-.") case 'D' => Some("-..")
    case 'E' => Some(".") case 'F' => Some("..-.") case 'G' => Some("--.") case 'H' => Some("....")
    case 'I' => Some("..") case 'J' => Some(".---") case 'K' => Some("-.-") case 'L' => Some(".-..")
    case 'M' => Some("--") case 'N' => Some("-.") case 'O' => Some("---") case 'P' => Some(".--.")
    case 'Q' => Some("--.-") case 'R' => Some(".-.") case 'S' => Some("...") case 'T' => Some("-")
    case 'U' => Some("..-") case 'V' => Some("...-") case 'W' => Some(".--") case 'X' => Some("-..-")
    case 'Y' => Some("-.--") case 'Z' => Some("--..")
    case '0' => Some("-----") case '1' => Some(".----") case '2' => Some("..---") case '3' => Some("...--")
    case '4' => Some("....-") case '5' => Some(".....") case '6' => Some("-....") case '7' => Some("--...")
    case '8' => Some("---..") case '9' => Some("----.")
    case _ => None
  }

  function MorseOf(c: char): Option<string> {
    Code(Upper(c))
  }

  // -------------------------------------------------------------- encoding

  function Silence(gap: nat): seq<Segment> {
    if gap > 0 then [Segment(false, gap)] else []
  }

  function Tone(mark: char): Segment {
    Segment(true, if mark == '-' then 3 else 1)
  }

  /** One letter; `gap` is the silence owed before it. */
  function Letter(code: string, gap: nat): seq<Segment> {
    if code == "" then [] else Silence(gap) + [Tone(code[0])] + Letter(code[1..], 1)
  }

  /** The rest of a message. A space owes a longer silence, but only once something has sounded. */
  function EncodeRest(text: string, gap: nat, started: bool): seq<Segment> {
    if text == "" then []
    else if text[0] == ' ' then EncodeRest(text[1..], if started then 7 else 0, started)
    else
      match MorseOf(text[0])
      case None => EncodeRest(text[1..], gap, started)
      case Some(code) => Letter(code, gap) + EncodeRest(text[1..], 3, true)
  }

  function Encode(text: string): seq<Segment> {
    EncodeRest(text, 0, false)
  }

  // -------------------------------------------------------------- listening

  /** The Morse tree: from node n a dot leads to 2n and a dash to 2n + 1. */
  function TreeLetter(node: nat): char {
    match node
    case 2 => 'E' case 3 => 'T' case 4 => 'I' case 5 => 'A' case 6 => 'N' case 7 => 'M' case 8 => 'S'
    case 9 => 'U' case 10 => 'R' case 11 => 'W' case 12 => 'D' case 13 => 'K' case 14 => 'G' case 15 => 'O'
    case 16 => 'H' case 17 => 'V' case 18 => 'F' case 20 => 'L' case 22 => 'P' case 23 => 'J' case 24 => 'B'
    case 25 => 'X' case 26 => 'C' case 27 => 'Y' case 28 => 'Z' case 29 => 'Q' case 32 => '5' case 33 => '4'
    case 35 => '3' case 39 => '2' case 47 => '1' case 48 => '6' case 56 => '7' case 60 => '8' case 62 => '9'
    case 63 => '0'
    case _ => '?'
  }

  function Bit(mark: char): nat {
    if mark == '-' then 1 else 0
  }

  function Walk(node: nat, code: string): nat
    decreases |code|
  {
    if code == "" then node else Walk(2 * node + Bit(code[0]), code[1..])
  }

  /** What a listener writes down: tones walk down the tree, a gap of one unit is inside a letter,
      three end a letter, more end a word. */
  function Listen(segments: seq<Segment>, node: nat): string {
    if segments == [] then if node == 1 then "" else [TreeLetter(node)]
    else
      var s, rest := segments[0], segments[1..];
      if s.on then Listen(rest, 2 * node + (if s.units == 3 then 1 else 0))
      else if s.units == 1 then Listen(rest, node)
      else if s.units == 3 then [TreeLetter(node)] + Listen(rest, 1)
      else [TreeLetter(node), ' '] + Listen(rest, 1)
  }

  function Decode(segments: seq<Segment>): string {
    Listen(segments, 1)
  }

  // -------------------------------------------------------------- the message

  /** The capital of a letter, and a digit, as a message carries it. */
  function Capital(c: char): string {
    if 'a' <= c <= 'z' then ["ABCDEFGHIJKLMNOPQRSTUVWXYZ"[(c - 'a') as int]]
    else if 'A' <= c <= 'Z' || '0' <= c <= '9' then [c]
    else ""
  }

  /** The letters and digits of a text, in upper case, and its spaces. */
  function Kept(text: string): string {
    if text == "" then "" else (if text[0] == ' ' then " " else Capital(text[0])) + Kept(text[1..])
  }

  /** Exactly the letters, in either case, and the digits have a code: that of their capital. */
  lemma CarriedIff(c: char)
    ensures MorseOf(c).Some? <==> 'a' <= c <= 'z' || 'A' <= c <= 'Z' || '0' <= c <= '9'
    ensures Capital(c) == if MorseOf(c).Some? then [Upper(c)] else ""
  {
    if 'a' <= c <= 'z' {
      var k := (c - 'a') as int;
      var upper := c - 'a' + 'A';
      assert upper as int == 65 + k;
      CapitalAt(k);
    } else {
      OnlyTheseHaveCodes(c);
    }
  }

  lemma OnlyTheseHaveCodes(c: char)
    ensures Code(c).Some? <==> 'A' <= c <= 'Z' || '0' <= c <= '9'
  {
  }

  lemma CapitalAt(k: nat)
    requires k < 26
    ensures "ABCDEFGHIJKLMNOPQRSTUVWXYZ"[k] as int == 65 + k
  {
  }

  /** Spaces trimmed at both ends and collapsed in between. */
  function Tidy(s: string): string
    decreases |s|, 0
  {
    if s == "" then "" else if s[0] == ' ' then Tidy(s[1..]) else [s[0]] + AfterLetter(s[1..])
  }

  function AfterLetter(s: string): string
    decreases |s|, 1
  {
    var rest := Tidy(s);
    if s != "" && s[0] == ' ' && rest != "" then " " + rest else rest
  }

  function Message(text: string): string {
    Tidy(Kept(text))
  }

  lemma UpperKeepsLetters(c: char)
    ensures MorseOf(Upper(c)) == MorseOf(c) && (MorseOf(c).Some? ==> Upper(c) != ' ' && c != ' ')
    ensures Capital(c) == if MorseOf(c).Some? then [Upper(c)] else ""
  {
    CarriedIff(c);
  }

  /** The code table and the tree say the same. */
  lemma TableIsTree(c: char)
    requires Code(c).Some?
    ensures Code(c).value != "" && TreeLetter(Walk(1, Code(c).value)) == c && Walk(1, Code(c).value) != 1
  {
    hide Walk;
    var code := Code(c).value;
    ShortWalk(code);
    if |code| <= 3 {
    } else if |code| == 4 {
    } else {
    }
  }

  /** Codes are at most five marks long. */
  lemma ShortWalk(code: string)
    requires 1 <= |code| <= 5
    ensures Walk(1, code) ==
              var two := 2 + Bit(code[0]);
              if |code| == 1 then two
              else
                var four := 2 * two + Bit(code[1]);
                if |code| == 2 then four
                else
                  var eight := 2 * four + Bit(code[2]);
                  if |code| == 3 then eight
                  else
                    var sixteen := 2 * eight + Bit(code[3]);
                    if |code| == 4 then sixteen else 2 * sixteen + Bit(code[4])
  {
    hide Walk;
    WalkStep(1, code);
    if |code| > 1 {
      WalkStep(2 + Bit(code[0]), code[1..]);
      WalkRest(2 * (2 + Bit(code[0])) + Bit(code[1]), code[2..]);
    } else {
      WalkRest(2 + Bit(code[0]), "");
    }
  }

  lemma WalkRest(node: nat, code: string)
    requires |code| <= 3
    decreases |code|
    ensures Walk(node, code) == if code == "" then node
              else
                var next := 2 * node + Bit(code[0]);
                if |code| == 1 then next
                else
                  var third := 2 * next + Bit(code[1]);
                  if |code| == 2 then third else 2 * third + Bit(code[2])
  {
    hide Walk;
    if |code| > 0 {
      WalkStep(node, code);
      WalkRest(2 * node + Bit(code[0]), code[1..]);
    } else {
      WalkEnd(node);
    }
  }

  lemma {:induction false} LetterWalks(code: string, node: nat, tail: seq<Segment>)
    decreases |code|
    ensures Listen(Letter(code, 1) + tail, node) == Listen(tail, Walk(node, code))
  {
    hide Listen, Walk;
    if code == "" {
      assert [] + tail == tail;
      WalkEnd(node);
    } else {
      var next := 2 * node + Bit(code[0]);
      WalkStep(node, code);
      LetterWalks(code[1..], next, tail);
      assert Letter(code, 1) + tail == [Segment(false, 1), Tone(code[0])] + (Letter(code[1..], 1) + tail);
      ListenTwice(Segment(false, 1), Tone(code[0]), Letter(code[1..], 1) + tail, node);
    }
  }

  lemma ListenOnce(s: Segment, rest: seq<Segment>, node: nat)
    ensures Listen([s] + rest, node)
         == if s.on then Listen(rest, 2 * node + (if s.units == 3 then 1 else 0))
            else if s.units == 1 then Listen(rest, node)
            else if s.units == 3 then [TreeLetter(node)] + Listen(rest, 1)
            else [TreeLetter(node), ' '] + Listen(rest, 1)
  {
    assert ([s] + rest)[1..] == rest;
  }

  lemma ListenTwice(s: Segment, tone: Segment, rest: seq<Segment>, node: nat)
    requires !s.on && s.units == 1 && tone.on
    ensures Listen([s, tone] + rest, node) == Listen(rest, 2 * node + (if tone.units == 3 then 1 else 0))
  {
    assert [s, tone] + rest == [s] + ([tone] + rest);
    ListenOnce(s, [tone] + rest, node);
    ListenOnce(tone, rest, node);
  }

  /** A letter at the start of what is heard. */
  lemma LetterHeard(c: char, gap: nat, tail: seq<Segment>, node: nat)
    requires Code(c).Some? && gap in {0, 3, 7}
    ensures Listen(Letter(Code(c).value, gap) + tail, node)
         == if gap == 0 then Listen(tail, Walk(node, Code(c).value))
            else (if gap == 3 then [TreeLetter(node)] else [TreeLetter(node), ' '])
                 + Listen(tail, Walk(1, Code(c).value))
  {
    hide TreeLetter, Code, Walk, Listen;
    var code := Code(c).value;
    TableIsTree(c);
    var after := [Tone(code[0])] + (Letter(code[1..], 1) + tail);
    var from := if gap == 0 then node else 1;
    assert Letter(code, gap) + tail == Silence(gap) + after;
    if gap > 0 {
      ListenOnce(Segment(false, gap), after, node);
    } else {
      assert Silence(gap) + after == after;
    }
    ListenOnce(Tone(code[0]), Letter(code[1..], 1) + tail, from);
    LetterWalks(code[1..], 2 * from + Bit(code[0]), tail);
    WalkStep(from, code);
  }

  lemma WalkEnd(node: nat)
    ensures Walk(node, "") == node
  {
  }

  lemma WalkStep(node: nat, code: string)
    requires code != ""
    ensures Walk(node, code) == Walk(2 * node + Bit(code[0]), code[1..])
  {
  }

  /** Between letters: the last one heard is `TreeLetter(node)`, and `gap` is the silence owed. */
  lemma {:induction false} RestDecodes(text: string, gap: nat, node: nat)
    requires gap in {3, 7} && node != 1
    ensures Listen(EncodeRest(text, gap, true), node)
         == [TreeLetter(node)]
            + (if gap == 3 then AfterLetter(Kept(text)) else if Message(text) == "" then "" else " " + Message(text))
    decreases |text|
  {
    hide TreeLetter, Code, Walk, Letter;
    if text != "" {
      var c := text[0];
      UpperKeepsLetters(c);
      if c == ' ' {
        RestDecodes(text[1..], 7, node);
        assert Kept(text)[1..] == Kept(text[1..]);
      } else if MorseOf(c) == None {
        RestDecodes(text[1..], gap, node);
        assert Kept(text) == Kept(text[1..]);
      } else {
        var walked := Walk(1, MorseOf(c).value);
        TableIsTree(Upper(c));
        RestDecodes(text[1..], 3, walked);
        LetterHeard(Upper(c), gap, EncodeRest(text[1..], 3, true), node);
        assert Kept(text)[1..] == Kept(text[1..]);
      }
    }
  }

  /** A message is uniquely decodable: whoever hears it writes down its letters in upper case,
      without the characters Morse cannot carry, and its spaces trimmed and collapsed. */
  lemma {:induction false} DecodesToMessage(text: string)
    ensures Decode(Encode(text)) == Message(text)
    decreases |text|
  {
    hide TreeLetter, Code, Walk, Letter;
    if text != "" {
      var c := text[0];
      UpperKeepsLetters(c);
      if c == ' ' {
        DecodesToMessage(text[1..]);
        assert Kept(text)[1..] == Kept(text[1..]);
      } else if MorseOf(c) == None {
        DecodesToMessage(text[1..]);
        assert Kept(text) == Kept(text[1..]);
      } else {
        var walked := Walk(1, MorseOf(c).value);
        TableIsTree(Upper(c));
        RestDecodes(text[1..], 3, walked);
        LetterHeard(Upper(c), 0, EncodeRest(text[1..], 3, true), 1);
        assert Kept(text)[1..] == Kept(text[1..]);
      }
    }
  }

  lemma {:induction false} RestOfMessage(text: string, gap: nat)
    requires gap in {3, 7}
    ensures EncodeRest(text, gap, true)
         == EncodeRest(if gap == 3 then AfterLetter(Kept(text)) else Message(text), gap, true)
    decreases |text|
  {
    hide Code, Letter;
    if text != "" {
      var c := text[0];
      UpperKeepsLetters(c);
      if c == ' ' {
        RestOfMessage(text[1..], 7);
        assert Kept(text)[1..] == Kept(text[1..]);
        SpaceFirst(Message(text[1..]));
      } else if MorseOf(c) == None {
        RestOfMessage(text[1..], gap);
        assert Kept(text) == Kept(text[1..]);
      } else {
        RestOfMessage(text[1..], 3);
        assert Kept(text)[1..] == Kept(text[1..]);
        LetterFirst(Upper(c), AfterLetter(Kept(text[1..])), gap, true);
      }
    }
  }

  lemma SpaceFirst(text: string)
    ensures EncodeRest(" " + text, 3, true) == EncodeRest(text, 7, true)
  {
    assert (" " + text)[1..] == text;
  }

  lemma LetterFirst(c: char, text: string, gap: nat, started: bool)
    requires MorseOf(c).Some?
    ensures EncodeRest([c] + text, gap, started) == Letter(MorseOf(c).value, gap) + EncodeRest(text, 3, true)
  {
    UpperKeepsLetters(c);
    assert ([c] + text)[1..] == text;
  }

  /** What is sent is the message and nothing else. */
  lemma {:induction false} EncodeOfMessage(text: string)
    ensures Encode(text) == Encode(Message(text))
    decreases |text|
  {
    hide Code, Letter;
    if text != "" {
      var c := text[0];
      UpperKeepsLetters(c);
      if c == ' ' {
        EncodeOfMessage(text[1..]);
        assert Kept(text)[1..] == Kept(text[1..]);
      } else if MorseOf(c) == None {
        EncodeOfMessage(text[1..]);
        assert Kept(text) == Kept(text[1..]);
      } else {
        RestOfMessage(text[1..], 3);
        assert Kept(text)[1..] == Kept(text[1..]);
        LetterFirst(Upper(c), AfterLetter(Kept(text[1..])), 0, false);
      }
    }
  }

  /** Two texts sound the same exactly when they are the same message. */
  lemma SoundTheSameIff(a: string, b: string)
    ensures Encode(a) == Encode(b) <==> Message(a) == Message(b)
  {
    hide Encode, Decode, Message;
    DecodesToMessage(a);
    DecodesToMessage(b);
    EncodeOfMessage(a);
    EncodeOfMessage(b);
  }

  /** Segments alternate, beginning and ending with a tone; tones are one or three units, gaps
      one, three or seven. */
  predicate WellFormed(segments: seq<Segment>) {
    && (segments != [] ==> |segments| % 2 == 1)
    && (forall i | 0 <= i < |segments| :: segments[i].on <==> i % 2 == 0)
    && (forall i | 0 <= i < |segments| :: segments[i].units in (if segments[i].on then {1, 3} else {1, 3, 7}))
  }

  /** Tones owed a silence first: empty, or a silence and then a well-formed message. */
  predicate Owed(segments: seq<Segment>) {
    || segments == []
    || (!segments[0].on && segments[0].units in {1, 3, 7} && segments[1..] != [] && WellFormed(segments[1..]))
  }

  lemma OwedThen(tone: Segment, rest: seq<Segment>)
    requires tone.on && tone.units in {1, 3} && Owed(rest)
    ensures WellFormed([tone] + rest)
  {
    var s := [tone] + rest;
    forall i | 0 <= i < |s|
      ensures s[i].on <==> i % 2 == 0
      ensures s[i].units in (if s[i].on then {1, 3} else {1, 3, 7})
    {
      if i >= 2 {
        assert s[i] == rest[1..][i - 2];
      }
    }
  }

  lemma {:induction false} LetterOwed(code: string, gap: nat, rest: seq<Segment>)
    requires code != "" && gap in {0, 1, 3, 7} && Owed(rest)
    ensures gap == 0 ==> WellFormed(Letter(code, gap) + rest)
    ensures gap > 0 ==> Owed(Letter(code, gap) + rest)
    ensures Letter(code, gap) + rest != []
  {
    hide WellFormed, Owed, Letter;
    LetterStep(code, gap);
    if code[1..] == "" {
      LetterEnd();
    }
    var tail := Letter(code[1..], 1) + rest;
    if code[1..] != "" {
      LetterOwed(code[1..], 1, rest);
    } else {
      assert tail == rest;
    }
    OwedThen(Tone(code[0]), tail);
    assert Letter(code, gap) + rest == Silence(gap) + ([Tone(code[0])] + tail);
    if gap == 0 {
      assert Silence(gap) + ([Tone(code[0])] + tail) == [Tone(code[0])] + tail;
    } else {
      SilenceThen(gap, [Tone(code[0])] + tail);
    }
  }

  lemma LetterStep(code: string, gap: nat)
    requires code != ""
    ensures Letter(code, gap) == Silence(gap) + [Tone(code[0])] + Letter(code[1..], 1)
  {
  }

  lemma LetterEnd()
    ensures Letter("", 1) == []
  {
  }

  lemma SilenceThen(gap: nat, s: seq<Segment>)
    requires gap in {1, 3, 7} && s != [] && WellFormed(s)
    ensures Owed(Silence(gap) + s)
  {
    assert (Silence(gap) + s)[1..] == s;
  }

  lemma {:induction false} SegmentsAlternate(text: string, gap: nat, started: bool)
    requires if started then gap in {3, 7} else gap == 0
    ensures var s := EncodeRest(text, gap, started); if started then Owed(s) else WellFormed(s)
    decreases |text|
  {
    hide Code, Letter, Owed, WellFormed;
    if text == "" {
      NothingOwed();
    } else if text[0] == ' ' {
      SegmentsAlternate(text[1..], if started then 7 else 0, started);
    } else if MorseOf(text[0]) == None {
      SegmentsAlternate(text[1..], gap, started);
    } else {
      TableIsTree(Upper(text[0]));
      SegmentsAlternate(text[1..], 3, true);
      LetterOwed(MorseOf(text[0]).value, gap, EncodeRest(text[1..], 3, true));
    }
  }

  lemma NothingOwed()
    ensures Owed([]) && WellFormed([])
  {
  }

  // ------------------------------------------------------------ in the air

  function Span(s: Segment, unitMs: nat): nat {
    s.units * unitMs
  }

  /** Milliseconds of one segment and of a message, in 32-bit arithmetic. */
  function Length(s: Segment, unitMs: Word): Word {
    Wrap(Span(s, unitMs))
  }

  function Duration(segments: seq<Segment>, unitMs: Word): Word {
    if segments == [] then 0
    else Wrap(Duration(segments[..|segments| - 1], unitMs) + Length(segments[|segments| - 1], unitMs))
  }

  /** The segment `t` falls into, counting from the start. */
  function OnAt(segments: seq<Segment>, unitMs: Word, t: Word): bool {
    if segments == [] then false
    else
      var length := Length(segments[0], unitMs);
      if t < length then segments[0].on else OnAt(segments[1..], unitMs, t - length)
  }

  /** A message of no length is silent; else the repetition needs a period to divide by. */
  predicate HasPeriod(segments: seq<Segment>, unitMs: Word, pauseMs: Word) {
    Duration(segments, unitMs) != 0 ==> Wrap(Duration(segments, unitMs) + pauseMs) != 0
  }

  function ToneAt(segments: seq<Segment>, unitMs: Word, pauseMs: Word, t: Word): bool
    requires HasPeriod(segments, unitMs, pauseMs)
  {
    var total := Duration(segments, unitMs);
    total != 0 && OnAt(segments, unitMs, t % Wrap(total + pauseMs))
  }

  /** When segment `i` starts, in true milliseconds. */
  function Start(segments: seq<Segment>, unitMs: nat, i: nat): nat
    requires i <= |segments|
  {
    if i == 0 then 0 else Start(segments, unitMs, i - 1) + Span(segments[i - 1], unitMs)
  }

  ghost predicate InTone(segments: seq<Segment>, unitMs: nat, t: int) {
    exists i :: 0 <= i < |segments| && segments[i].on
                && Start(segments, unitMs, i) <= t < Start(segments, unitMs, i + 1)
  }

  lemma {:induction false} StartShift(segments: seq<Segment>, unitMs: nat, i: nat)
    requires 0 < i <= |segments|
    ensures Start(segments, unitMs, i) == Span(segments[0], unitMs) + Start(segments[1..], unitMs, i - 1)
  {
    hide Span;
    if i > 1 {
      StartShift(segments, unitMs, i - 1);
    }
  }

  lemma {:induction false} StartOfPrefix(segments: seq<Segment>, unitMs: nat, n: nat, i: nat)
    requires i <= n <= |segments|
    ensures Start(segments[..n], unitMs, i) == Start(segments, unitMs, i)
  {
    if i > 0 {
      StartOfPrefix(segments, unitMs, n, i - 1);
    }
  }

  lemma {:induction false} DurationExact(segments: seq<Segment>, unitMs: Word)
    ensures Duration(segments, unitMs) == Wrap(Start(segments, unitMs, |segments|))
  {
    hide Span;
    if segments != [] {
      var n := |segments| - 1;
      DurationExact(segments[..n], unitMs);
      StartOfPrefix(segments, unitMs, n, n);
      AddOfTrue(Start(segments, unitMs, n), Span(segments[n], unitMs));
      AddOfTrue(Span(segments[n], unitMs), Wrap(Start(segments, unitMs, n)));
    }
  }

  /** A time is within the first segment, or within the rest, measured from its end. */
  lemma InToneStep(segments: seq<Segment>, unitMs: nat, t: nat)
    requires segments != []
    ensures var first := Span(segments[0], unitMs);
            InTone(segments, unitMs, t)
            <==> if t < first then segments[0].on else InTone(segments[1..], unitMs, t - first)
  {
    hide Span;
    var length, rest := Span(segments[0], unitMs), segments[1..];
    forall i | 0 < i <= |segments|
      ensures Start(segments, unitMs, i) == length + Start(rest, unitMs, i - 1)
    {
      StartShift(segments, unitMs, i);
    }
    assert Start(segments, unitMs, 1) == length;
    if t >= length && InTone(rest, unitMs, t - length) {
      var i :| 0 <= i < |rest| && rest[i].on && Start(rest, unitMs, i) <= t - length < Start(rest, unitMs, i + 1);
      assert segments[i + 1].on && Start(segments, unitMs, i + 1) <= t < Start(segments, unitMs, i + 2);
    }
  }

  lemma {:induction false} OnAtExact(segments: seq<Segment>, unitMs: Word, t: Word)
    requires Start(segments, unitMs, |segments|) < WORD
    ensures OnAt(segments, unitMs, t) <==> InTone(segments, unitMs, t)
  {
    hide Span, InTone;
    if segments == [] {
      NoTone(unitMs, t);
    } else {
      var length := Span(segments[0], unitMs);
      StartShift(segments, unitMs, |segments|);
      InToneStep(segments, unitMs, t);
      if t >= length {
        OnAtExact(segments[1..], unitMs, t - length);
      }
    }
  }

  lemma NoTone(unitMs: nat, t: int)
    ensures !InTone([], unitMs, t)
  {
  }

  lemma Fits(t: int)
    requires 0 <= t < WORD
    ensures Wrap(t) == t
  {
  }

  /** A message that fits the clock repeats: at `t` the tone is on exactly when the segment that
      `t`, modulo the message and its pause, falls into is a tone. */
  lemma ToneIsPeriodic(segments: seq<Segment>, unitMs: Word, pauseMs: Word, t: Word)
    requires 0 < Start(segments, unitMs, |segments|) && Start(segments, unitMs, |segments|) + pauseMs < WORD
    ensures HasPeriod(segments, unitMs, pauseMs)
    ensures ToneAt(segments, unitMs, pauseMs, t)
       <==> InTone(segments, unitMs, t % (Start(segments, unitMs, |segments|) + pauseMs))
  {
    hide Span, InTone, OnAt, Duration, Start, Wrap;
    var total := Start(segments, unitMs, |segments|);
    DurationExact(segments, unitMs);
    Fits(total);
    Fits(total + pauseMs);
    OnAtExact(segments, unitMs, t % (total + pauseMs));
  }
}
