/** Morse as the firmware runs it: segments into a fixed buffer, then sums over them. */
module MorseBuffer {
  import opened Options
  import opened Clock32
  import opened Morse

  /** As much of `s` as a buffer of `max` holds. */
  function Cut(s: seq<Segment>, max: nat): seq<Segment> {
    if |s| <= max then s else s[..max]
  }

  lemma CutAppend(s: seq<Segment>, x: Segment, max: nat)
    ensures Cut(s + [x], max) == if |Cut(s, max)| < max then Cut(s, max) + [x] else Cut(s, max)
  {
  }

  /** Appends one segment if there is room; the elements beyond it stay as they were. */
  method Put(x: Segment, out: array<Segment>, n: nat, ghost done: seq<Segment>) returns (m: nat)
    requires n <= out.Length && out[..n] == Cut(done, out.Length)
    modifies out
    ensures n <= m <= out.Length && out[..m] == Cut(done + [x], out.Length) && out[m..] == old(out[m..])
    ensures m == n <==> n == out.Length
  {
    CutAppend(done, x, out.Length);
    m := n;
    if m < out.Length {
      out[m] := x;
      m := m + 1;
      assert out[..m] == out[..n] + [x];
    }
  }

  /** The marks of one letter, each after the silence it owes. */
  method PutLetter(code: string, gap: nat, out: array<Segment>, n: nat, ghost done: seq<Segment>) returns (m: nat)
    requires code != "" && n <= out.Length && out[..n] == Cut(done, out.Length)
    modifies out
    ensures n <= m <= out.Length && out[..m] == Cut(done + Letter(code, gap), out.Length)
    ensures out[m..] == old(out[m..]) && (out.Length > 0 ==> m > 0)
  {
    hide Cut;
    m := n;
    ghost var put := done;
    var owed := gap;
    for e := 0 to |code|
      invariant n <= m <= out.Length && out[..m] == Cut(put, out.Length) && out[m..] == old(out[m..])
      invariant e > 0 ==> owed == 1 && (out.Length > 0 ==> m > 0)
      invariant e == 0 ==> owed == gap
      invariant put + Letter(code[e..], owed) == done + Letter(code, gap)
    {
      ghost var rest := Letter(code[e + 1..], 1);
      assert code[e..][1..] == code[e + 1..];
      assert put + (Silence(owed) + [Tone(code[e])] + rest) == put + Silence(owed) + [Tone(code[e])] + rest;
      ghost var before := m;
      if owed > 0 {
        m := Put(Segment(false, owed), out, m, put);
      } else {
        assert put + [] == put;
      }
      put := put + Silence(owed);
      m := Put(Segment(true, if code[e] == '-' then 3 else 1), out, m, put);
      put := put + [Tone(code[e])];
      owed := 1;
    }
    assert put + [] == put;
  }

  /** Fills the buffer with the message, or with as much of it as there is room for. */
  method EncodeInto(text: string, out: array<Segment>) returns (n: nat)
    modifies out
    ensures n <= out.Length && out[..n] == Cut(Encode(text), out.Length)
    ensures out[n..] == old(out[n..])
  {
    hide MorseOf, Letter;
    ghost var done: seq<Segment> := [];
    n := 0;
    var gap := 0;
    for p := 0 to |text|
      invariant n <= out.Length && out[..n] == Cut(done, out.Length)
      invariant out[n..] == old(out[n..])
      invariant out.Length > 0 ==> Encode(text) == done + EncodeRest(text[p..], gap, n > 0)
    {
      assert text[p..][1..] == text[p + 1..];
      if text[p] == ' ' {
        gap := if n > 0 then 7 else 0;
      } else {
        var code := MorseOf(text[p]);
        if code.Some? {
          CodesSound(text[p]);
          n := PutLetter(code.value, gap, out, n, done);
          ghost var rest := EncodeRest(text[p + 1..], 3, true);
          assert done + (Letter(code.value, gap) + rest) == done + Letter(code.value, gap) + rest;
          done := done + Letter(code.value, gap);
          gap := 3;
        }
      }
    }
    assert out.Length > 0 ==> done + [] == done;
  }

  lemma CodesSound(c: char)
    requires MorseOf(c).Some?
    ensures MorseOf(c).value != ""
  {
    TableIsTree(Upper(c));
  }

  method DurationMs(segments: seq<Segment>, unitMs: Word) returns (total: Word)
    ensures total == Duration(segments, unitMs)
  {
    hide Span;
    total := 0;
    for i := 0 to |segments|
      invariant total == Duration(segments[..i], unitMs)
    {
      assert segments[..i + 1][..i] == segments[..i];
      total := Wrap(total + Wrap(Span(segments[i], unitMs)));
    }
    assert segments[..|segments|] == segments;
  }

  method IsToneAt(segments: seq<Segment>, unitMs: Word, pauseMs: Word, t: Word) returns (on: bool)
    requires HasPeriod(segments, unitMs, pauseMs)
    ensures on == ToneAt(segments, unitMs, pauseMs, t)
  {
    hide Span, Wrap, Duration;
    var total := DurationMs(segments, unitMs);
    if total == 0 {
      return false;
    }
    var left: Word := t % Wrap(total + pauseMs);
    ghost var phase := left;
    for i := 0 to |segments|
      invariant OnAt(segments, unitMs, phase) == OnAt(segments[i..], unitMs, left)
    {
      assert segments[i..][1..] == segments[i + 1..];
      var length := Wrap(Span(segments[i], unitMs));
      if left < length {
        return segments[i].on;
      }
      left := left - length;
    }
    on := false;
  }
}
