/** A codec that satisfies the laws the mirror proofs rest on, so that they are not vacuous. */
module CodecWitness {
  import opened MirrorLines
  import opened Support

  /** A character as that many ones. */
  function Ones(n: nat): (b: seq<Byte>)
    ensures |b| == n && forall x :: x in b ==> x == 1
  {
    seq(n, i => 1)
  }

  /** Each character in unary, closed by a two; the whole closed by end. */
  function Spell(s: string, end: Byte): seq<Byte>
    requires end in {3, 4}
  {
    if s == [] then [end] else Ones(s[0] as int) + [2] + Spell(s[1..], end)
  }

  function Encode(e: Event): seq<Byte> {
    Spell(e.uuid, 3) + Spell(e.rest, 4)
  }

  lemma {:induction false} SpellBytes(s: string, end: Byte)
    requires end in {3, 4}
    ensures var b := Spell(s, end);
      b != [] && b[|b| - 1] == end && forall i :: 0 <= i < |b| - 1 ==> b[i] in {1, 2}
  {
    if s != [] {
      SpellBytes(s[1..], end);
    }
  }

  lemma MarkAfterRun(run: seq<Byte>, mark: Byte, rest: seq<Byte>)
    ensures var b := run + [mark] + rest;
      && |run| < |b| && b[|run|] == mark && b[|run| + 1..] == rest
      && forall i :: 0 <= i < |run| ==> b[i] == run[i]
  {
  }

  /** The first character is the run of ones before the first two; an empty text starts with end. */
  lemma SpellHead(s: string, end: Byte, x: seq<Byte>)
    requires end in {3, 4}
    ensures var b := Spell(s, end) + x;
      if s == [] then b[0] == end && b[1..] == x
      else
        var n := s[0] as int;
        && n < |b| && b[n] == 2 && (forall i :: 0 <= i < n ==> b[i] == 1)
        && b[n + 1..] == Spell(s[1..], end) + x
  {
    if s != [] {
      var ones, rest := Ones(s[0] as int), Spell(s[1..], end) + x;
      Associative(ones + [2], Spell(s[1..], end), x);
      MarkAfterRun(ones, 2, rest);
    }
  }

  lemma {:induction false} SpellInjective(s: string, t: string, end: Byte, x: seq<Byte>, y: seq<Byte>)
    requires end in {3, 4} && Spell(s, end) + x == Spell(t, end) + y
    ensures s == t && x == y
    decreases |s|
  {
    SpellHead(s, end, x);
    SpellHead(t, end, y);
    var b := Spell(s, end) + x;
    assert (s == []) == (b[0] == end) == (t == []);
    if s != [] {
      assert s[0] as int == t[0] as int;
      SpellInjective(s[1..], t[1..], end, x, y);
    }
  }

  lemma EncodeShape(e: Event)
    ensures var b := Encode(e);
      b != [] && b[|b| - 1] == 4 && forall i :: 0 <= i < |b| - 1 ==> b[i] in {1, 2, 3}
  {
    SpellBytes(e.uuid, 3);
    SpellBytes(e.rest, 4);
  }

  lemma EncodeInjective(e: Event, f: Event)
    requires Encode(e) == Encode(f)
    ensures e == f
  {
    SpellInjective(e.uuid, f.uuid, 3, Spell(e.rest, 4), Spell(f.rest, 4));
    assert Spell(e.rest, 4) + [] == Spell(f.rest, 4) + [];
    SpellInjective(e.rest, f.rest, 4, [], []);
  }

  ghost function Decode(line: seq<Byte>): Parsed {
    if exists e :: Encode(e) == Body(line) then
      var e :| Encode(e) == Body(line);
      Record(e)
    else Malformed
  }

  lemma DecodesBack(e: Event, line: seq<Byte>)
    requires Body(line) == Encode(e)
    ensures Decode(line) == Record(e)
  {
    var f :| Encode(f) == Body(line) && Decode(line) == Record(f);
    EncodeInjective(e, f);
  }

  lemma PrefixIsMalformed(e: Event, n: nat, line: seq<Byte>)
    requires n < |Encode(e)| && Body(line) == Encode(e)[..n]
    ensures Decode(line) == Malformed
  {
    EncodeShape(e);
    forall f ensures Encode(f) != Body(line) {
      EncodeShape(f);
      assert n > 0 ==> Body(line)[n - 1] != 4;
    }
  }

  lemma EncodesOneLine(e: Event)
    ensures NEWLINE !in Encode(e) && CARRIAGE_RETURN !in Encode(e)
    ensures Decode(Encode(e)) == Decode(Encode(e) + [NEWLINE]) == Record(e)
  {
    EncodeShape(e);
    var b := Encode(e);
    assert forall i :: 0 <= i < |b| ==> 1 <= b[i] <= 4;
    BodyWithAndWithout(b);
    DecodesBack(e, b);
    DecodesBack(e, b + [NEWLINE]);
  }

  lemma BodyWithAndWithout(b: seq<Byte>)
    requires !Terminated(b)
    ensures Body(b) == b && Body(b + [NEWLINE]) == b
  {
  }

  lemma PrefixesAreMalformed(e: Event, n: nat)
    requires n < |Encode(e)|
    ensures Decode(Encode(e)[..n]) == Decode(Encode(e)[..n] + [NEWLINE]) == Malformed
  {
    EncodeShape(e);
    PrefixIsMalformed(e, n, Encode(e)[..n]);
    PrefixIsMalformed(e, n, Encode(e)[..n] + [NEWLINE]);
  }

  lemma LawfulCodecExists()
    ensures exists c :: Lawful(c)
  {
    var c := Codec((e: Event) => Encode(e), (line: seq<Byte>) => Decode(line));
    forall e: Event
      ensures NEWLINE !in c.encode(e) && CARRIAGE_RETURN !in c.encode(e)
      ensures c.decode(c.encode(e)) == c.decode(c.encode(e) + [NEWLINE]) == Record(e)
    {
      EncodesOneLine(e);
    }
    forall e: Event, n | 0 <= n < |c.encode(e)|
      ensures c.decode(c.encode(e)[..n]) == c.decode(c.encode(e)[..n] + [NEWLINE]) == Malformed
    {
      PrefixesAreMalformed(e, n);
    }
    assert Lawful(c);
  }
}
