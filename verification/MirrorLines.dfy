/** The audit mirror as bytes: its line-by-line reading and what appending does to it. */
module MirrorLines {
  import opened Support

  type Byte = x: int | 0 <= x < 256

  const NEWLINE: Byte := 10
  const CARRIAGE_RETURN: Byte := 13

  /** One audit event; rest is the canonical text of every field but the identifier. */
  datatype Event = Event(uuid: string, rest: string)

  /** What decoding one raw mirror line gives. */
  datatype Parsed = Malformed | NoUuid | Record(event: Event)

  /** The JSON codec, left abstract except for the laws below. */
  datatype Codec = Codec(encode: Event -> seq<Byte>, decode: seq<Byte> -> Parsed)

  /**
   Encodings are single lines, decode back with or without their terminator, and no proper prefix
   of one decodes.
   */
  ghost predicate Lawful(c: Codec) {
    && (forall e :: NEWLINE !in c.encode(e) && CARRIAGE_RETURN !in c.encode(e))
    && (forall e :: c.decode(c.encode(e)) == c.decode(c.encode(e) + [NEWLINE]) == Record(e))
    && (forall e, n :: 0 <= n < |c.encode(e)| ==>
          c.decode(c.encode(e)[..n]) == c.decode(c.encode(e)[..n] + [NEWLINE]) == Malformed)
  }

  predicate Terminated(b: seq<Byte>) {
    b != [] && b[|b| - 1] == NEWLINE
  }

  /** The length of the first line, its terminator included. */
  function LineEnd(b: seq<Byte>): (n: nat)
    requires b != []
    ensures 1 <= n <= |b| && NEWLINE !in b[..n - 1]
    ensures n == |b| || b[n - 1] == NEWLINE
  {
    if b[0] == NEWLINE || |b| == 1 then 1
    else
      var n := 1 + LineEnd(b[1..]);
      assert b[..n - 1] == [b[0]] + b[1..][..n - 2];
      n
  }

  /** The raw lines of a file as readline yields them. */
  function Segments(b: seq<Byte>): (lines: seq<seq<Byte>>)
    ensures b == [] <==> lines == []
    decreases |b|
  {
    if b == [] then [] else [b[..LineEnd(b)]] + Segments(b[LineEnd(b)..])
  }

  /** A raw line without its terminator. */
  function Body(line: seq<Byte>): seq<Byte> {
    if Terminated(line) then line[..|line| - 1] else line
  }

  lemma {:induction false} SegmentsAppend(a: seq<Byte>, b: seq<Byte>)
    requires AtLineStart(a)
    ensures Segments(a + b) == Segments(a) + Segments(b)
    decreases |a|
  {
    if a == [] {
      assert a + b == b;
    } else {
      var n := LineEnd(a);
      LineEndAppend(a, b);
      CutSum(a, b, n);
      SegmentsAppend(a[n..], b);
      Associative([a[..n]], Segments(a[n..]), Segments(b));
    }
  }

  lemma {:induction false} LineEndAppend(a: seq<Byte>, b: seq<Byte>)
    requires a != [] && a[LineEnd(a) - 1] == NEWLINE
    ensures LineEnd(a + b) == LineEnd(a)
    decreases |a|
  {
    if a[0] != NEWLINE {
      assert (a + b)[1..] == a[1..] + b;
      LineEndAppend(a[1..], b);
    }
  }

  /** A newline-free piece, terminated or not, reads as one line. */
  lemma {:induction false} OneSegment(body: seq<Byte>)
    requires NEWLINE !in body
    ensures Segments(body + [NEWLINE]) == [body + [NEWLINE]]
    ensures body != [] ==> Segments(body) == [body]
  {
    var line := body + [NEWLINE];
    var n := LineEnd(line);
    assert n == |line|;
    assert line[..n] == line && line[n..] == [];
    if body != [] {
      var m := LineEnd(body);
      assert m == |body|;
      assert body[..m] == body && body[m..] == [];
    }
  }

  lemma AppendLine(b: seq<Byte>, body: seq<Byte>)
    requires AtLineStart(b) && NEWLINE !in body
    ensures Segments(b + (body + [NEWLINE])) == Segments(b) + [body + [NEWLINE]]
    ensures AtLineStart(b + (body + [NEWLINE]))
  {
    SegmentsAppend(b, body + [NEWLINE]);
    OneSegment(body);
  }

  /** Adds a byte to the last line, or as a line of its own. */
  function Snoc(lines: seq<seq<Byte>>, newLine: bool, x: Byte): seq<seq<Byte>>
    requires newLine || lines != []
  {
    if newLine then lines + [[x]] else lines[..|lines| - 1] + [lines[|lines| - 1] + [x]]
  }

  predicate AtLineStart(b: seq<Byte>) {
    b == [] || Terminated(b)
  }

  lemma {:induction false} SnocOneLine(b: seq<Byte>, x: Byte)
    requires b != [] && NEWLINE !in b
    ensures Segments(b + [x]) == Snoc(Segments(b), AtLineStart(b), x)
  {
    OneSegment(b);
    if x != NEWLINE {
      OneSegment(b + [x]);
    }
    assert Segments(b)[..0] == [];
  }

  /** Appending a byte extends the last line, or starts a new one after a terminator. */
  lemma {:induction false} SegmentsSnoc(b: seq<Byte>, x: Byte)
    ensures Segments(b + [x]) == Snoc(Segments(b), AtLineStart(b), x)
    decreases |b|
  {
    if AtLineStart(b) {
      SegmentsAppend(b, [x]);
      assert LineEnd([x]) == 1 && [x][..1] == [x] && [x][1..] == [];
    } else if LineEnd(b) == |b| {
      assert b == b[..|b| - 1] + [b[|b| - 1]];
      SnocOneLine(b, x);
    } else {
      var n := LineEnd(b);
      LineEndAppend(b, [x]);
      CutSum(b, [x], n);
      SegmentsSnoc(b[n..], x);
      SnocCons(b[..n], Segments(b[n..]), AtLineStart(b[n..]), x);
    }
  }

  lemma SnocCons(head: seq<Byte>, rest: seq<seq<Byte>>, newLine: bool, x: Byte)
    requires rest != []
    ensures Snoc([head] + rest, newLine, x) == [head] + Snoc(rest, newLine, x)
  {
    assert ([head] + rest)[..|rest|] == [head] + rest[..|rest| - 1];
  }

  lemma SnocKeepsComplete(lines: seq<seq<Byte>>, newLine: bool, x: Byte, line: seq<Byte>)
    requires line in lines && Terminated(line)
    requires newLine || !Terminated(lines[|lines| - 1])
    ensures line in Snoc(lines, newLine, x)
  {
    var i :| 0 <= i < |lines| && lines[i] == line;
    assert Snoc(lines, newLine, x)[i] == line;
  }

  /** Every complete line survives any append. */
  lemma {:induction false} CompleteLinesStay(b: seq<Byte>, more: seq<Byte>, line: seq<Byte>)
    requires line in Segments(b) && Terminated(line)
    ensures line in Segments(b + more)
    decreases |more|
  {
    if more == [] {
      assert b + more == b;
    } else {
      var front, x := b + more[..|more| - 1], more[|more| - 1];
      CompleteLinesStay(b, more[..|more| - 1], line);
      LastSegmentTerminated(front);
      SegmentsSnoc(front, x);
      SnocKeepsComplete(Segments(front), AtLineStart(front), x, line);
      SumOfFrontAndLast(b, more);
    }
  }

  lemma {:induction false} LastSegmentTerminated(b: seq<Byte>)
    requires b != []
    ensures Terminated(Segments(b)[|Segments(b)| - 1]) <==> Terminated(b)
    decreases |b|
  {
    var n := LineEnd(b);
    if n == |b| {
      assert b[..n] == b && b[n..] == [];
    } else {
      LastSegmentTerminated(b[n..]);
    }
  }

  // ---- What one flush appends ----

  function Lines(c: Codec, events: seq<Event>): seq<Byte> {
    if events == [] then []
    else Lines(c, events[..|events| - 1]) + c.encode(events[|events| - 1]) + [NEWLINE]
  }

  /** A delimiter after a truncated tail, then one terminated line for each event. */
  function Payload(c: Codec, base: seq<Byte>, events: seq<Event>): seq<Byte> {
    (if AtLineStart(base) then [] else [NEWLINE]) + Lines(c, events)
  }
}
