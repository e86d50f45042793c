/**
 The crash-safe dual write of agentos_dashboard/storage/db.py: audit rows in a database
 transaction, their lines appended and synced to the mirror before the commit.
 */
module MirrorProtocol {
  import opened Support
  import opened MirrorLines
  import ActionRuns

  /**
   One writing connection at a time, since the first insert takes the database write lock. base is
   what the mirror held when the flush began, todo the bytes still to be written.
   */
  datatype Transaction =
    | Idle
    | Open(rows: seq<Event>)
    | Appending(rows: seq<Event>, base: seq<Byte>, todo: seq<Byte>)
    | Durable(rows: seq<Event>)

  /** issued remembers every event ever recorded, committed or not. */
  datatype System = System(
    mirror: seq<Byte>, synced: nat, committed: seq<Event>, txn: Transaction, issued: map<string, Event>)

  datatype Action =
    | Insert(event: Event) | StartFlush | WriteBytes(n: nat) | Sync | Commit
    | Rollback | Crash(keep: nat)

  const INITIAL := System([], 0, [], Idle, map[])

  predicate Enabled(s: System, a: Action) {
    match a
    case Insert(e) => (s.txn.Idle? || s.txn.Open?) && e.uuid !in s.issued
    case StartFlush => s.txn.Open?
    case WriteBytes(n) => s.txn.Appending? && n <= |s.txn.todo|
    case Sync => s.txn.Appending? && s.txn.todo == []
    case Commit => s.txn.Durable?
    case Rollback => true
    case Crash(keep) => s.synced <= keep <= |s.mirror|
  }

  /** A rollback leaves the bytes in place; a crash keeps any prefix from the last sync on. */
  function Do(c: Codec, s: System, a: Action): System
    requires Enabled(s, a)
  {
    match a
    case Insert(e) =>
      s.(txn := Open(if s.txn.Idle? then [e] else s.txn.rows + [e]), issued := s.issued[e.uuid := e])
    case StartFlush => s.(txn := Appending(s.txn.rows, s.mirror, Payload(c, s.mirror, s.txn.rows)))
    case WriteBytes(n) =>
      s.(mirror := s.mirror + s.txn.todo[..n], txn := s.txn.(todo := s.txn.todo[n..]))
    case Sync => s.(synced := |s.mirror|, txn := Durable(s.txn.rows))
    case Commit => s.(committed := s.committed + s.txn.rows, txn := Idle)
    case Rollback => s.(txn := Idle)
    case Crash(keep) => s.(mirror := s.mirror[..keep], synced := keep, txn := Idle)
  }

  function Next(c: Codec): (System, Action) -> Option<System> {
    (s: System, a: Action) => if Enabled(s, a) then Some(Do(c, s, a)) else None
  }

  ghost predicate Runs(c: Codec, s: System, actions: seq<Action>) {
    ActionRuns.Runs(Next(c), s, actions)
  }

  ghost function After(c: Codec, s: System, actions: seq<Action>): System
    requires Runs(c, s, actions)
  {
    ActionRuns.After(Next(c), s, actions)
  }

  // ---- The invariant ----

  /** Every line is a prefix of an issued encoding, and no encoding appears in full twice. */
  ghost predicate Clean(c: Codec, lines: seq<seq<Byte>>, issued: map<string, Event>) {
    && (forall i :: 0 <= i < |lines| ==> IsFragment(c, Body(lines[i]), issued))
    && (forall i, j, u :: 0 <= i < j < |lines| && u in issued ==>
          !(Body(lines[i]) == c.encode(issued[u]) && Body(lines[j]) == c.encode(issued[u])))
  }

  ghost predicate IsFragment(c: Codec, body: seq<Byte>, issued: map<string, Event>) {
    exists u :: u in issued && body <= c.encode(issued[u])
  }

  ghost predicate Absent(c: Codec, lines: seq<seq<Byte>>, e: Event) {
    forall i :: 0 <= i < |lines| ==> Body(lines[i]) != c.encode(e)
  }

  /** Recorded by this transaction: issued, distinct and not yet committed. */
  ghost predicate Uncommitted(s: System, rows: seq<Event>) {
    && (forall i :: 0 <= i < |rows| ==>
          rows[i].uuid in s.issued && s.issued[rows[i].uuid] == rows[i] && rows[i] !in s.committed)
    && NoDuplicates(rows)
  }

  ghost predicate TransactionOk(c: Codec, s: System) {
    match s.txn
    case Idle => Clean(c, Segments(s.mirror), s.issued)
    case Open(rows) =>
      && Uncommitted(s, rows) && Clean(c, Segments(s.mirror), s.issued)
      && forall e :: e in rows ==> Absent(c, Segments(s.mirror), e)
    case Appending(rows, base, todo) =>
      && Uncommitted(s, rows) && s.mirror + todo == base + Payload(c, base, rows)
      && Clean(c, Segments(s.mirror + todo), s.issued)
      && forall e :: e in rows ==> c.encode(e) + [NEWLINE] in Segments(s.mirror + todo)
    case Durable(rows) =>
      && Uncommitted(s, rows) && Clean(c, Segments(s.mirror), s.issued) && s.synced == |s.mirror|
      && forall e :: e in rows ==> c.encode(e) + [NEWLINE] in Segments(s.mirror)
  }

  /** Every committed event has its own complete line among the synced bytes. */
  ghost predicate CommittedAreMirrored(c: Codec, s: System) {
    s.synced <= |s.mirror|
    && forall e :: e in s.committed ==> c.encode(e) + [NEWLINE] in Segments(s.mirror[..s.synced])
  }

  ghost predicate Inv(c: Codec, s: System) {
    && CommittedAreMirrored(c, s)
    && TransactionOk(c, s)
    && (forall u :: u in s.issued ==> s.issued[u].uuid == u)
    && (forall e :: e in s.committed ==> e.uuid in s.issued && s.issued[e.uuid] == e)
    && NoDuplicates(s.committed)
  }

  // ---- Clean lines under appending and truncation ----

  /** No encoding is a proper prefix of another. */
  lemma EncodingsAreIncomparable(c: Codec, e: Event, f: Event)
    requires Lawful(c) && c.encode(e) <= c.encode(f)
    ensures e == f
  {
    var whole := c.encode(f);
    assert c.encode(e) == whole[..|c.encode(e)|] && whole[..|whole|] == whole;
    assert c.decode(c.encode(e)) == Record(e) && c.decode(whole) == Record(f);
  }

  /** Shortening the last line keeps the lines clean. */
  lemma CleanShorterLast(c: Codec, front: seq<seq<Byte>>, short: seq<Byte>, long: seq<Byte>, issued: map<string, Event>)
    requires Lawful(c) && Clean(c, front + [long], issued) && Body(short) <= Body(long)
    ensures Clean(c, front + [short], issued)
  {
    var n := |front|;
    assert (front + [long])[n] == long;
    var v :| v in issued && Body(long) <= c.encode(issued[v]);
    forall i | 0 <= i <= n ensures IsFragment(c, Body((front + [short])[i]), issued) {
      assert i < n ==> (front + [short])[i] == (front + [long])[i];
    }
    forall i, j, u | 0 <= i < j <= n && u in issued
      ensures !(Body((front + [short])[i]) == c.encode(issued[u]) && Body((front + [short])[j]) == c.encode(issued[u]))
    {
      assert (front + [long])[i] == (front + [short])[i];
      if j < n {
        assert (front + [long])[j] == (front + [short])[j];
      } else if Body(short) == c.encode(issued[u]) {
        EncodingsAreIncomparable(c, issued[u], issued[v]);
      }
    }
  }

  lemma CleanFront(c: Codec, front: seq<seq<Byte>>, last: seq<Byte>, issued: map<string, Event>)
    requires Clean(c, front + [last], issued)
    ensures Clean(c, front, issued)
  {
    assert forall i :: 0 <= i < |front| ==> (front + [last])[i] == front[i];
  }

  lemma CleanDropLastByte(c: Codec, b: seq<Byte>, x: Byte, issued: map<string, Event>)
    requires Lawful(c) && Clean(c, Segments(b + [x]), issued)
    ensures Clean(c, Segments(b), issued)
  {
    SegmentsSnoc(b, x);
    var short := Segments(b);
    if AtLineStart(b) {
      CleanFront(c, short, [x], issued);
    } else {
      LastSegmentTerminated(b);
      var n := |short| - 1;
      assert short == short[..n] + [short[n]];
      BodyOfUnterminated(short[n], x);
      CleanShorterLast(c, short[..n], short[n], short[n] + [x], issued);
    }
  }

  lemma BodyOfUnterminated(line: seq<Byte>, x: Byte)
    requires !Terminated(line)
    ensures Body(line) <= Body(line + [x])
  {
    assert (line + [x])[..|line|] == line;
  }

  lemma {:induction false} CleanTruncated(c: Codec, b: seq<Byte>, n: nat, issued: map<string, Event>)
    requires Lawful(c) && Clean(c, Segments(b), issued) && n <= |b|
    ensures Clean(c, Segments(b[..n]), issued)
    decreases |b| - n
  {
    if n == |b| {
      assert b[..n] == b;
    } else {
      CleanTruncated(c, b, n + 1, issued);
      assert b[..n + 1] == b[..n] + [b[n]];
      CleanDropLastByte(c, b[..n], b[n], issued);
    }
  }

  lemma CleanGrowsIssued(c: Codec, lines: seq<seq<Byte>>, issued: map<string, Event>, e: Event)
    requires Clean(c, lines, issued) && Absent(c, lines, e) && e.uuid !in issued
    ensures Clean(c, lines, issued[e.uuid := e])
  {
    forall i | 0 <= i < |lines| ensures IsFragment(c, Body(lines[i]), issued[e.uuid := e]) {
      var u :| u in issued && Body(lines[i]) <= c.encode(issued[u]);
      assert u in issued[e.uuid := e];
    }
  }

  /** An event never issued has no line of its own in a clean mirror. */
  lemma FreshIsAbsent(c: Codec, lines: seq<seq<Byte>>, issued: map<string, Event>, e: Event)
    requires Lawful(c) && Clean(c, lines, issued)
    requires forall u :: u in issued ==> issued[u] != e
    ensures Absent(c, lines, e)
  {
    forall i | 0 <= i < |lines| ensures Body(lines[i]) != c.encode(e) {
      if Body(lines[i]) == c.encode(e) {
        var u :| u in issued && Body(lines[i]) <= c.encode(issued[u]);
        EncodingsAreIncomparable(c, e, issued[u]);
      }
    }
  }

  /** Only the bodies of the lines matter. */
  lemma CleanByBodies(c: Codec, lines: seq<seq<Byte>>, same: seq<seq<Byte>>, issued: map<string, Event>)
    requires Clean(c, lines, issued) && |same| == |lines|
    requires forall i :: 0 <= i < |same| ==> Body(same[i]) == Body(lines[i])
    ensures Clean(c, same, issued)
  {
  }

  /** The delimiter turns a truncated tail into a line of its own and changes no body. */
  lemma DelimiterKeepsBodies(c: Codec, base: seq<Byte>, issued: map<string, Event>)
    requires Clean(c, Segments(base), issued)
    ensures var b := base + Payload(c, base, []);
      && AtLineStart(b) && Clean(c, Segments(b), issued)
      && |Segments(b)| == |Segments(base)|
      && forall i :: 0 <= i < |Segments(b)| ==> Body(Segments(b)[i]) == Body(Segments(base)[i])
  {
    if AtLineStart(base) {
      assert base + Payload(c, base, []) == base;
    } else {
      assert base + Payload(c, base, []) == base + [NEWLINE];
      SegmentsSnoc(base, NEWLINE);
      LastSegmentTerminated(base);
      CleanByBodies(c, Segments(base), Segments(base + [NEWLINE]), issued);
    }
  }

  /** base with a whole flush behind it: still clean, with a complete line for every row. */
  ghost predicate Flushed(
    c: Codec, base: seq<Byte>, rows: seq<Event>, issued: map<string, Event>, b: seq<Byte>) {
    && AtLineStart(b) && Clean(c, Segments(b), issued)
    && (forall e :: e in rows ==> c.encode(e) + [NEWLINE] in Segments(b))
    && (forall e :: Absent(c, Segments(base), e) && e !in rows ==> Absent(c, Segments(b), e))
  }

  lemma {:induction false} FlushKeepsClean(
    c: Codec, base: seq<Byte>, rows: seq<Event>, issued: map<string, Event>)
    requires Lawful(c) && Clean(c, Segments(base), issued) && NoDuplicates(rows)
    requires forall i :: 0 <= i < |rows| ==> rows[i].uuid in issued && issued[rows[i].uuid] == rows[i]
    requires forall i :: 0 <= i < |rows| ==> Absent(c, Segments(base), rows[i])
    ensures Flushed(c, base, rows, issued, base + Payload(c, base, rows))
    decreases |rows|
  {
    if rows == [] {
      DelimiterKeepsBodies(c, base, issued);
    } else {
      var last := |rows| - 1;
      var front, row := rows[..last], rows[last];
      assert row !in front && front + [row] == rows;
      FlushKeepsClean(c, base, front, issued);
      FlushOneMore(c, base, front, row, issued);
    }
  }

  lemma FlushOneMore(c: Codec, base: seq<Byte>, front: seq<Event>, row: Event, issued: map<string, Event>)
    requires Lawful(c) && Flushed(c, base, front, issued, base + Payload(c, base, front))
    requires row.uuid in issued && issued[row.uuid] == row
    requires Absent(c, Segments(base), row) && row !in front
    ensures Flushed(c, base, front + [row], issued, base + Payload(c, base, front + [row]))
  {
    var b := base + Payload(c, base, front);
    AppendRow(c, b, row, issued);
    FlushedExtends(c, base, front, row, issued, b, b + (c.encode(row) + [NEWLINE]));
    PayloadSnoc(c, base, front, row);
  }

  lemma PayloadSnoc(c: Codec, base: seq<Byte>, front: seq<Event>, row: Event)
    ensures base + Payload(c, base, front + [row])
         == (base + Payload(c, base, front)) + (c.encode(row) + [NEWLINE])
  {
    assert (front + [row])[..|front|] == front;
  }

  lemma FlushedExtends(
    c: Codec, base: seq<Byte>, front: seq<Event>, row: Event, issued: map<string, Event>,
    b: seq<Byte>, longer: seq<Byte>)
    requires Flushed(c, base, front, issued, b)
    requires AtLineStart(longer) && Clean(c, Segments(longer), issued)
    requires Segments(longer) == Segments(b) + [c.encode(row) + [NEWLINE]]
    requires forall e :: Absent(c, Segments(b), e) && e != row ==> Absent(c, Segments(longer), e)
    ensures Flushed(c, base, front + [row], issued, longer)
  {
  }

  lemma AppendRow(c: Codec, b: seq<Byte>, row: Event, issued: map<string, Event>)
    requires Lawful(c) && AtLineStart(b) && Clean(c, Segments(b), issued)
    requires row.uuid in issued && issued[row.uuid] == row && Absent(c, Segments(b), row)
    ensures var line := c.encode(row) + [NEWLINE];
      && AtLineStart(b + line) && Segments(b + line) == Segments(b) + [line]
      && Clean(c, Segments(b + line), issued)
      && forall e :: Absent(c, Segments(b), e) && e != row ==> Absent(c, Segments(b + line), e)
  {
    var line := c.encode(row) + [NEWLINE];
    AppendLine(b, c.encode(row));
    assert Body(line) == c.encode(row);
    forall e | e != row ensures c.encode(e) != c.encode(row) {
      assert c.decode(c.encode(e)) == Record(e) && c.decode(c.encode(row)) == Record(row);
    }
    forall i, u | 0 <= i < |Segments(b)| && u in issued
      ensures !(Body(Segments(b)[i]) == c.encode(issued[u]) && Body(line) == c.encode(issued[u]))
    {
      if issued[u] != row {
        assert c.encode(issued[u]) != c.encode(row);
      }
    }
  }

  // ---- Every action keeps the invariant ----

  lemma InsertKeepsInv(c: Codec, s: System, e: Event)
    requires Lawful(c) && Inv(c, s) && Enabled(s, Insert(e))
    ensures Inv(c, Do(c, s, Insert(e)))
  {
    FreshIsAbsent(c, Segments(s.mirror), s.issued, e);
    CleanGrowsIssued(c, Segments(s.mirror), s.issued, e);
  }

  lemma StartFlushKeepsInv(c: Codec, s: System)
    requires Lawful(c) && Inv(c, s) && Enabled(s, StartFlush)
    ensures Inv(c, Do(c, s, StartFlush))
  {
    FlushKeepsClean(c, s.mirror, s.txn.rows, s.issued);
  }

  lemma WriteBytesKeepsInv(c: Codec, s: System, n: nat)
    requires Lawful(c) && Inv(c, s) && Enabled(s, WriteBytes(n))
    ensures Inv(c, Do(c, s, WriteBytes(n)))
  {
    var t := Do(c, s, WriteBytes(n));
    assert t.mirror + t.txn.todo == s.mirror + s.txn.todo;
    assert t.mirror[..s.synced] == s.mirror[..s.synced];
  }

  lemma TruncationKeepsMirrored(c: Codec, s: System, keep: nat, e: Event)
    requires s.synced <= keep <= |s.mirror|
    requires c.encode(e) + [NEWLINE] in Segments(s.mirror[..s.synced])
    ensures c.encode(e) + [NEWLINE] in Segments(s.mirror[..keep])
  {
    var line := c.encode(e) + [NEWLINE];
    assert s.mirror[..keep] == s.mirror[..s.synced] + s.mirror[s.synced..keep];
    CompleteLinesStay(s.mirror[..s.synced], s.mirror[s.synced..keep], line);
  }

  lemma MirrorIsClean(c: Codec, s: System)
    requires Lawful(c) && Inv(c, s)
    ensures Clean(c, Segments(s.mirror), s.issued)
  {
    if s.txn.Appending? {
      CleanTruncated(c, s.mirror + s.txn.todo, |s.mirror|, s.issued);
      assert (s.mirror + s.txn.todo)[..|s.mirror|] == s.mirror;
    }
  }

  lemma SyncKeepsInv(c: Codec, s: System)
    requires Lawful(c) && Inv(c, s) && Enabled(s, Sync)
    ensures Inv(c, Do(c, s, Sync))
  {
    assert s.mirror + s.txn.todo == s.mirror == s.mirror[..|s.mirror|];
    forall e | e in s.committed ensures c.encode(e) + [NEWLINE] in Segments(s.mirror[..|s.mirror|]) {
      TruncationKeepsMirrored(c, s, |s.mirror|, e);
    }
  }

  lemma CommitKeepsInv(c: Codec, s: System)
    requires Inv(c, s) && Enabled(s, Commit)
    ensures Inv(c, Do(c, s, Commit))
  {
    assert s.mirror[..s.synced] == s.mirror;
  }

  lemma CrashKeepsInv(c: Codec, s: System, keep: nat)
    requires Lawful(c) && Inv(c, s) && Enabled(s, Crash(keep))
    ensures Inv(c, Do(c, s, Crash(keep)))
  {
    MirrorIsClean(c, s);
    CleanTruncated(c, s.mirror, keep, s.issued);
    var t := Do(c, s, Crash(keep));
    assert t.mirror[..keep] == s.mirror[..keep];
    forall e | e in s.committed ensures c.encode(e) + [NEWLINE] in Segments(t.mirror[..keep]) {
      TruncationKeepsMirrored(c, s, keep, e);
    }
  }

  lemma ActionKeepsInv(c: Codec, s: System, a: Action)
    requires Lawful(c) && Inv(c, s) && Enabled(s, a)
    ensures Inv(c, Do(c, s, a))
  {
    match a
    case Insert(e) => InsertKeepsInv(c, s, e);
    case StartFlush => StartFlushKeepsInv(c, s);
    case WriteBytes(n) => WriteBytesKeepsInv(c, s, n);
    case Sync => SyncKeepsInv(c, s);
    case Commit => CommitKeepsInv(c, s);
    case Rollback => MirrorIsClean(c, s);
    case Crash(keep) => CrashKeepsInv(c, s, keep);
  }

  ghost function Invariant(c: Codec): System -> bool {
    (s: System) => Inv(c, s)
  }

  lemma NextKeepsInv(c: Codec)
    requires Lawful(c)
    ensures ActionRuns.Keeps(Next(c), Invariant(c))
  {
    forall s, a | Invariant(c)(s) && Next(c)(s, a).Some? ensures Invariant(c)(Next(c)(s, a).value) {
      ActionKeepsInv(c, s, a);
    }
  }

  lemma RunKeepsInv(c: Codec, s: System, actions: seq<Action>)
    requires Lawful(c) && Inv(c, s) && Runs(c, s, actions)
    ensures Inv(c, After(c, s, actions))
  {
    NextKeepsInv(c);
    ActionRuns.RunKeeps(Next(c), Invariant(c), s, actions);
  }

  /** Line i is the complete line of e, and no other line has the same text. */
  ghost predicate OwnsLine(c: Codec, lines: seq<seq<Byte>>, e: Event, i: int) {
    && 0 <= i < |lines| && lines[i] == c.encode(e) + [NEWLINE]
    && forall j :: 0 <= j < |lines| && Body(lines[j]) == c.encode(e) ==> j == i
  }

  /**
   Crash-safe dual write: whatever the interleaving of inserts, partial writes, syncs, rollbacks
   and crashes, each committed event owns exactly one complete line of the mirror, and that line
   is among the synced bytes.
   */
  lemma CommittedEventsAreMirrored(c: Codec, actions: seq<Action>)
    requires Lawful(c) && Runs(c, INITIAL, actions)
    ensures var s := After(c, INITIAL, actions);
      && CommittedAreMirrored(c, s)
      && forall e :: e in s.committed ==> exists i :: OwnsLine(c, Segments(s.mirror), e, i)
  {
    RunKeepsInv(c, INITIAL, actions);
    var s := After(c, INITIAL, actions);
    MirrorIsClean(c, s);
    var lines := Segments(s.mirror);
    assert s.mirror[..|s.mirror|] == s.mirror;
    forall e | e in s.committed
      ensures exists i :: OwnsLine(c, lines, e, i)
    {
      TruncationKeepsMirrored(c, s, |s.mirror|, e);
      var i :| 0 <= i < |lines| && lines[i] == c.encode(e) + [NEWLINE];
      assert Body(lines[i]) == c.encode(e) && e.uuid in s.issued && s.issued[e.uuid] == e;
      assert OwnsLine(c, lines, e, i);
    }
  }

  /** Between crashes the mirror only ever grows at its end. */
  lemma MirrorOnlyGrows(c: Codec, s: System, a: Action)
    requires Enabled(s, a) && !a.Crash?
    ensures s.mirror <= Do(c, s, a).mirror
    ensures forall line :: line in Segments(s.mirror) && Terminated(line) ==>
      line in Segments(Do(c, s, a).mirror)
  {
    var t := Do(c, s, a);
    if a.WriteBytes? {
      forall line | line in Segments(s.mirror) && Terminated(line) ensures line in Segments(t.mirror) {
        CompleteLinesStay(s.mirror, s.txn.todo[..a.n], line);
      }
    }
  }
}
