/**
 The writing connection of agentos_dashboard/storage/db.py and record_audit_event, as methods that
 follow the dual-write protocol step by step.
 */
module DashboardConnection {
  import opened MirrorLines
  import opened MirrorProtocol
  import ActionRuns

  ghost predicate Reachable(c: Codec, s: System) {
    ActionRuns.Reachable(Next(c), INITIAL, s)
  }

  lemma ReachableHasInv(c: Codec, s: System)
    requires Lawful(c) && Reachable(c, s)
    ensures Inv(c, s)
  {
    NextKeepsInv(c);
    ActionRuns.ReachableKeeps(Next(c), Invariant(c), INITIAL, s);
  }

  lemma {:induction false} LinesPrefix(c: Codec, rows: seq<Event>, i: nat)
    requires i <= |rows|
    ensures Lines(c, rows[..i]) <= Lines(c, rows)
    decreases |rows|
  {
    if i == |rows| {
      assert rows[..i] == rows;
    } else {
      LinesPrefix(c, rows[..|rows| - 1], i);
      assert rows[..|rows| - 1][..i] == rows[..i];
    }
  }

  lemma LinesSnoc(c: Codec, rows: seq<Event>, i: nat)
    requires i < |rows|
    ensures Lines(c, rows[..i + 1]) == Lines(c, rows[..i]) + (c.encode(rows[i]) + [NEWLINE])
  {
    assert rows[..i + 1][..i] == rows[..i];
  }

  lemma LinesSplit(c: Codec, rows: seq<Event>, i: nat) returns (rest: seq<Byte>)
    requires i < |rows|
    ensures Lines(c, rows) == Lines(c, rows[..i]) + (c.encode(rows[i]) + [NEWLINE]) + rest
  {
    LinesPrefix(c, rows, i + 1);
    LinesSnoc(c, rows, i);
    rest := Lines(c, rows)[|Lines(c, rows[..i + 1])|..];
  }

  class Dashboard {
    const codec: Codec
    var mirror: seq<Byte>
    var synced: nat
    var committed: seq<Event>
    /** Rows inserted and lines queued by the open connection. */
    var rows: seq<Event>
    var pending: seq<seq<Byte>>
    /** The protocol state this object has reached. */
    ghost var model: System

    /** The stored state is the protocol state; only the phase is left to the callers below. */
    ghost predicate Follows()
      reads this
    {
      && Lawful(codec) && Reachable(codec, model)
      && model.mirror == mirror && model.synced == synced && model.committed == committed
      && |pending| == |rows| && forall i :: 0 <= i < |rows| ==> pending[i] == codec.encode(rows[i])
    }

    ghost predicate Valid()
      reads this
    {
      Follows() && model.txn == if rows == [] then Idle else Open(rows)
    }

    constructor (c: Codec)
      requires Lawful(c)
      ensures Valid() && codec == c && mirror == [] && committed == [] && rows == []
    {
      codec := c;
      mirror, synced, committed, rows, pending := [], 0, [], [], [];
      model := INITIAL;
      new;
      ActionRuns.ReachableFromStart(Next(c), INITIAL);
    }

    /** Refuses a record that is not one line; otherwise queues it for the pre-commit flush. */
    method QueueAuditLine(line: seq<Byte>) returns (ok: bool)
      modifies this`pending
      ensures ok <==> NEWLINE !in line && CARRIAGE_RETURN !in line
      ensures pending == if ok then old(pending) + [line] else old(pending)
    {
      ok := NEWLINE !in line && CARRIAGE_RETURN !in line;
      if ok {
        pending := pending + [line];
      }
    }

    /** The identifier is a fresh uuid4, so it was never issued before. */
    method RecordAuditEvent(e: Event)
      requires Valid() && e.uuid !in model.issued
      modifies this
      ensures Valid() && rows == old(rows) + [e] && pending == old(pending) + [codec.encode(e)]
      ensures mirror == old(mirror) && committed == old(committed)
    {
      rows := rows + [e];
      var ok := QueueAuditLine(codec.encode(e));
      ActionRuns.ReachableStep(Next(codec), INITIAL, model, Insert(e));
      model := Do(codec, model, Insert(e));
    }

    /**
     Short writes are retried; a write that makes no progress or fails ends the flush, which a
     healthy file never makes happen.
     */
    method WriteAll(payload: seq<Byte>, healthy: bool) returns (ok: bool)
      requires Follows() && model.txn.Appending? && payload <= model.txn.todo
      modifies this`mirror, this`model
      ensures Follows() && model.txn.Appending? && model.txn.rows == old(model.txn.rows)
      ensures old(mirror) <= mirror && model.txn.base == old(model.txn.base)
      ensures mirror + model.txn.todo == old(mirror + model.txn.todo)
      ensures ok ==> mirror == old(mirror) + payload
      ensures ok ==> model.txn.todo == old(model.txn.todo)[|payload|..]
      ensures healthy ==> ok
    {
      var view := payload;
      while view != []
        invariant Follows() && model.txn.Appending? && model.txn.rows == old(model.txn.rows)
        invariant model.txn.base == old(model.txn.base)
        invariant view <= model.txn.todo
        invariant mirror + view == old(mirror) + payload
        invariant old(mirror) <= mirror && mirror + model.txn.todo == old(mirror + model.txn.todo)
        invariant model.txn.todo[|view|..] == old(model.txn.todo)[|payload|..]
        decreases |view|
      {
        var written: int := *;
        if written <= 0 || written > |view| {
          if !healthy {
            return false;
          }
          written := |view|;
        }
        assert model.txn.todo[..written] == view[..written];
        mirror := mirror + view[..written];
        ActionRuns.ReachableStep(Next(codec), INITIAL, model, WriteBytes(written));
        model := Do(codec, model, WriteBytes(written));
        view := view[written..];
      }
      ok := true;
    }

    ghost predicate Flushing(base: seq<Byte>)
      reads this
    {
      && Follows() && model.txn.Appending? && model.txn.rows == rows && model.txn.base == base
      && base <= mirror && mirror + model.txn.todo == base + Payload(codec, base, rows)
    }

    /** A truncated tail is closed off rather than overwritten. */
    method WriteDelimiter(healthy: bool) returns (ok: bool)
      requires Flushing(mirror)
      modifies this`mirror, this`model
      ensures Flushing(old(mirror))
      ensures ok ==> mirror == old(mirror) + Payload(codec, old(mirror), [])
      ensures healthy ==> ok
    {
      ok := true;
      Cancel(mirror, model.txn.todo, Payload(codec, mirror, rows));
      if !AtLineStart(mirror) {
        ok := WriteAll([NEWLINE], healthy);
      }
    }

    method WriteLine(ghost base: seq<Byte>, i: nat, healthy: bool) returns (ok: bool)
      requires Flushing(base) && i < |pending|
      requires mirror == base + Payload(codec, base, []) + Lines(codec, rows[..i])
      modifies this`mirror, this`model
      ensures Flushing(base)
      ensures ok ==> mirror == base + Payload(codec, base, []) + Lines(codec, rows[..i + 1])
      ensures healthy ==> ok
    {
      NextLineIsDue(base, base + Payload(codec, base, []), i);
      LinesSnoc(codec, rows, i);
      ok := WriteAll(pending[i] + [NEWLINE], healthy);
    }

    method WriteLines(ghost base: seq<Byte>, healthy: bool) returns (ok: bool)
      requires Flushing(base) && mirror == base + Payload(codec, base, [])
      modifies this`mirror, this`model
      ensures Flushing(base)
      ensures ok ==> mirror == base + Payload(codec, base, rows)
      ensures healthy ==> ok
    {
      var i := 0;
      while i < |pending|
        invariant 0 <= i <= |pending| && Flushing(base)
        invariant mirror == base + Payload(codec, base, []) + Lines(codec, rows[..i])
      {
        ok := WriteLine(base, i, healthy);
        if !ok {
          return;
        }
        i := i + 1;
      }
      assert rows[..i] == rows;
      ok := true;
    }

    /** Delimits a truncated tail, writes every queued line and syncs. */
    method AppendAuditLines(healthy: bool) returns (ok: bool)
      requires Flushing(mirror)
      modifies this`mirror, this`synced, this`model
      ensures Follows() && old(mirror) <= mirror
      ensures ok ==> model.txn == Durable(rows) && mirror == old(mirror) + Payload(codec, old(mirror), rows)
      ensures healthy ==> ok
    {
      ghost var base := mirror;
      ok := WriteDelimiter(healthy);
      if !ok {
        return;
      }
      ok := WriteLines(base, healthy);
      if !ok {
        return;
      }
      assert model.txn.todo == [];
      var syncFails: bool := *;
      if syncFails && !healthy {
        return false;
      }
      ActionRuns.ReachableStep(Next(codec), INITIAL, model, Sync);
      model := Do(codec, model, Sync);
      synced := |mirror|;
    }

    static lemma Cancel(head: seq<Byte>, a: seq<Byte>, b: seq<Byte>)
      requires head + a == head + b
      ensures a == b
    {
      assert a == (head + a)[|head|..] && b == (head + b)[|head|..];
    }

    /** After i lines, the next bytes owed to the mirror are exactly line i. */
    lemma NextLineIsDue(base: seq<Byte>, head: seq<Byte>, i: nat)
      requires Flushing(base) && i < |rows| && head == base + Payload(codec, base, [])
      requires mirror == head + Lines(codec, rows[..i])
      ensures codec.encode(rows[i]) + [NEWLINE] <= model.txn.todo
    {
      var line := codec.encode(rows[i]) + [NEWLINE];
      var rest := LinesSplit(codec, rows, i);
      assert base + Payload(codec, base, rows) == head + Lines(codec, rows);
      Regroup(head, Lines(codec, rows[..i]), line, rest);
      Cancel(mirror, model.txn.todo, line + rest);
    }

    static lemma Regroup(a: seq<Byte>, b: seq<Byte>, c: seq<Byte>, d: seq<Byte>)
      ensures a + (b + c + d) == (a + b) + (c + d)
    {
    }

    method Discard()
      requires Follows()
      modifies this
      ensures Valid() && rows == [] && mirror == old(mirror) && committed == old(committed)
    {
      ActionRuns.ReachableStep(Next(codec), INITIAL, model, Rollback);
      model := Do(codec, model, Rollback);
      rows, pending := [], [];
    }

    /** Flushes and syncs the mirror for the queued rows, if there are any. */
    method Flush(healthy: bool) returns (ok: bool)
      requires Valid()
      modifies this`mirror, this`synced, this`model
      ensures Follows() && old(mirror) <= mirror
      ensures ok ==> model.txn == (if rows == [] then Idle else Durable(rows))
      ensures ok ==> mirror == old(mirror) + if rows == [] then [] else Payload(codec, old(mirror), rows)
      ensures healthy ==> ok
    {
      ok := true;
      if rows != [] {
        ActionRuns.ReachableStep(Next(codec), INITIAL, model, StartFlush);
        model := Do(codec, model, StartFlush);
        ok := AppendAuditLines(healthy);
      }
    }

    method CommitRows()
      requires Follows() && model.txn == if rows == [] then Idle else Durable(rows)
      modifies this
      ensures Valid() && rows == [] && mirror == old(mirror) && committed == old(committed) + old(rows)
    {
      if rows != [] {
        ActionRuns.ReachableStep(Next(codec), INITIAL, model, Commit);
        model := Do(codec, model, Commit);
        committed := committed + rows;
      }
      rows, pending := [], [];
    }

    /**
     Leaving the connection: flush and sync the mirror, then commit. Any failure rolls the rows
     back and leaves at most orphan bytes behind; healthy says that nothing fails.
     */
    method Close(healthy: bool) returns (ok: bool)
      requires Valid()
      modifies this
      ensures Valid() && rows == [] && old(mirror) <= mirror
      ensures committed == if ok then old(committed) + old(rows) else old(committed)
      ensures ok ==> mirror == old(mirror) + if old(rows) == [] then [] else Payload(codec, old(mirror), old(rows))
      ensures CommittedAreMirrored(codec, model)
      ensures healthy ==> ok
    {
      ok := Flush(healthy);
      var commitFails: bool := *;
      if ok && commitFails && !healthy {
        ok := false;
      }
      if ok {
        CommitRows();
      } else {
        Discard();
      }
      ReachableHasInv(codec, model);
    }

    /** The process dies at any point and the next one finds a prefix of the unsynced bytes. */
    method CrashAndRestart(keep: nat)
      requires Follows() && synced <= keep <= |mirror|
      modifies this
      ensures Valid() && rows == [] && mirror == old(mirror)[..keep] && committed == old(committed)
      ensures CommittedAreMirrored(codec, model)
    {
      ActionRuns.ReachableStep(Next(codec), INITIAL, model, Crash(keep));
      model := Do(codec, model, Crash(keep));
      mirror, synced, rows, pending := mirror[..keep], keep, [], [];
      ReachableHasInv(codec, model);
    }
  }
}
