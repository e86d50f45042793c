/**
 What a creating call leaves in the database, field by field: the row it asked for and, at the row's
 own place among the inserts, exactly the statements that belong to it.
 */
module CreationEffects {
  import opened Support
  import opened IdempotentCreation
  import ActionRuns

  // ---- The inserts ----

  /** How many inserts follow a row: its matrix entries and event, or its event and a finding with one of its own. */
  function Inserts(row: Row): nat {
    if row.table.StageRuns? then row.validations + 1 else if row.finding.Some? then 3 else 1
  }

  function InsertsBefore(rows: seq<Row>, i: nat): nat
    requires i <= |rows|
  {
    if i == 0 then 0 else InsertsBefore(rows, i - 1) + Inserts(rows[i - 1])
  }

  /** The inserts of one row stand at this place, in the order in which they were made. */
  ghost predicate StandsAt(written: seq<Statement>, at: nat, row: Row) {
    && at + Inserts(row) <= |written|
    && (row.table.StageRuns? ==>
          && (forall k :: 0 <= k < row.validations ==> written[at + k] == ValidationRow(row.uuid, k))
          && written[at + row.validations] == AuditEvent("run_created", row.uuid, row.hash))
    && (row.table.Approvals? ==> written[at] == AuditEvent("approval_created", row.uuid, row.hash))
    && (row.table.Approvals? && row.finding.Some? ==>
          && written[at + 1] == FindingRow(row.finding.value, row.uuid)
          && written[at + 2] == AuditEvent("reconciliation_divergence", row.uuid, row.hash))
  }

  ghost predicate OnlyItsInserts(db: Database) {
    && |db.written| == InsertsBefore(db.rows, |db.rows|)
    && forall i :: 0 <= i < |db.rows| ==> StandsAt(db.written, InsertsBefore(db.rows, i), db.rows[i])
  }

  lemma ScriptStands(before: seq<Statement>, row: Row)
    ensures |Script(row)| == Inserts(row) && StandsAt(before + Script(row), |before|, row)
  {
    var written := before + Script(row);
    assert forall k :: 0 <= k < |Script(row)| ==> written[|before| + k] == Script(row)[k];
  }

  lemma StillStands(written: seq<Statement>, more: seq<Statement>, at: nat, row: Row)
    requires StandsAt(written, at, row) && written <= more
    ensures StandsAt(more, at, row)
  {
  }

  lemma {:induction false} CountsPrefix(rows: seq<Row>, row: Row, i: nat)
    requires i <= |rows|
    ensures InsertsBefore(rows + [row], i) == InsertsBefore(rows, i)
  {
    if i > 0 {
      CountsPrefix(rows, row, i - 1);
    }
  }

  lemma {:induction false} ScriptsStand(rows: seq<Row>)
    ensures OnlyItsInserts(Database(rows, Scripts(rows)))
  {
    if rows != [] {
      var front, row := rows[..|rows| - 1], rows[|rows| - 1];
      assert rows == front + [row];
      ScriptsStand(front);
      ScriptStands(Scripts(front), row);
      forall i | 0 <= i < |rows| ensures StandsAt(Scripts(rows), InsertsBefore(rows, i), rows[i]) {
        CountsPrefix(front, row, i);
        if i < |front| {
          StillStands(Scripts(front), Scripts(rows), InsertsBefore(front, i), front[i]);
        }
      }
      CountsPrefix(front, row, |front|);
    }
  }

  /**
   After any interleaving the committed inserts are those of the committed rows and no other: a run has
   its matrix entries from the first to the last and then its event, an approval its event and then,
   where its commit does not resolve, a finding and the event of that.
   */
  lemma InsertsAreThoseOfTheRows(actions: seq<Action>)
    requires Runs(INITIAL, actions)
    ensures OnlyItsInserts(After(INITIAL, actions).db)
  {
    RunKeepsInv(actions);
    var db := After(INITIAL, actions).db;
    ScriptsStand(db.rows);
    assert db == Database(db.rows, Scripts(db.rows));
  }

  // ---- The rows ----

  /** What a row has from the request it was made for. */
  predicate AsksFor(q: Request, row: Row) {
    && q.wellFormed && row.table == q.table && row.token == q.token && row.hash == q.hash
    && row.validations == q.validations
    && row.run == (if q.table.Approvals? then q.run else None)
    && (row.finding.Some? ==> q.table.Approvals? && q.namesCommit)
  }

  ghost predicate WasAskedFor(clients: seq<Client>, row: Row) {
    exists i :: 0 <= i < |clients| && AsksFor(clients[i].request, row)
  }

  ghost predicate AllAskedFor(s: System) {
    && (forall row :: row in s.db.rows ==> WasAskedFor(s.clients, row))
    && forall i :: 0 <= i < |s.clients| && s.clients[i].phase.Writing? ==>
         AsksFor(s.clients[i].request, s.clients[i].phase.row)
  }

  /** Clients come, and none ever changes its request. */
  predicate RequestsStay(s: System, t: System) {
    |s.clients| <= |t.clients| && forall i :: 0 <= i < |s.clients| ==> t.clients[i].request == s.clients[i].request
  }

  lemma StillAskedFor(s: System, t: System, row: Row)
    requires WasAskedFor(s.clients, row) && RequestsStay(s, t)
    ensures WasAskedFor(t.clients, row)
  {
    var i :| 0 <= i < |s.clients| && AsksFor(s.clients[i].request, row);
    assert AsksFor(t.clients[i].request, row);
  }

  lemma ActionKeepsAsked(s: System, a: Action)
    requires Inv(s) && AllAskedFor(s) && Enabled(s, a)
    ensures AllAskedFor(Do(s, a))
  {
    var t := Do(s, a);
    assert RequestsStay(s, t);
    forall row | row in t.db.rows ensures WasAskedFor(t.clients, row) {
      if a.Commit? {
        assert ClientOk(s, a.client);
        assert AsksFor(s.clients[a.client].request, s.clients[a.client].phase.row);
        assert row in s.db.rows || row == s.clients[a.client].phase.row;
        assert AsksFor(t.clients[a.client].request, s.clients[a.client].phase.row);
      }
      if row in s.db.rows {
        StillAskedFor(s, t, row);
      }
    }
    forall i | 0 <= i < |t.clients| && t.clients[i].phase.Writing?
      ensures AsksFor(t.clients[i].request, t.clients[i].phase.row)
    {
      if a.Insert? && a.client == i {
        assert ClientOk(s, i);
      }
    }
  }

  ghost function AskedInvariant(): System -> bool {
    (s: System) => Inv(s) && AllAskedFor(s)
  }

  /** After any interleaving every committed row is, field by field, what one of the clients asked for. */
  lemma RowsAreAskedFor(actions: seq<Action>)
    requires Runs(INITIAL, actions)
    ensures var s := After(INITIAL, actions); forall row :: row in s.db.rows ==> WasAskedFor(s.clients, row)
  {
    forall s, a | AskedInvariant()(s) && Next()(s, a).Some? ensures AskedInvariant()(Next()(s, a).value) {
      ActionKeepsInv(s, a);
      ActionKeepsAsked(s, a);
    }
    ActionRuns.RunKeeps(Next(), AskedInvariant(), INITIAL, actions);
  }

  /** The payload passes its own checks, and the run that an approval names is there. */
  ghost predicate InOrder(rows: seq<Row>, q: Request) {
    && q.wellFormed
    && (q.table.Approvals? && q.run.Some? ==>
          exists run :: run in rows && run.table == StageRuns && run.uuid == q.run.value)
  }

  /** A call that nothing disturbs adds its one row and that row's inserts, once, or tells what is there. */
  lemma ServedByField(before: Database, after: Database, q: Request, unresolved: bool, answer: Answer)
    requires Served(before, after, q, unresolved, answer) && (unresolved ==> q.table.Approvals? && q.namesCommit)
    ensures answer == Invalid <==> !InOrder(before.rows, q)
    ensures answer == Conflict ==>
      exists row :: row in before.rows && row.table == q.table && row.token == q.token && row.hash != q.hash
    ensures answer.Returned? && after == before ==> answer.row in before.rows
    ensures answer.Returned? ==>
      answer.row.table == q.table && answer.row.token == q.token && answer.row.hash == q.hash
    ensures after != before <==>
      InOrder(before.rows, q) && forall row :: row in before.rows ==> row.table != q.table || row.token != q.token
    ensures after != before ==>
      && answer.Returned? && AsksFor(q, answer.row) && (answer.row.finding.Some? <==> unresolved)
      && after.rows == before.rows + [answer.row] && before.written <= after.written
      && |after.written| == |before.written| + Inserts(answer.row)
      && StandsAt(after.written, |before.written|, answer.row)
  {
    if Acceptable(before.rows, q) && Find(before.rows, q.table, q.token) == None {
      ScriptStands(before.written, answer.row);
    }
  }

  /**
   However the calls interleave, a client that is answered with a row was given the one row of its token
   for its own digest, and a client told of a conflict met a row of its token with another digest.
   */
  lemma AnswersByField(actions: seq<Action>, i: nat)
    requires Runs(INITIAL, actions) && i < |After(INITIAL, actions).clients|
    requires After(INITIAL, actions).clients[i].phase.Done?
    ensures
      var s := After(INITIAL, actions);
      var (q, answer) := (s.clients[i].request, s.clients[i].phase.answer);
      && (answer.Returned? ==>
            && answer.row in s.db.rows && answer.row.table == q.table && answer.row.token == q.token
            && answer.row.hash == q.hash)
      && (answer.Conflict? ==> exists row ::
            row in s.db.rows && row.table == q.table && row.token == q.token && row.hash != q.hash)
  {
    AnswersAreDetermined(actions, i);
  }
}
