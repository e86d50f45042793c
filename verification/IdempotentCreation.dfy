/**
 Idempotent creation under interleaving: the token protocol of create_run and create_approval in
 agentos_dashboard/services, as steps that any number of clients may interleave.
 */
module IdempotentCreation {
  import opened Support
  import ActionRuns

  datatype Table = StageRuns | Approvals

  /**
   wellFormed says whether the payload passes the checks made on it alone; run is the run an approval
   names; hash is the canonical digest of the whole redacted payload; validations counts a run's
   matrix entries.
   */
  datatype Request = Request(
    table: Table, wellFormed: bool, run: Option<nat>, token: string, hash: string, validations: nat, namesCommit: bool)

  /** finding is the divergence finding inserted together with the row, if there is one. */
  datatype Row = Row(
    table: Table, uuid: nat, run: Option<nat>, token: string, hash: string, validations: nat, finding: Option<nat>)

  /** An insert other than that of the row itself. */
  datatype Statement =
    | ValidationRow(run: nat, ordinal: nat)
    | FindingRow(uuid: nat, approval: nat)
    | AuditEvent(kind: string, subject: nat, hash: string)

  /** written is every other insert, in order. */
  datatype Database = Database(rows: seq<Row>, written: seq<Statement>)

  datatype Answer = Returned(row: Row) | Conflict | Invalid | Failed

  datatype Phase =
    | Arrived
    | Checked
    | Missed
    | Writing(row: Row, todo: seq<Statement>)
    | Rereading
    | Done(answer: Answer)

  datatype Client = Client(request: Request, phase: Phase)

  /**
   db is what is committed; draft what the holder of the write lock sees. Identifiers are drawn from
   a counter, which is all that matters of uuid4.
   */
  datatype System = System(db: Database, draft: Database, writer: Option<nat>, clients: seq<Client>, next: nat)

  datatype Action =
    | Arrive(request: Request)
    | Check(client: nat)
    | Lookup(client: nat)
    | Insert(client: nat, unresolved: bool)
    | Write(client: nat, statement: Statement)
    | Reread(client: nat)
    | Commit(client: nat)
    | Fail(client: nat)

  const EMPTY := Database([], [])
  const INITIAL := System(EMPTY, EMPTY, None, [], 0)

  /** The row that the unique client_token column allows for a token, if it is there. */
  function Find(rows: seq<Row>, table: Table, token: string): (r: Option<Row>)
    ensures r.Some? ==> r.value in rows && r.value.table == table && r.value.token == token
    ensures r.None? ==> forall row :: row in rows ==> row.table != table || row.token != token
  {
    if rows == [] then None
    else if rows[0].table == table && rows[0].token == token then Some(rows[0])
    else Find(rows[1..], table, token)
  }

  predicate RunRecorded(rows: seq<Row>, uuid: nat) {
    exists row :: row in rows && row.table.StageRuns? && row.uuid == uuid
  }

  /** The payload is in order, and the run an approval names is recorded. */
  predicate Acceptable(rows: seq<Row>, q: Request) {
    q.wellFormed && (q.table.Approvals? && q.run.Some? ==> RunRecorded(rows, q.run.value))
  }

  /** What the source does with a row found under the token. */
  function Compare(row: Row, hash: string): Answer {
    if row.hash == hash then Returned(row) else Conflict
  }

  /** The inserts that follow a new row in its own transaction. */
  function Script(row: Row): seq<Statement> {
    match row.table
    case StageRuns =>
      seq(row.validations, (k: nat) => ValidationRow(row.uuid, k)) + [AuditEvent("run_created", row.uuid, row.hash)]
    case Approvals =>
      [AuditEvent("approval_created", row.uuid, row.hash)] + Divergence(row)
  }

  function Divergence(row: Row): seq<Statement> {
    match row.finding
    case None => []
    case Some(f) => [FindingRow(f, row.uuid), AuditEvent("reconciliation_divergence", row.uuid, row.hash)]
  }

  function NewRow(q: Request, uuid: nat, unresolved: bool): Row {
    Row(q.table, uuid, if q.table.Approvals? then q.run else None, q.token, q.hash, q.validations,
        if unresolved then Some(uuid + 1) else None)
  }

  predicate InPhase(s: System, i: nat, p: Phase -> bool) {
    i < |s.clients| && p(s.clients[i].phase)
  }

  /** An insert needs the write lock, which its transaction keeps until it ends. */
  predicate Enabled(s: System, a: Action) {
    match a
    case Arrive(_) => true
    case Check(i) => InPhase(s, i, (p: Phase) => p.Arrived?)
    case Lookup(i) => InPhase(s, i, (p: Phase) => p.Checked?)
    case Insert(i, unresolved) =>
      && InPhase(s, i, (p: Phase) => p.Missed?) && s.writer == None
      && (unresolved ==> s.clients[i].request.table == Approvals && s.clients[i].request.namesCommit)
    case Write(i, w) => InPhase(s, i, (p: Phase) => p.Writing? && p.todo != [] && p.todo[0] == w)
    case Reread(i) => InPhase(s, i, (p: Phase) => p.Rereading?)
    case Commit(i) => InPhase(s, i, (p: Phase) => p.Writing? && p.todo == [])
    case Fail(i) => InPhase(s, i, (p: Phase) => !p.Done?)
  }

  function Enter(s: System, i: nat, phase: Phase): System
    requires i < |s.clients|
  {
    s.(clients := s.clients[i := s.clients[i].(phase := phase)])
  }

  /** A failure anywhere, a crash included, rolls back whatever the client had written. */
  function Do(s: System, a: Action): System
    requires Enabled(s, a)
  {
    match a
    case Arrive(q) => s.(clients := s.clients + [Client(q, Arrived)])
    case Check(i) =>
      Enter(s, i, if Acceptable(s.db.rows, s.clients[i].request) then Checked else Done(Invalid))
    case Lookup(i) =>
      var q := s.clients[i].request;
      (match Find(s.db.rows, q.table, q.token)
       case Some(row) => Enter(s, i, Done(Compare(row, q.hash)))
       case None => Enter(s, i, Missed))
    case Insert(i, unresolved) =>
      var q := s.clients[i].request;
      (match Find(s.db.rows, q.table, q.token)
       case Some(_) => Enter(s, i, Rereading).(writer := Some(i), draft := s.db)
       case None =>
         var row := NewRow(q, s.next, unresolved);
         Enter(s, i, Writing(row, Script(row)))
         .(writer := Some(i), draft := s.db.(rows := s.db.rows + [row]), next := s.next + 2))
    case Write(i, w) =>
      var p := s.clients[i].phase;
      Enter(s, i, p.(todo := p.todo[1..])).(draft := s.draft.(written := s.draft.written + [w]))
    case Reread(i) =>
      var q := s.clients[i].request;
      (match Find(s.draft.rows, q.table, q.token)
       case Some(row) => Enter(s, i, Done(Compare(row, q.hash))).(writer := None)
       case None => Enter(s, i, Done(Failed)).(writer := None))
    case Commit(i) => Enter(s, i, Done(Returned(s.clients[i].phase.row))).(writer := None, db := s.draft)
    case Fail(i) => Enter(s, i, Done(Failed)).(writer := if s.writer == Some(i) then None else s.writer)
  }

  predicate By(a: Action, i: nat) {
    match a
    case Arrive(_) => false
    case Check(j) => j == i
    case Lookup(j) => j == i
    case Insert(j, _) => j == i
    case Write(j, _) => j == i
    case Reread(j) => j == i
    case Commit(j) => j == i
    case Fail(j) => j == i
  }

  lemma StepLeavesOthers(s: System, a: Action, i: nat)
    requires Enabled(s, a) && !By(a, i) && i < |s.clients|
    ensures i < |Do(s, a).clients| && Do(s, a).clients[i] == s.clients[i]
  {
  }

  function Next(): (System, Action) -> Option<System> {
    (s: System, a: Action) => if Enabled(s, a) then Some(Do(s, a)) else None
  }

  ghost predicate Runs(s: System, actions: seq<Action>) {
    ActionRuns.Runs(Next(), s, actions)
  }

  ghost function After(s: System, actions: seq<Action>): System
    requires Runs(s, actions)
  {
    ActionRuns.After(Next(), s, actions)
  }

  // ---- The invariant ----

  function Scripts(rows: seq<Row>): seq<Statement> {
    if rows == [] then [] else Scripts(rows[..|rows| - 1]) + Script(rows[|rows| - 1])
  }

  ghost predicate TokensUnique(rows: seq<Row>) {
    forall i, j :: 0 <= i < j < |rows| ==> rows[i].table != rows[j].table || rows[i].token != rows[j].token
  }

  /** Identifiers below next are taken, and no two rows share one. */
  ghost predicate IdentifiersUnique(rows: seq<Row>, next: nat) {
    && (forall row :: row in rows ==> row.uuid + 1 < next && (row.finding.Some? ==> row.finding.value == row.uuid + 1))
    && forall i, j :: 0 <= i < j < |rows| ==> rows[i].uuid + 1 < rows[j].uuid
  }

  /** Every run an approval names is among the rows. */
  ghost predicate RunsRecorded(rows: seq<Row>) {
    forall row :: row in rows && row.run.Some? ==> RunRecorded(rows, row.run.value)
  }

  /**
   A whole database: unique tokens, recorded runs, and every row with exactly the inserts that
   belong to it.
   */
  ghost predicate Whole(db: Database, next: nat) {
    && TokensUnique(db.rows) && IdentifiersUnique(db.rows, next) && RunsRecorded(db.rows)
    && db.written == Scripts(db.rows)
  }

  ghost predicate FoundUnder(rows: seq<Row>, q: Request, answer: Answer) {
    exists row :: row in rows && row.table == q.table && row.token == q.token && answer == Compare(row, q.hash)
  }

  ghost predicate AnswerOk(db: Database, q: Request, answer: Answer) {
    match answer
    case Failed => true
    case Invalid => !q.wellFormed || (q.table.Approvals? && q.run.Some?)
    case _ => Acceptable(db.rows, q) && FoundUnder(db.rows, q, answer)
  }

  /** The draft with the rest of its script would be a whole database, one row longer. */
  ghost predicate WritingOk(s: System, q: Request, row: Row, todo: seq<Statement>) {
    && s.draft.rows == s.db.rows + [row]
    && row.table == q.table && row.token == q.token && row.hash == q.hash
    && Whole(s.draft.(written := s.draft.written + todo), s.next)
  }

  ghost predicate ClientOk(s: System, i: nat)
    requires i < |s.clients|
  {
    var q := s.clients[i].request;
    match s.clients[i].phase
    case Arrived => s.writer != Some(i)
    case Checked => s.writer != Some(i) && Acceptable(s.db.rows, q)
    case Missed => s.writer != Some(i) && Acceptable(s.db.rows, q)
    case Writing(row, todo) => s.writer == Some(i) && Acceptable(s.db.rows, q) && WritingOk(s, q, row, todo)
    case Rereading =>
      && s.writer == Some(i) && Acceptable(s.db.rows, q) && s.draft == s.db
      && Find(s.db.rows, q.table, q.token).Some?
    case Done(answer) => s.writer != Some(i) && AnswerOk(s.db, q, answer)
  }

  ghost predicate Inv(s: System) {
    && Whole(s.db, s.next)
    && (s.writer.Some? ==> s.writer.value < |s.clients|)
    && forall i :: 0 <= i < |s.clients| ==> ClientOk(s, i)
  }

  lemma ScriptsSnoc(rows: seq<Row>, row: Row)
    ensures Scripts(rows + [row]) == Scripts(rows) + Script(row)
  {
    assert (rows + [row])[..|rows|] == rows;
  }

  lemma NewTokenIsUnique(rows: seq<Row>, row: Row)
    requires TokensUnique(rows) && Find(rows, row.table, row.token).None?
    ensures TokensUnique(rows + [row])
  {
    forall i | 0 <= i < |rows| ensures rows[i].table != row.table || rows[i].token != row.token {
      assert rows[i] in rows;
    }
  }

  lemma NewIdentifierIsUnique(rows: seq<Row>, row: Row, next: nat)
    requires IdentifiersUnique(rows, next) && row.uuid == next
    requires row.finding.Some? ==> row.finding.value == next + 1
    ensures IdentifiersUnique(rows + [row], next + 2)
  {
    forall i | 0 <= i < |rows| ensures rows[i].uuid + 1 < next {
      assert rows[i] in rows;
    }
  }

  lemma RecordedStays(rows: seq<Row>, more: seq<Row>, uuid: nat)
    requires RunRecorded(rows, uuid) && rows <= more
    ensures RunRecorded(more, uuid)
  {
    var run :| run in rows && run.table.StageRuns? && run.uuid == uuid;
    assert run in more;
  }

  lemma AcceptableStays(rows: seq<Row>, more: seq<Row>, q: Request)
    requires Acceptable(rows, q) && rows <= more
    ensures Acceptable(more, q)
  {
    if q.table.Approvals? && q.run.Some? {
      RecordedStays(rows, more, q.run.value);
    }
  }

  lemma NewRunIsRecorded(rows: seq<Row>, row: Row)
    requires RunsRecorded(rows) && (row.run.Some? ==> RunRecorded(rows, row.run.value))
    ensures RunsRecorded(rows + [row])
  {
    forall r | r in rows + [row] && r.run.Some? ensures RunRecorded(rows + [row], r.run.value) {
      assert r in rows || r == row;
      RecordedStays(rows, rows + [row], r.run.value);
    }
  }

  /** A row under an unused token, with the next identifiers, keeps the database whole. */
  lemma NewRowIsWhole(s: System, q: Request, unresolved: bool)
    requires Whole(s.db, s.next) && Find(s.db.rows, q.table, q.token).None? && Acceptable(s.db.rows, q)
    ensures var row := NewRow(q, s.next, unresolved);
      Whole(Database(s.db.rows + [row], s.db.written + Script(row)), s.next + 2)
  {
    var row := NewRow(q, s.next, unresolved);
    ScriptsSnoc(s.db.rows, row);
    NewTokenIsUnique(s.db.rows, row);
    NewIdentifierIsUnique(s.db.rows, row, s.next);
    NewRunIsRecorded(s.db.rows, row);
  }

  // ---- Every action keeps it ----

  lemma FoundStays(rows: seq<Row>, more: seq<Row>, q: Request, answer: Answer)
    requires FoundUnder(rows, q, answer) && rows <= more
    ensures FoundUnder(more, q, answer)
  {
    var row :| row in rows && row.table == q.table && row.token == q.token && answer == Compare(row, q.hash);
    assert row in more;
  }

  /** The other clients do not notice a phase change that leaves the committed rows and their own lock alone. */
  lemma OthersStayOk(s: System, t: System, i: nat, j: nat)
    requires i < |s.clients| == |t.clients| && j < |s.clients| && i != j && ClientOk(s, j)
    requires t.clients[j] == s.clients[j] && s.db.rows <= t.db.rows
    requires s.writer == Some(j) ==> t.writer == s.writer && t.db == s.db && t.draft == s.draft && t.next == s.next
    requires s.writer != Some(j) ==> t.writer != Some(j)
    ensures ClientOk(t, j)
  {
    var p := s.clients[j].phase;
    var q := s.clients[j].request;
    if Acceptable(s.db.rows, q) {
      AcceptableStays(s.db.rows, t.db.rows, q);
    }
    if p.Done? && FoundUnder(s.db.rows, q, p.answer) {
      FoundStays(s.db.rows, t.db.rows, q, p.answer);
    }
  }

  lemma ArriveKeepsInv(s: System, q: Request)
    requires Inv(s)
    ensures Inv(Do(s, Arrive(q)))
  {
    var t := Do(s, Arrive(q));
    forall j | 0 <= j < |t.clients| ensures ClientOk(t, j) {
      if j < |s.clients| {
        assert ClientOk(s, j) && t.clients[j] == s.clients[j];
      }
    }
  }

  /** Only the holder of the lock writes, and only one client moves. */
  lemma OthersKeepTheirLock(s: System, a: Action, j: nat)
    requires Inv(s) && Enabled(s, a) && !a.Arrive? && j < |s.clients| && j != a.client
    ensures var t := Do(s, a);
      && |t.clients| == |s.clients| && t.clients[j] == s.clients[j]
      && (s.writer == Some(j) ==> t.writer == s.writer && t.db == s.db && t.draft == s.draft && t.next == s.next)
      && (s.writer != Some(j) ==> t.writer != Some(j))
  {
    assert ClientOk(s, a.client);
  }

  lemma ActionKeepsInv(s: System, a: Action)
    requires Inv(s) && Enabled(s, a)
    ensures Inv(Do(s, a)) && s.db.rows <= Do(s, a).db.rows
  {
    if a.Arrive? {
      ArriveKeepsInv(s, a.request);
    } else {
      var t := Do(s, a);
      StepIsOk(s, a);
      forall j | 0 <= j < |t.clients| ensures ClientOk(t, j) {
        if j != a.client {
          assert ClientOk(s, j);
          OthersKeepTheirLock(s, a, j);
          OthersStayOk(s, t, a.client, j);
        }
      }
    }
  }

  /** The acting client itself, and the committed database. */
  ghost predicate StepOk(s: System, a: Action)
    requires !a.Arrive? && a.client < |s.clients| && Enabled(s, a)
  {
    var t := Do(s, a);
    && Whole(t.db, t.next) && ClientOk(t, a.client) && s.db.rows <= t.db.rows
    && (t.writer.Some? ==> t.writer.value < |s.clients|)
  }

  lemma StepIsOk(s: System, a: Action)
    requires Inv(s) && Enabled(s, a) && !a.Arrive?
    ensures StepOk(s, a)
  {
    var i := a.client;
    assert ClientOk(s, i);
    match a
    case Check(_) =>
    case Lookup(_) => LookupIsOk(s, a);
    case Insert(_, _) => InsertIsOk(s, a);
    case Write(_, _) => WriteIsOk(s, a);
    case Reread(_) => LookupIsOk(s, a);
    case Commit(_) => CommitIsOk(s, a);
    case Fail(_) =>
  }

  lemma LookupIsOk(s: System, a: Action)
    requires Inv(s) && (a.Lookup? || a.Reread?) && Enabled(s, a)
    ensures StepOk(s, a)
  {
    assert ClientOk(s, a.client);
    var q := s.clients[a.client].request;
    var found := Find(s.db.rows, q.table, q.token);
    if found.Some? {
      assert FoundUnder(s.db.rows, q, Compare(found.value, q.hash));
    }
  }

  lemma InsertIsOk(s: System, a: Action)
    requires Inv(s) && a.Insert? && Enabled(s, a)
    ensures StepOk(s, a)
  {
    var t := Do(s, a);
    var q := s.clients[a.client].request;
    assert ClientOk(s, a.client);
    if Find(s.db.rows, q.table, q.token).None? {
      NewRowIsWhole(s, q, a.unresolved);
      var row := NewRow(q, s.next, a.unresolved);
      assert t.draft.(written := t.draft.written + Script(row))
          == Database(s.db.rows + [row], s.db.written + Script(row));
      assert IdentifiersUnique(s.db.rows, t.next);
    }
  }

  lemma WriteIsOk(s: System, a: Action)
    requires Inv(s) && a.Write? && Enabled(s, a)
    ensures StepOk(s, a)
  {
    assert ClientOk(s, a.client);
    var p := s.clients[a.client].phase;
    assert s.draft.written + [a.statement] + p.todo[1..] == s.draft.written + p.todo;
  }

  /** With nothing left of the script the draft is whole and extends the committed rows. */
  lemma DraftIsWhole(s: System, q: Request, row: Row)
    requires WritingOk(s, q, row, []) && Acceptable(s.db.rows, q)
    ensures Whole(s.draft, s.next) && s.db.rows <= s.draft.rows
    ensures AnswerOk(s.draft, q, Returned(row))
  {
    assert s.draft.written + [] == s.draft.written;
    AcceptableStays(s.db.rows, s.draft.rows, q);
    assert s.draft.rows[|s.db.rows|] == row;
    assert FoundUnder(s.draft.rows, q, Returned(row));
  }

  lemma CommitIsOk(s: System, a: Action)
    requires Inv(s) && a.Commit? && Enabled(s, a)
    ensures StepOk(s, a)
  {
    assert ClientOk(s, a.client);
    DraftIsWhole(s, s.clients[a.client].request, s.clients[a.client].phase.row);
  }

  ghost function Invariant(): System -> bool {
    (s: System) => Inv(s)
  }

  lemma NextKeepsInv()
    ensures ActionRuns.Keeps(Next(), Invariant())
  {
    forall s, a | Invariant()(s) && Next()(s, a).Some? ensures Invariant()(Next()(s, a).value) {
      ActionKeepsInv(s, a);
    }
  }

  lemma RunKeepsInv(actions: seq<Action>)
    requires Runs(INITIAL, actions)
    ensures Inv(After(INITIAL, actions))
  {
    NextKeepsInv();
    ActionRuns.RunKeeps(Next(), Invariant(), INITIAL, actions);
  }

  ghost function Extends(rows: seq<Row>): System -> bool {
    (s: System) => Inv(s) && rows <= s.db.rows
  }

  /** No run takes a committed row away or changes one. */
  lemma RowsOnlyGrow(s: System, actions: seq<Action>)
    requires Inv(s) && Runs(s, actions)
    ensures Inv(After(s, actions)) && s.db.rows <= After(s, actions).db.rows
  {
    var grown := Extends(s.db.rows);
    forall t, a | grown(t) && Next()(t, a).Some? ensures grown(Next()(t, a).value) {
      ActionKeepsInv(t, a);
    }
    ActionRuns.RunKeeps(Next(), grown, s, actions);
  }

  // ---- What every run gives ----

  lemma FindsTheOnlyRow(rows: seq<Row>, row: Row)
    requires TokensUnique(rows) && row in rows
    ensures Find(rows, row.table, row.token) == Some(row)
  {
    var found := Find(rows, row.table, row.token);
    var i :| 0 <= i < |rows| && rows[i] == row;
    var j :| 0 <= j < |rows| && rows[j] == found.value;
    assert i == j;
  }

  predicate Answered(s: System, i: nat) {
    i < |s.clients| && s.clients[i].phase.Done? && s.clients[i].phase.answer !in {Failed, Invalid}
  }

  /**
   In every interleaving there is at most one committed row per token, and a client that was not
   refused and did not fail was told exactly what that row says: the row itself if its digest is the
   client's, a conflict if it is another.
   */
  lemma AnswersAreDetermined(actions: seq<Action>, i: nat)
    requires Runs(INITIAL, actions)
    ensures TokensUnique(After(INITIAL, actions).db.rows)
    ensures
      var s := After(INITIAL, actions);
      Answered(s, i) ==>
        var q := s.clients[i].request;
        var found := Find(s.db.rows, q.table, q.token);
        found.Some? && s.clients[i].phase.answer == Compare(found.value, q.hash)
  {
    RunKeepsInv(actions);
    var s := After(INITIAL, actions);
    if Answered(s, i) {
      assert ClientOk(s, i);
      var q := s.clients[i].request;
      var row :| row in s.db.rows && row.table == q.table && row.token == q.token
                 && s.clients[i].phase.answer == Compare(row, q.hash);
      FindsTheOnlyRow(s.db.rows, row);
    }
  }

  /** In every interleaving each run that a committed approval names is itself committed. */
  lemma ApprovalsNameRecordedRuns(actions: seq<Action>)
    requires Runs(INITIAL, actions)
    ensures RunsRecorded(After(INITIAL, actions).db.rows)
  {
    RunKeepsInv(actions);
  }

  /** Two answered clients of one token: the same record for the same digest, never two records. */
  lemma SameTokenSameRecord(actions: seq<Action>, i: nat, j: nat)
    requires Runs(INITIAL, actions)
    requires
      var s := After(INITIAL, actions);
      && Answered(s, i) && Answered(s, j)
      && s.clients[i].request.table == s.clients[j].request.table
      && s.clients[i].request.token == s.clients[j].request.token
    ensures
      var s := After(INITIAL, actions);
      var (a, b) := (s.clients[i].phase.answer, s.clients[j].phase.answer);
      && (s.clients[i].request.hash == s.clients[j].request.hash ==> a == b)
      && (a.Returned? && b.Returned? ==> a == b)
      && (a.Returned? && s.clients[i].request.hash != s.clients[j].request.hash ==> b == Conflict)
  {
    AnswersAreDetermined(actions, i);
    AnswersAreDetermined(actions, j);
  }

  /** The audit events of one kind, in order. */
  function Announced(written: seq<Statement>, kind: string): seq<Statement> {
    if written == [] then []
    else (if written[0].AuditEvent? && written[0].kind == kind then [written[0]] else [])
         + Announced(written[1..], kind)
  }

  /** The events of one kind that the committed rows call for, one row after the other. */
  function CalledFor(rows: seq<Row>, kind: string): seq<Statement> {
    if rows == [] then []
    else
      var row := rows[|rows| - 1];
      CalledFor(rows[..|rows| - 1], kind)
      + if || (kind == "run_created" && row.table.StageRuns?)
           || (kind == "approval_created" && row.table.Approvals?)
           || (kind == "reconciliation_divergence" && row.table.Approvals? && row.finding.Some?)
        then [AuditEvent(kind, row.uuid, row.hash)] else []
  }

  lemma {:induction false} AnnouncedAppend(w: seq<Statement>, v: seq<Statement>, kind: string)
    ensures Announced(w + v, kind) == Announced(w, kind) + Announced(v, kind)
  {
    if w == [] {
      assert w + v == v;
    } else {
      var head := if w[0].AuditEvent? && w[0].kind == kind then [w[0]] else [];
      AnnouncedAppend(w[1..], v, kind);
      CutSum(w, v, 1);
      Associative(head, Announced(w[1..], kind), Announced(v, kind));
    }
  }

  lemma {:induction false} ValidationsAnnounceNothing(run: nat, n: nat, first: nat, kind: string)
    ensures Announced(seq(n, (k: nat) => ValidationRow(run, first + k)), kind) == []
    decreases n
  {
    if n > 0 {
      var all := seq(n, (k: nat) => ValidationRow(run, first + k));
      assert all[1..] == seq(n - 1, (k: nat) => ValidationRow(run, first + 1 + k));
      ValidationsAnnounceNothing(run, n - 1, first + 1, kind);
    }
  }

  lemma ScriptAnnounces(row: Row, kind: string)
    ensures Announced(Script(row), kind) == CalledFor([row], kind)
  {
    if row.table.StageRuns? {
      var rows := seq(row.validations, (k: nat) => ValidationRow(row.uuid, k));
      assert rows == seq(row.validations, (k: nat) => ValidationRow(row.uuid, 0 + k));
      ValidationsAnnounceNothing(row.uuid, row.validations, 0, kind);
      AnnouncedAppend(rows, [AuditEvent("run_created", row.uuid, row.hash)], kind);
    } else {
      var created := AuditEvent("approval_created", row.uuid, row.hash);
      if row.finding.Some? {
        var divergence := AuditEvent("reconciliation_divergence", row.uuid, row.hash);
        assert Divergence(row) == [FindingRow(row.finding.value, row.uuid)] + [divergence];
        AnnouncedAppend([created], Divergence(row), kind);
        AnnouncedAppend([FindingRow(row.finding.value, row.uuid)], [divergence], kind);
      }
    }
    assert [row][..0] == [];
  }

  lemma {:induction false} ScriptsAnnounce(rows: seq<Row>, kind: string)
    ensures Announced(Scripts(rows), kind) == CalledFor(rows, kind)
  {
    if rows != [] {
      var front, row := rows[..|rows| - 1], rows[|rows| - 1];
      ScriptsAnnounce(front, kind);
      ScriptAnnounces(row, kind);
      AnnouncedAppend(Scripts(front), Script(row), kind);
      assert [row][..0] == [];
    }
  }

  /**
   The committed events of each kind are those of the committed rows, one for one and in the same
   order: no creation without its event, no event without its creation, none from a rolled-back
   attempt and none for a replayed token.
   */
  lemma EventsAreExactlyTheCreations(actions: seq<Action>, kind: string)
    requires Runs(INITIAL, actions)
    ensures var db := After(INITIAL, actions).db; Announced(db.written, kind) == CalledFor(db.rows, kind)
  {
    RunKeepsInv(actions);
    ScriptsAnnounce(After(INITIAL, actions).db.rows, kind);
  }

  // ---- The two creating functions ----

  ghost predicate Reachable(s: System) {
    ActionRuns.Reachable(Next(), INITIAL, s)
  }

  lemma ReachableHasInv(s: System)
    requires Reachable(s)
    ensures Inv(s)
  {
    NextKeepsInv();
    ActionRuns.ReachableKeeps(Next(), Invariant(), INITIAL, s);
  }

  /** What an answer must say of the committed rows, unless the call failed. */
  predicate Tells(rows: seq<Row>, q: Request, answer: Answer) {
    match answer
    case Failed => true
    case Invalid => !q.wellFormed || (q.table.Approvals? && q.run.Some?)
    case _ =>
      Acceptable(rows, q)
      && var found := Find(rows, q.table, q.token); found.Some? && answer == Compare(found.value, q.hash)
  }

  lemma AnswerTells(db: Database, q: Request, answer: Answer)
    requires TokensUnique(db.rows) && AnswerOk(db, q, answer)
    ensures Tells(db.rows, q, answer)
  {
    if answer !in {Failed, Invalid} {
      var row :| row in db.rows && row.table == q.table && row.token == q.token && answer == Compare(row, q.hash);
      FindsTheOnlyRow(db.rows, row);
    }
  }

  /**
   A call nothing disturbs: an unacceptable payload and a known token change nothing, a new token
   adds its row and its inserts.
   */
  predicate Served(before: Database, after: Database, q: Request, unresolved: bool, answer: Answer) {
    if !Acceptable(before.rows, q) then answer == Invalid && after == before
    else match Find(before.rows, q.table, q.token)
    case Some(row) => answer == Compare(row, q.hash) && after == before
    case None =>
      && answer.Returned? && answer.row == NewRow(q, answer.row.uuid, unresolved)
      && after == Database(before.rows + [answer.row], before.written + Script(answer.row))
  }

  /** Holding the lock over db, a new row and the inserts made so far, todo still to come. */
  predicate Drafted(s: System, db: Database, row: Row, todo: seq<Statement>) {
    s.db == db && s.draft.rows == db.rows + [row] && s.draft.written + todo == db.written + Script(row)
  }

  /**
   The database as one creating call meets it, other clients being served in between. A quiet call
   is one in which no statement fails and no other client is served.
   */
  class Store {
    var system: System

    ghost predicate Valid()
      reads this
    {
      Reachable(system)
    }

    constructor ()
      ensures Valid() && system == INITIAL
    {
      system := INITIAL;
      new;
      ActionRuns.ReachableFromStart(Next(), INITIAL);
    }

    /** Client me is served q and stands in the given phase. */
    predicate At(me: nat, q: Request, phase: Phase)
      reads this
    {
      me < |system.clients| && system.clients[me] == Client(q, phase)
    }

    method Step(a: Action)
      requires Valid() && Enabled(system, a)
      modifies this
      ensures Valid() && system == Do(old(system), a) && old(system.db.rows) <= system.db.rows
    {
      ActionRuns.ReachableStep(Next(), INITIAL, system, a);
      ReachableHasInv(system);
      ActionKeepsInv(system, a);
      system := Do(system, a);
    }

    /** Any number of steps of any other clients, new ones included. */
    method Others(quiet: bool, me: nat, q: Request, phase: Phase)
      requires Valid() && At(me, q, phase)
      modifies this
      ensures Valid() && At(me, q, phase) && old(system.db.rows) <= system.db.rows
      ensures quiet ==> system == old(system)
    {
      if quiet {
        return;
      }
      var n: nat := *;
      while n > 0
        invariant Valid() && At(me, q, phase) && old(system.db.rows) <= system.db.rows
      {
        var a: Action := *;
        if Enabled(system, a) && !By(a, me) {
          StepLeavesOthers(system, a, me);
          Step(a);
        }
        n := n - 1;
      }
    }

    method GiveUp(me: nat, q: Request, phase: Phase) returns (answer: Answer)
      requires Valid() && At(me, q, phase) && !phase.Done?
      modifies this
      ensures Valid() && answer == Failed && old(system.db.rows) <= system.db.rows
    {
      Step(Fail(me));
      answer := Failed;
    }

    /** The client's answer, once it has one. */
    method AnswerOf(me: nat, q: Request) returns (answer: Answer)
      requires Valid() && me < |system.clients| && system.clients[me].request == q && system.clients[me].phase.Done?
      ensures answer == system.clients[me].phase.answer && Tells(system.db.rows, q, answer)
    {
      answer := system.clients[me].phase.answer;
      ReachableHasInv(system);
      assert ClientOk(system, me);
      AnswerTells(system.db, q, answer);
    }

    /** A new call, up to the check of its payload. */
    method CheckPayload(quiet: bool, q: Request) returns (me: nat, answer: Option<Answer>)
      requires Valid()
      modifies this
      ensures Valid() && old(system.db.rows) <= system.db.rows
      ensures answer == None ==> At(me, q, Checked)
      ensures answer.Some? ==> answer.value == Invalid && Tells(system.db.rows, q, Invalid)
      ensures quiet ==>
        && system.db == old(system.db) && system.writer == old(system.writer)
        && (answer == None <==> Acceptable(system.db.rows, q))
    {
      me, answer := |system.clients|, None;
      Step(Arrive(q));
      Others(quiet, me, q, Arrived);
      Step(Check(me));
      if system.clients[me].phase.Done? {
        var invalid := AnswerOf(me, q);
        answer := Some(invalid);
      } else {
        Others(quiet, me, q, Checked);
      }
    }

    /** The payload check and the lookup, before anything is written. */
    method LookUp(quiet: bool, q: Request) returns (me: nat, answer: Option<Answer>)
      requires Valid()
      modifies this
      ensures Valid() && old(system.db.rows) <= system.db.rows
      ensures answer == None ==> At(me, q, Missed)
      ensures quiet ==>
        && system.db == old(system.db) && system.writer == old(system.writer)
        && (answer == None <==> Acceptable(system.db.rows, q) && Find(system.db.rows, q.table, q.token) == None)
        && (answer.Some? && Acceptable(system.db.rows, q) ==> answer.value != Invalid)
        && (!Acceptable(system.db.rows, q) ==> answer == Some(Invalid))
      ensures answer.Some? ==> answer.value != Failed && Tells(system.db.rows, q, answer.value)
    {
      me, answer := CheckPayload(quiet, q);
      if answer.Some? {
        return;
      }
      Step(Lookup(me));
      if system.clients[me].phase.Done? {
        var told := AnswerOf(me, q);
        answer := Some(told);
      } else {
        Others(quiet, me, q, Missed);
      }
    }

    /** INSERT OR IGNORE, and the second lookup when the row was ignored. */
    method InsertOrIgnore(quiet: bool, me: nat, q: Request, unresolved: bool) returns (claim: Result<Row, Answer>)
      requires Valid() && At(me, q, Missed)
      requires unresolved ==> q.table.Approvals? && q.namesCommit
      modifies this
      ensures Valid() && old(system.db.rows) <= system.db.rows
      ensures claim.Ok? ==> claim.value == NewRow(q, claim.value.uuid, unresolved)
                            && At(me, q, Writing(claim.value, Script(claim.value)))
      ensures claim.Err? ==> Tells(system.db.rows, q, claim.error)
      ensures quiet && old(system.writer) == None && Find(old(system.db.rows), q.table, q.token) == None ==>
        claim.Ok? && Drafted(system, old(system.db), claim.value, Script(claim.value))
    {
      if system.writer != None {
        var failed := GiveUp(me, q, Missed);  // the lock was not released before the busy timeout
        return Err(failed);
      }
      Step(Insert(me, unresolved));
      if system.clients[me].phase.Writing? {
        claim := Ok(system.clients[me].phase.row);
      } else {
        Step(Reread(me));
        var told := AnswerOf(me, q);
        claim := Err(told);
      }
    }

    /** One more statement of the open transaction, which may fail. */
    method Execute(quiet: bool, me: nat, q: Request, row: Row, w: Statement, rest: seq<Statement>) returns (ok: bool)
      requires Valid() && At(me, q, Writing(row, [w] + rest))
      modifies this
      ensures Valid() && old(system.db.rows) <= system.db.rows
      ensures ok ==> At(me, q, Writing(row, rest))
      ensures quiet ==> ok
      ensures quiet && Drafted(old(system), old(system.db), row, [w] + rest) ==>
        Drafted(system, old(system.db), row, rest)
    {
      Associative(system.draft.written, [w], rest);
      assert ([w] + rest)[1..] == rest;
      ok := *;
      ok := ok || quiet;
      if ok {
        Step(Write(me, w));
        Others(quiet, me, q, Writing(row, rest));
      } else {
        var _ := GiveUp(me, q, Writing(row, [w] + rest));
      }
    }

    /** The divergence finding of an approval whose commit does not resolve, and its event. */
    method InsertDivergence(quiet: bool, me: nat, q: Request, row: Row) returns (ok: bool)
      requires Valid() && row.finding.Some? && At(me, q, Writing(row, Divergence(row)))
      modifies this
      ensures Valid() && old(system.db.rows) <= system.db.rows
      ensures ok ==> At(me, q, Writing(row, []))
      ensures quiet ==> ok
      ensures quiet && Drafted(old(system), old(system.db), row, Divergence(row)) ==>
        Drafted(system, old(system.db), row, [])
    {
      var event := AuditEvent("reconciliation_divergence", row.uuid, row.hash);
      assert Divergence(row) == [FindingRow(row.finding.value, row.uuid)] + [event] && [event] == [event] + [];
      ok := Execute(quiet, me, q, row, FindingRow(row.finding.value, row.uuid), [event]);
      if ok {
        ok := Execute(quiet, me, q, row, event, []);
      }
    }

    method Finish(quiet: bool, me: nat, q: Request, row: Row) returns (answer: Answer)
      requires Valid() && At(me, q, Writing(row, []))
      modifies this
      ensures Valid() && old(system.db.rows) <= system.db.rows && Tells(system.db.rows, q, answer)
      ensures quiet ==> answer == Returned(row) && system.db == old(system.draft)
    {
      var fault: bool := *;
      if fault && !quiet {
        answer := GiveUp(me, q, Writing(row, []));
      } else {
        Step(Commit(me));
        answer := AnswerOf(me, q);
      }
    }

    /**
     However the other clients interleave with it, the call never takes a committed row away, and
     unless it fails it answers with the one row its token has. A quiet call that finds the lock
     free never fails.
     */
    method CreateRun(quiet: bool, q: Request) returns (answer: Answer)
      requires Valid() && q.table.StageRuns?
      modifies this
      ensures Valid() && old(system.db.rows) <= system.db.rows && Tells(system.db.rows, q, answer)
      ensures quiet && old(system.writer) == None ==> Served(old(system.db), system.db, q, false, answer)
    {
      var me, seen := LookUp(quiet, q);
      if seen.Some? {
        return seen.value;
      }
      var claim := InsertOrIgnore(quiet, me, q, false);
      if claim.Err? {
        return claim.error;
      }
      var row := claim.value;
      for ordinal := 0 to q.validations
        invariant Valid() && At(me, q, Writing(row, Script(row)[ordinal..])) && old(system.db.rows) <= system.db.rows
        invariant quiet && old(system.writer) == None ==> Drafted(system, old(system.db), row, Script(row)[ordinal..])
      {
        assert Script(row)[ordinal..] == [ValidationRow(row.uuid, ordinal)] + Script(row)[ordinal + 1..];
        var ok := Execute(quiet, me, q, row, ValidationRow(row.uuid, ordinal), Script(row)[ordinal + 1..]);
        if !ok {
          return Failed;
        }
      }
      assert Script(row)[q.validations..] == [AuditEvent("run_created", row.uuid, row.hash)] + [];
      var ok := Execute(quiet, me, q, row, AuditEvent("run_created", row.uuid, row.hash), []);
      if !ok {
        return Failed;
      }
      answer := Finish(quiet, me, q, row);
    }

    /** resolves is what git says of the target commit; None when it cannot tell, which ends the call. */
    method CreateApproval(quiet: bool, q: Request, resolves: Option<bool>) returns (answer: Answer)
      requires Valid() && q.table.Approvals?
      modifies this
      ensures Valid() && old(system.db.rows) <= system.db.rows && Tells(system.db.rows, q, answer)
      ensures quiet && old(system.writer) == None && (q.namesCommit ==> resolves.Some?) ==>
        Served(old(system.db), system.db, q, q.namesCommit && !resolves.value, answer)
    {
      var me, seen := LookUp(quiet, q);
      if seen.Some? {
        return seen.value;
      }
      if q.namesCommit && resolves == None {
        answer := GiveUp(me, q, Missed);
        return;
      }
      var unresolved := q.namesCommit && !resolves.value;
      var claim := InsertOrIgnore(quiet, me, q, unresolved);
      if claim.Err? {
        return claim.error;
      }
      var row := claim.value;
      var ok := Execute(quiet, me, q, row, AuditEvent("approval_created", row.uuid, row.hash), Divergence(row));
      if ok && unresolved {
        ok := InsertDivergence(quiet, me, q, row);
      }
      if !ok {
        return Failed;
      }
      answer := Finish(quiet, me, q, row);
    }
  }
}
