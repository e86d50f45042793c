/**
 inspect_audit_mirror of agentos_dashboard/services/audit.py: the read-only comparison of the
 mirror file with the committed events, and what it can report after any run of the protocol.
 */
module MirrorInspection {
  import opened Support
  import opened MirrorLines
  import opened MirrorProtocol

  const MAX_LINES: nat := 100000
  const MAX_LINE_BYTES: nat := 1000000
  const MAX_ISSUES: nat := 100

  datatype Issue =
    | FileMissing | LineBound | TooLong(line: nat) | Truncated(line: nat) | MalformedLine(line: nat)
    | NoEventUuid(line: nat) | Duplicated(uuid: string) | Orphan(uuid: string)
    | Differs(uuid: string) | MissingLine(uuid: string) | Omitted

  // ---- What the reader has before it ----

  predicate InBounds(lines: seq<seq<Byte>>, i: int) {
    0 <= i < |lines| && i < MAX_LINES && |lines[i]| <= MAX_LINE_BYTES
  }

  /** Line i, within the bounds, decodes to this event. */
  ghost predicate RecordAt(c: Codec, lines: seq<seq<Byte>>, i: int, e: Event) {
    InBounds(lines, i) && c.decode(lines[i]) == Record(e)
  }

  ghost predicate Mentions(c: Codec, lines: seq<seq<Byte>>, uuid: string) {
    exists i, e :: RecordAt(c, lines, i, e) && e.uuid == uuid
  }

  /** Line i is complete, within the bounds and decodes to an event no other line carries. */
  ghost predicate FineLine(c: Codec, lines: seq<seq<Byte>>, i: int) {
    && InBounds(lines, i) && Terminated(lines[i]) && c.decode(lines[i]).Record?
    && forall j, e :: 0 <= j < i && RecordAt(c, lines, j, e) ==> e.uuid != c.decode(lines[i]).event.uuid
  }

  /** Line i is the first to carry the identifier of its event. */
  ghost predicate FirstRecord(c: Codec, lines: seq<seq<Byte>>, i: int, e: Event) {
    RecordAt(c, lines, i, e) && forall j, f :: 0 <= j < i && RecordAt(c, lines, j, f) ==> f.uuid != e.uuid
  }

  /** The mirror's lines are, one for one, the committed events. */
  ghost predicate CoherentLines(c: Codec, rows: seq<Event>, lines: seq<seq<Byte>>) {
    && (forall i :: 0 <= i < |lines| ==> FineLine(c, lines, i) && c.decode(lines[i]).event in rows)
    && forall e :: e in rows ==> exists i :: RecordAt(c, lines, i, e)
  }

  /** How one of the first n lines can deviate. */
  ghost predicate LineDeviates(c: Codec, lines: seq<seq<Byte>>, n: int, issue: Issue) {
    match issue
    case TooLong(k) => 1 <= k <= n && k <= |lines| && k <= MAX_LINES && |lines[k - 1]| > MAX_LINE_BYTES
    case Truncated(k) => k <= n && InBounds(lines, k - 1) && !Terminated(lines[k - 1])
    case MalformedLine(k) => k <= n && InBounds(lines, k - 1) && c.decode(lines[k - 1]).Malformed?
    case NoEventUuid(k) => k <= n && InBounds(lines, k - 1) && c.decode(lines[k - 1]).NoUuid?
    case Duplicated(uuid) =>
      exists i, j, e, f :: i < j < n && RecordAt(c, lines, i, e) && RecordAt(c, lines, j, f) && e.uuid == f.uuid == uuid
    case _ => false
  }

  /** How the mirror can deviate from the committed rows. */
  ghost predicate Deviates(c: Codec, rows: seq<Event>, lines: seq<seq<Byte>>, issue: Issue) {
    match issue
    case LineBound => |lines| > MAX_LINES
    case Orphan(uuid) => Mentions(c, lines, uuid) && forall e :: e in rows ==> e.uuid != uuid
    case Differs(uuid) =>
      exists i, e, f :: FirstRecord(c, lines, i, e) && f in rows && e.uuid == f.uuid == uuid && e != f
    case MissingLine(uuid) => (exists e :: e in rows && e.uuid == uuid) && !Mentions(c, lines, uuid)
    case FileMissing => false
    case Omitted => false
    case _ => LineDeviates(c, lines, |lines|, issue)
  }

  ghost predicate Carries(c: Codec, lines: seq<seq<Byte>>, i: int, uuid: string) {
    exists e :: RecordAt(c, lines, i, e) && e.uuid == uuid
  }

  /** How many of the first n lines carry the identifier. */
  ghost function Carriers(c: Codec, lines: seq<seq<Byte>>, n: nat, uuid: string): nat {
    if n == 0 then 0 else Carriers(c, lines, n - 1, uuid) + if Carries(c, lines, n - 1, uuid) then 1 else 0
  }

  /** Every line that carries the identifier but the first repeats it. */
  ghost function Repeats(c: Codec, lines: seq<seq<Byte>>, n: nat, uuid: string): nat {
    if Carriers(c, lines, n, uuid) == 0 then 0 else Carriers(c, lines, n, uuid) - 1
  }

  /** What has to be so for an issue to be reported. */
  ghost predicate Justified(c: Codec, rows: seq<Event>, lines: seq<seq<Byte>>, issue: Issue) {
    match issue
    case FileMissing => rows != [] && lines == []
    case Omitted => true
    case _ => Deviates(c, rows, lines, issue)
  }

  /** The report at its bound: all that was found, or the first hundred and the note that more was. */
  function Bounded(found: seq<Issue>): (issues: seq<Issue>)
    ensures |issues| <= MAX_ISSUES + 1
  {
    if |found| <= MAX_ISSUES then found else found[..MAX_ISSUES] + [Omitted]
  }

  // ---- The inspector ----

  /** found is all that has been found, whether it fits the report or not. */
  method AddIssue(ghost found: seq<Issue>, issues: seq<Issue>, issue: Issue) returns (r: seq<Issue>)
    requires issues == Bounded(found) && issue != Omitted && Omitted !in found
    ensures r == Bounded(found + [issue]) && Omitted !in found + [issue]
  {
    if |issues| < MAX_ISSUES {
      r := issues + [issue];
    } else if |issues| == MAX_ISSUES {
      r := issues + [Omitted];
    } else {
      r := issues;
    }
  }

  /** Everything seen so far, keyed by identifier, is the first record with that identifier. */
  ghost predicate SeenSoFar(c: Codec, lines: seq<seq<Byte>>, n: int, seen: map<string, Event>) {
    && (forall u :: u in seen ==>
          seen[u].uuid == u && exists i :: 0 <= i < n && FirstRecord(c, lines, i, seen[u]))
    && forall i, e :: 0 <= i < n && RecordAt(c, lines, i, e) ==> e.uuid in seen
  }

  /** Nothing is found twice but an identifier that is repeated more than once. */
  ghost predicate FoundOnce(found: seq<Issue>) {
    forall i, j :: 0 <= i < j < |found| && found[i] == found[j] ==> found[i].Duplicated?
  }

  /** An identifier is listed once for every line that repeats it. */
  ghost predicate RepeatsCounted(c: Codec, lines: seq<seq<Byte>>, n: nat, found: seq<Issue>) {
    forall u :: multiset(found)[Duplicated(u)] == Repeats(c, lines, n, u)
  }

  /** All that the first n lines have shown is found. */
  ghost predicate FoundInLines(c: Codec, lines: seq<seq<Byte>>, n: nat, found: seq<Issue>) {
    && FoundOnce(found) && RepeatsCounted(c, lines, n, found)
    && forall x :: x in found <==> LineDeviates(c, lines, n, x)
  }

  /** The issues of line n alone. */
  ghost predicate IssueOfLine(c: Codec, lines: seq<seq<Byte>>, n: nat, seen: map<string, Event>, issue: Issue) {
    match issue
    case TooLong(k) => k == n + 1 && n < |lines| && n < MAX_LINES && |lines[n]| > MAX_LINE_BYTES
    case Truncated(k) => k == n + 1 && InBounds(lines, n) && !Terminated(lines[n])
    case MalformedLine(k) => k == n + 1 && InBounds(lines, n) && c.decode(lines[n]).Malformed?
    case NoEventUuid(k) => k == n + 1 && InBounds(lines, n) && c.decode(lines[n]).NoUuid?
    case Duplicated(uuid) => (exists e :: RecordAt(c, lines, n, e) && e.uuid == uuid) && uuid in seen
    case _ => false
  }

  lemma DuplicateOfLine(c: Codec, lines: seq<seq<Byte>>, n: nat, seen: map<string, Event>, uuid: string)
    requires SeenSoFar(c, lines, n, seen)
    ensures LineDeviates(c, lines, n + 1, Duplicated(uuid)) <==>
      LineDeviates(c, lines, n, Duplicated(uuid)) || IssueOfLine(c, lines, n, seen, Duplicated(uuid))
  {
    if IssueOfLine(c, lines, n, seen, Duplicated(uuid)) {
      var i :| 0 <= i < n && FirstRecord(c, lines, i, seen[uuid]);
      assert i < n < n + 1 && RecordAt(c, lines, i, seen[uuid]);
    }
  }

  /** One more line shows its own issues. */
  lemma OneMoreLine(c: Codec, lines: seq<seq<Byte>>, n: nat, seen: map<string, Event>)
    requires SeenSoFar(c, lines, n, seen)
    ensures forall x :: LineDeviates(c, lines, n + 1, x) <==>
      LineDeviates(c, lines, n, x) || IssueOfLine(c, lines, n, seen, x)
  {
    forall x ensures LineDeviates(c, lines, n + 1, x) <==>
      LineDeviates(c, lines, n, x) || IssueOfLine(c, lines, n, seen, x)
    {
      match x
      case Duplicated(uuid) => DuplicateOfLine(c, lines, n, seen, uuid);
      case _ =>
    }
  }

  /** added is what line n shows. */
  ghost predicate ShowsLine(c: Codec, lines: seq<seq<Byte>>, n: nat, seen: map<string, Event>, added: seq<Issue>) {
    && (forall i, j :: 0 <= i < j < |added| ==> added[i] != added[j])
    && forall x :: x in added <==> IssueOfLine(c, lines, n, seen, x)
  }

  /** An identifier has been seen exactly if a line carries it. */
  lemma {:induction false} SeenIsCarried(c: Codec, lines: seq<seq<Byte>>, n: nat, uuid: string)
    ensures Carriers(c, lines, n, uuid) > 0 <==> exists i :: 0 <= i < n && Carries(c, lines, i, uuid)
  {
    if n > 0 {
      SeenIsCarried(c, lines, n - 1, uuid);
    }
  }

  lemma CarriedIsSeen(c: Codec, lines: seq<seq<Byte>>, n: nat, seen: map<string, Event>, uuid: string)
    requires SeenSoFar(c, lines, n, seen)
    ensures uuid in seen <==> Carriers(c, lines, n, uuid) > 0
  {
    SeenIsCarried(c, lines, n, uuid);
    if uuid in seen {
      var i :| 0 <= i < n && FirstRecord(c, lines, i, seen[uuid]);
      assert Carries(c, lines, i, uuid);
    }
    if i :| 0 <= i < n && Carries(c, lines, i, uuid) {
      var e :| RecordAt(c, lines, i, e) && e.uuid == uuid;
    }
  }

  lemma CountOfSum(a: seq<Issue>, b: seq<Issue>, x: Issue)
    ensures multiset(a + b)[x] == multiset(a)[x] + multiset(b)[x]
  {
  }

  lemma {:induction false} CountOfDistinct(s: seq<Issue>, x: Issue)
    requires forall i, j :: 0 <= i < j < |s| ==> s[i] != s[j]
    ensures multiset(s)[x] == if x in s then 1 else 0
  {
    if s != [] {
      var front, last := s[..|s| - 1], s[|s| - 1];
      assert s == front + [last];
      CountOfDistinct(front, x);
      CountOfSum(front, [last], x);
    }
  }

  lemma CountedWithLine(
    c: Codec, lines: seq<seq<Byte>>, n: nat, seen: map<string, Event>, found: seq<Issue>, added: seq<Issue>)
    requires SeenSoFar(c, lines, n, seen) && RepeatsCounted(c, lines, n, found)
    requires ShowsLine(c, lines, n, seen, added)
    ensures RepeatsCounted(c, lines, n + 1, found + added)
  {
    forall u ensures multiset(found + added)[Duplicated(u)] == Repeats(c, lines, n + 1, u) {
      CountOfSum(found, added, Duplicated(u));
      CountOfDistinct(added, Duplicated(u));
      CarriedIsSeen(c, lines, n, seen, u);
      assert Duplicated(u) in added <==> Carries(c, lines, n, u) && u in seen;
    }
  }

  lemma FoundWithLine(
    c: Codec, lines: seq<seq<Byte>>, n: nat, seen: map<string, Event>, found: seq<Issue>, added: seq<Issue>)
    requires SeenSoFar(c, lines, n, seen) && FoundInLines(c, lines, n, found) && ShowsLine(c, lines, n, seen, added)
    ensures FoundInLines(c, lines, n + 1, found + added)
  {
    OneMoreLine(c, lines, n, seen);
    CountedWithLine(c, lines, n, seen, found, added);
    forall i, j | 0 <= i < j < |found + added| && (found + added)[i] == (found + added)[j]
      ensures (found + added)[i].Duplicated?
    {
      var x := (found + added)[i];
      if i < |found| && j >= |found| {
        assert x in found && x in added;
      }
    }
  }

  /** What one line within the bounds shows, and what is seen with it. */
  ghost predicate IsShown(
    c: Codec, raw: seq<Byte>, n: nat, seen: map<string, Event>, added: seq<Issue>, after: map<string, Event>)
  {
    var cut := if Terminated(raw) then [] else [Truncated(n + 1)];
    match c.decode(raw)
    case Malformed => added == cut + [MalformedLine(n + 1)] && after == seen
    case NoUuid => added == cut + [NoEventUuid(n + 1)] && after == seen
    case Record(e) =>
      if e.uuid in seen then added == cut + [Duplicated(e.uuid)] && after == seen
      else added == cut && after == seen[e.uuid := e]
  }

  lemma LineIsShown(
    c: Codec, lines: seq<seq<Byte>>, n: nat, seen: map<string, Event>, added: seq<Issue>, after: map<string, Event>)
    requires InBounds(lines, n) && IsShown(c, lines[n], n, seen, added, after)
    ensures ShowsLine(c, lines, n, seen, added)
  {
    match c.decode(lines[n])
    case Record(e) => assert RecordAt(c, lines, n, e);
    case _ =>
  }

  lemma SeenWithLine(c: Codec, lines: seq<seq<Byte>>, n: nat, seen: map<string, Event>, after: map<string, Event>)
    requires InBounds(lines, n) && SeenSoFar(c, lines, n, seen)
    requires exists added :: IsShown(c, lines[n], n, seen, added, after)
    ensures SeenSoFar(c, lines, n + 1, after)
  {
    forall u | u in after ensures exists i :: 0 <= i < n + 1 && FirstRecord(c, lines, i, after[u]) {
      if u in seen {
        var i :| 0 <= i < n && FirstRecord(c, lines, i, seen[u]);
        assert FirstRecord(c, lines, i, after[u]);
      } else {
        assert FirstRecord(c, lines, n, after[u]);
      }
    }
  }

  method InspectLine(
    c: Codec, raw: seq<Byte>, n: nat, ghost found: seq<Issue>, issues: seq<Issue>, seen: map<string, Event>)
    returns (ghost added: seq<Issue>, newIssues: seq<Issue>, newSeen: map<string, Event>)
    requires Omitted !in found && issues == Bounded(found)
    ensures IsShown(c, raw, n, seen, added, newSeen) && newIssues == Bounded(found + added)
  {
    added := [];
    newIssues, newSeen := issues, seen;
    assert found + [] == found;
    if !Terminated(raw) {
      newIssues := AddIssue(found, newIssues, Truncated(n + 1));
      added := [Truncated(n + 1)];
    }
    match c.decode(raw) {
      case Malformed =>
        newIssues := AddIssue(found + added, newIssues, MalformedLine(n + 1));
        assert found + added + [MalformedLine(n + 1)] == found + (added + [MalformedLine(n + 1)]);
        added := added + [MalformedLine(n + 1)];
      case NoUuid =>
        newIssues := AddIssue(found + added, newIssues, NoEventUuid(n + 1));
        assert found + added + [NoEventUuid(n + 1)] == found + (added + [NoEventUuid(n + 1)]);
        added := added + [NoEventUuid(n + 1)];
      case Record(e) =>
        if e.uuid in seen {
          newIssues := AddIssue(found + added, newIssues, Duplicated(e.uuid));
          assert found + added + [Duplicated(e.uuid)] == found + (added + [Duplicated(e.uuid)]);
          added := added + [Duplicated(e.uuid)];
        } else {
          newSeen := seen[e.uuid := e];
        }
    }
  }

  /** One readline call: up to the terminator, the end of the file or the limit. */
  function ReadLine(rest: seq<Byte>, limit: nat): seq<Byte>
    requires rest != []
  {
    var n := LineEnd(rest);
    if n <= limit then rest[..n] else rest[..limit]
  }

  /** Reads on to the end of an oversized line. */
  method SkipLine(rest: seq<Byte>) returns (after: seq<Byte>)
    requires rest != [] && LineEnd(rest) > MAX_LINE_BYTES
    ensures after == rest[LineEnd(rest)..]
  {
    var raw := ReadLine(rest, MAX_LINE_BYTES + 1);
    after := rest[|raw|..];
    ghost var read := |raw|;
    while raw != [] && !Terminated(raw)
      invariant 0 < read <= LineEnd(rest) && after == rest[read..]
      invariant raw == [] ==> read == LineEnd(rest)
      invariant raw != [] ==> raw[|raw| - 1] == rest[read - 1]
      decreases |after|, |raw|
    {
      if after == [] {
        raw := [];
      } else {
        LineEndSuffix(rest, read);
        raw := ReadLine(after, MAX_LINE_BYTES + 1);
        after := after[|raw|..];
        read := read + |raw|;
      }
    }
  }

  lemma {:induction false} LineEndSuffix(b: seq<Byte>, n: nat)
    requires b != [] && n < LineEnd(b)
    ensures LineEnd(b[n..]) == LineEnd(b) - n
    decreases |b|
  {
    if n == 0 {
      assert b[0..] == b;
    } else {
      LineEndSuffix(b[1..], n - 1);
      assert b[1..][n - 1..] == b[n..];
    }
  }

  /** The committed rows keyed by their identifier, which is the table's primary key. */
  ghost predicate Keyed(rows: seq<Event>, expected: map<string, Event>) {
    && (forall u :: u in expected ==> expected[u] in rows && expected[u].uuid == u)
    && forall e :: e in rows ==> e.uuid in expected && expected[e.uuid] == e
  }

  /** What comparing the record seen under u with the rows shows. */
  ghost predicate IssueOfSeen(rows: seq<Event>, seen: map<string, Event>, u: string, issue: Issue) {
    u in seen &&
    match issue
    case Orphan(uuid) => uuid == u && forall e :: e in rows ==> e.uuid != u
    case Differs(uuid) => uuid == u && exists f :: f in rows && f.uuid == u && seen[u] != f
    case _ => false
  }

  /** What was found later is no repetition. */
  ghost predicate NoMoreRepeats(before: seq<Issue>, after: seq<Issue>) {
    before <= after && forall i :: |before| <= i < |after| ==> !after[i].Duplicated?
  }

  lemma RepeatsStay(c: Codec, lines: seq<seq<Byte>>, n: nat, before: seq<Issue>, after: seq<Issue>)
    requires NoMoreRepeats(before, after) && RepeatsCounted(c, lines, n, before)
    ensures RepeatsCounted(c, lines, n, after)
  {
    var more := after[|before|..];
    assert after == before + more;
    forall u ensures multiset(after)[Duplicated(u)] == Repeats(c, lines, n, u) {
      CountOfSum(before, more, Duplicated(u));
    }
  }

  method CompareSeen(
    rows: seq<Event>, expected: map<string, Event>, ghost found: seq<Issue>, issues: seq<Issue>,
    seen: map<string, Event>)
    returns (ghost newFound: seq<Issue>, newIssues: seq<Issue>)
    requires Keyed(rows, expected) && issues == Bounded(found) && FoundOnce(found)
    requires forall x :: x in found ==> !x.Omitted? && !x.Orphan? && !x.Differs? && !x.MissingLine?
    ensures newIssues == Bounded(newFound) && FoundOnce(newFound)
    ensures NoMoreRepeats(found, newFound)
    ensures forall x :: x in newFound <==> x in found || exists u :: IssueOfSeen(rows, seen, u, x)
  {
    newFound, newIssues := found, issues;
    var todo := seen.Keys;
    while todo != {}
      invariant todo <= seen.Keys && newIssues == Bounded(newFound) && FoundOnce(newFound)
      invariant NoMoreRepeats(found, newFound)
      invariant forall x :: x in newFound <==> x in found || exists u :: u !in todo && IssueOfSeen(rows, seen, u, x)
    {
      var u :| u in todo;
      ghost var before := newFound;
      newFound, newIssues := CompareOne(rows, expected, newFound, newIssues, seen, u);
      NewlyCompared(rows, seen, todo, u, found, before, newFound);
      todo := todo - {u};
    }
  }

  lemma NewlyCompared(
    rows: seq<Event>, seen: map<string, Event>, todo: set<string>, u: string,
    found: seq<Issue>, before: seq<Issue>, after: seq<Issue>)
    requires u in todo
    requires forall x :: x in before <==> x in found || exists v :: v !in todo && IssueOfSeen(rows, seen, v, x)
    requires forall x :: x in after <==> x in before || IssueOfSeen(rows, seen, u, x)
    ensures forall x :: x in after <==> x in found || exists v :: v !in todo - {u} && IssueOfSeen(rows, seen, v, x)
  {
    forall x ensures x in after <==> x in found || exists v :: v !in todo - {u} && IssueOfSeen(rows, seen, v, x) {
      if v :| v !in todo - {u} && IssueOfSeen(rows, seen, v, x) {
        assert v == u || v !in todo;
      }
    }
  }

  /** At most one issue, and a new one. */
  method CompareOne(
    rows: seq<Event>, expected: map<string, Event>, ghost found: seq<Issue>, issues: seq<Issue>,
    seen: map<string, Event>, u: string)
    returns (ghost newFound: seq<Issue>, newIssues: seq<Issue>)
    requires Keyed(rows, expected) && u in seen && issues == Bounded(found) && FoundOnce(found)
    requires Omitted !in found && Orphan(u) !in found && Differs(u) !in found
    ensures newIssues == Bounded(newFound) && FoundOnce(newFound) && NoMoreRepeats(found, newFound)
    ensures forall x :: x in newFound <==> x in found || IssueOfSeen(rows, seen, u, x)
  {
    newFound, newIssues := found, issues;
    if u !in expected {
      newIssues := AddIssue(found, issues, Orphan(u));
      newFound := found + [Orphan(u)];
    } else if seen[u] != expected[u] {
      newIssues := AddIssue(found, issues, Differs(u));
      newFound := found + [Differs(u)];
    }
    assert u in expected ==> forall f :: f in rows && f.uuid == u ==> f == expected[u];
  }

  method CompareMissing(
    rows: seq<Event>, expected: map<string, Event>, ghost found: seq<Issue>, issues: seq<Issue>,
    seen: map<string, Event>)
    returns (ghost newFound: seq<Issue>, newIssues: seq<Issue>)
    requires Keyed(rows, expected) && issues == Bounded(found) && FoundOnce(found)
    requires forall x :: x in found ==> !x.Omitted? && !x.MissingLine?
    ensures newIssues == Bounded(newFound) && FoundOnce(newFound) && Omitted !in newFound
    ensures NoMoreRepeats(found, newFound)
    ensures forall x :: x in newFound <==>
      x in found || (x.MissingLine? && x.uuid !in seen && exists e :: e in rows && e.uuid == x.uuid)
  {
    newFound, newIssues := found, issues;
    var missing := expected.Keys - seen.Keys;
    while missing != {}
      invariant missing <= expected.Keys - seen.Keys && newIssues == Bounded(newFound) && FoundOnce(newFound)
      invariant Omitted !in newFound && NoMoreRepeats(found, newFound)
      invariant forall x :: x in newFound <==>
        x in found || (x.MissingLine? && x.uuid in expected.Keys - seen.Keys && x.uuid !in missing)
    {
      var u :| u in missing;
      newIssues := AddIssue(newFound, newIssues, MissingLine(u));
      newFound := newFound + [MissingLine(u)];
      missing := missing - {u};
    }
    forall u ensures u in expected <==> exists e :: e in rows && e.uuid == u {
      assert u in expected ==> expected[u] in rows;
    }
  }

  lemma FirstSegment(rest: seq<Byte>, lines: seq<seq<Byte>>, n: nat)
    requires rest != [] && n <= |lines| && Segments(rest) == lines[n..]
    ensures n < |lines| && lines[n] == rest[..LineEnd(rest)]
    ensures Segments(rest[LineEnd(rest)..]) == lines[n + 1..]
  {
    assert lines[n..][0] == lines[n] && lines[n..][1..] == lines[n + 1..];
  }

  /** An oversized line is reported and skipped; any other is inspected. */
  method ReadOne(
    c: Codec, ghost lines: seq<seq<Byte>>, rest: seq<Byte>, n: nat,
    ghost found: seq<Issue>, issues: seq<Issue>, seen: map<string, Event>)
    returns (after: seq<Byte>, ghost newFound: seq<Issue>, newIssues: seq<Issue>, newSeen: map<string, Event>)
    requires rest != [] && n < |lines| && n < MAX_LINES && lines[n] == rest[..LineEnd(rest)]
    requires HasRead(c, lines, n, found, seen) && issues == Bounded(found)
    ensures after == rest[LineEnd(rest)..]
    ensures HasRead(c, lines, n + 1, newFound, newSeen) && newIssues == Bounded(newFound)
  {
    var raw := ReadLine(rest, MAX_LINE_BYTES + 1);
    if |raw| > MAX_LINE_BYTES {
      newIssues := AddIssue(found, issues, TooLong(n + 1));
      newFound := found + [TooLong(n + 1)];
      FoundWithLine(c, lines, n, seen, found, [TooLong(n + 1)]);
      newSeen := seen;
      after := SkipLine(rest);
    } else {
      ghost var added;
      assert Omitted !in found;
      added, newIssues, newSeen := InspectLine(c, raw, n, found, issues, seen);
      LineIsShown(c, lines, n, seen, added, newSeen);
      FoundWithLine(c, lines, n, seen, found, added);
      SeenWithLine(c, lines, n, seen, newSeen);
      newFound := found + added;
      after := rest[|raw|..];
    }
  }

  /** Reads the whole file, or as many lines as the bound allows. */
  method ReadMirror(c: Codec, file: seq<Byte>)
    returns (ghost found: seq<Issue>, issues: seq<Issue>, seen: map<string, Event>)
    ensures issues == Bounded(found) && FoundOnce(found)
    ensures SeenSoFar(c, Segments(file), |Segments(file)|, seen)
    ensures FoundInFile(c, Segments(file), found)
  {
    ghost var lines := Segments(file);
    found, issues, seen := [], [], map[];
    var rest := file;
    var n := 0;
    assert HasRead(c, lines, n, found, seen);
    while rest != []
      invariant 0 <= n <= |lines| && n <= MAX_LINES && Segments(rest) == lines[n..]
      invariant HasRead(c, lines, n, found, seen) && issues == Bounded(found)
      decreases |rest|
    {
      FirstSegment(rest, lines, n);
      if n + 1 > MAX_LINES {
        FoundWithBound(c, lines, found, seen);
        issues := AddIssue(found, issues, LineBound);
        found := found + [LineBound];
        return;
      }
      rest, found, issues, seen := ReadOne(c, lines, rest, n, found, issues, seen);
      n := n + 1;
    }
    AllRead(c, lines, found, seen);
  }

  /** What the first n lines leave behind. */
  ghost predicate HasRead(
    c: Codec, lines: seq<seq<Byte>>, n: nat, found: seq<Issue>, seen: map<string, Event>)
  {
    SeenSoFar(c, lines, n, seen) && FoundInLines(c, lines, n, found)
  }

  lemma AllRead(c: Codec, lines: seq<seq<Byte>>, found: seq<Issue>, seen: map<string, Event>)
    requires HasRead(c, lines, |lines|, found, seen) && |lines| <= MAX_LINES
    ensures FoundOnce(found) && SeenSoFar(c, lines, |lines|, seen) && FoundInFile(c, lines, found)
  {
  }

  /** All that the lines have shown is found, and that they are too many. */
  ghost predicate FoundInFile(c: Codec, lines: seq<seq<Byte>>, found: seq<Issue>) {
    && RepeatsCounted(c, lines, |lines|, found)
    && forall x :: x in found <==> LineDeviates(c, lines, |lines|, x) || (x == LineBound && |lines| > MAX_LINES)
  }

  lemma FoundWithBound(c: Codec, lines: seq<seq<Byte>>, found: seq<Issue>, seen: map<string, Event>)
    requires HasRead(c, lines, MAX_LINES, found, seen) && |lines| > MAX_LINES
    ensures SeenSoFar(c, lines, |lines|, seen)
    ensures Omitted !in found && FoundOnce(found + [LineBound]) && FoundInFile(c, lines, found + [LineBound])
  {
    NothingBehindTheBound(c, lines);
    assert LineBound !in found;
    forall u ensures multiset(found + [LineBound])[Duplicated(u)] == Repeats(c, lines, |lines|, u) {
      CountOfSum(found, [LineBound], Duplicated(u));
      NoneCarriedBehind(c, lines, |lines|, u);
    }
  }

  lemma {:induction false} NoneCarriedBehind(c: Codec, lines: seq<seq<Byte>>, n: nat, uuid: string)
    requires n >= MAX_LINES
    ensures Carriers(c, lines, n, uuid) == Carriers(c, lines, MAX_LINES, uuid)
    decreases n
  {
    if n > MAX_LINES {
      NoneCarriedBehind(c, lines, n - 1, uuid);
    }
  }

  lemma NothingBehindTheBound(c: Codec, lines: seq<seq<Byte>>)
    requires |lines| > MAX_LINES
    ensures forall x :: LineDeviates(c, lines, |lines|, x) <==> LineDeviates(c, lines, MAX_LINES, x)
  {
    forall x ensures LineDeviates(c, lines, |lines|, x) <==> LineDeviates(c, lines, MAX_LINES, x) {
      if x.Duplicated? && LineDeviates(c, lines, |lines|, x) {
        var i, j, e, f :|
          i < j < |lines| && RecordAt(c, lines, i, e) && RecordAt(c, lines, j, f) && e.uuid == f.uuid == x.uuid;
        assert j < MAX_LINES;
      }
    }
  }

  /** A report names every deviation and nothing else, each once or as often as it repeats, up to its bound. */
  ghost predicate IsReport(c: Codec, rows: seq<Event>, lines: seq<seq<Byte>>, issues: seq<Issue>) {
    exists found :: IsComplete(c, rows, lines, found) && issues == Bounded(found)
  }

  ghost predicate IsComplete(c: Codec, rows: seq<Event>, lines: seq<seq<Byte>>, found: seq<Issue>) {
    && FoundOnce(found) && RepeatsCounted(c, lines, |lines|, found)
    && forall x :: x in found <==> Deviates(c, rows, lines, x)
  }

  /**
   A report below its bound lists exactly the deviations, a repeated identifier once for every line that
   repeats it. The note that there are more comes last, once, and only if there are more.
   */
  lemma ReportIsComplete(c: Codec, rows: seq<Event>, lines: seq<seq<Byte>>, issues: seq<Issue>)
    requires IsReport(c, rows, lines, issues)
    ensures forall x :: x in issues && x != Omitted ==> Deviates(c, rows, lines, x)
    ensures forall i, j :: 0 <= i < j < |issues| && issues[i] == issues[j] ==> issues[i].Duplicated?
    ensures forall i :: 0 <= i < |issues| ==> (issues[i] == Omitted <==> i == MAX_ISSUES)
    ensures Omitted in issues <==> |issues| == MAX_ISSUES + 1
    ensures Omitted !in issues ==>
      && (forall x :: x in issues <==> Deviates(c, rows, lines, x))
      && forall u :: multiset(issues)[Duplicated(u)] == Repeats(c, lines, |lines|, u)
    ensures Omitted in issues ==> exists x :: Deviates(c, rows, lines, x) && IsCutShort(c, lines, issues, x)
  {
    var found :| IsComplete(c, rows, lines, found) && issues == Bounded(found);
    assert !Deviates(c, rows, lines, Omitted);
    BoundedTells(found);
    if |found| > MAX_ISSUES {
      LeftOut(c, lines, found, issues);
    }
  }

  lemma BoundedTells(found: seq<Issue>)
    requires FoundOnce(found) && Omitted !in found
    ensures
      var issues := Bounded(found);
      && FoundOnce(issues) && (forall x :: x in issues && x != Omitted ==> x in found)
      && (forall i :: 0 <= i < |issues| ==> (issues[i] == Omitted <==> i == MAX_ISSUES))
      && (Omitted in issues <==> |issues| == MAX_ISSUES + 1) && (Omitted in issues <==> |found| > MAX_ISSUES)
      && (Omitted !in issues ==> issues == found)
  {
    var issues := Bounded(found);
    if |found| > MAX_ISSUES {
      assert forall i :: 0 <= i < MAX_ISSUES ==> issues[i] == found[i] && found[i] in found;
      assert issues[MAX_ISSUES] == Omitted;
    }
  }

  /** The report lists the deviation less often than it should: not at all, or too few of its repetitions. */
  ghost predicate IsCutShort(c: Codec, lines: seq<seq<Byte>>, issues: seq<Issue>, issue: Issue) {
    multiset(issues)[issue] < match issue case Duplicated(u) => Repeats(c, lines, |lines|, u) case _ => 1
  }

  lemma LeftOut(c: Codec, lines: seq<seq<Byte>>, found: seq<Issue>, issues: seq<Issue>)
    requires FoundOnce(found) && RepeatsCounted(c, lines, |lines|, found) && Omitted !in found
    requires |found| > MAX_ISSUES && issues == Bounded(found)
    ensures found[MAX_ISSUES] in found && IsCutShort(c, lines, issues, found[MAX_ISSUES])
  {
    var x := found[MAX_ISSUES];
    var front, rest := found[..MAX_ISSUES], found[MAX_ISSUES..];
    assert found == front + rest && rest[0] == x && x in rest;
    CountOfSum(front, rest, x);
    CountOfSum(front, [Omitted], x);
    if !x.Duplicated? {
      assert forall i :: 0 <= i < MAX_ISSUES ==> front[i] == found[i] && found[i] != x;
      assert x !in front;
    }
  }

  /** The report on the committed rows and the mirror file, if there is one, with the events of both sides counted. */
  method InspectAuditMirror(c: Codec, rows: seq<Event>, file: Option<seq<Byte>>)
    returns (coherent: bool, recorded: nat, mirrored: nat, issues: seq<Issue>)
    requires forall i, j :: 0 <= i < j < |rows| ==> rows[i].uuid != rows[j].uuid
    ensures coherent <==> issues == []
    ensures coherent <==> CoherentLines(c, rows, if file.Some? then Segments(file.value) else [])
    ensures file.None? ==> issues == if rows != [] then [FileMissing] else []
    ensures file.Some? ==> IsReport(c, rows, Segments(file.value), issues)
    ensures recorded == |rows|
    ensures exists ids: set<string> ::
      && |ids| == mirrored
      && forall u :: u in ids <==> Mentions(c, if file.Some? then Segments(file.value) else [], u)
  {
    var expected := map e | e in rows :: e.uuid := e;
    DistinctIdentifiers(rows, expected.Keys);
    recorded := |expected|;
    if file.None? {
      issues := if expected != map[] then [FileMissing] else [];
      assert rows != [] ==> rows[0].uuid in expected;
      ghost var none: set<string> := {};
      assert |none| == 0 && forall u :: u !in none;
      return issues == [], recorded, 0, issues;
    }
    issues, mirrored := InspectFile(c, rows, expected, file.value);
    coherent := issues == [];
  }

  /** The report on a mirror that is there. */
  method InspectFile(c: Codec, rows: seq<Event>, expected: map<string, Event>, file: seq<Byte>)
    returns (issues: seq<Issue>, mirrored: nat)
    requires (forall i, j :: 0 <= i < j < |rows| ==> rows[i].uuid != rows[j].uuid) && Keyed(rows, expected)
    ensures issues == [] <==> CoherentLines(c, rows, Segments(file))
    ensures IsReport(c, rows, Segments(file), issues)
    ensures exists ids: set<string> :: |ids| == mirrored && forall u :: u in ids <==> Mentions(c, Segments(file), u)
  {
    var seen;
    ghost var found, lines := [], Segments(file);
    found, issues, seen := ReadMirror(c, file);
    ghost var ofLines := found;
    found, issues := CompareSeen(rows, expected, found, issues, seen);
    ghost var compared := found;
    found, issues := CompareMissing(rows, expected, found, issues, seen);
    FoundIsComplete(c, rows, lines, seen, ofLines, compared, found);
    CompleteDecides(c, rows, lines, seen, found);
    SeenIsMentioned(c, lines, seen);
    mirrored := |seen.Keys|;
  }

  lemma CompleteDecides(
    c: Codec, rows: seq<Event>, lines: seq<seq<Byte>>, seen: map<string, Event>, found: seq<Issue>)
    requires forall i, j :: 0 <= i < j < |rows| ==> rows[i].uuid != rows[j].uuid
    requires SeenSoFar(c, lines, |lines|, seen) && IsComplete(c, rows, lines, found)
    ensures Bounded(found) == [] <==> CoherentLines(c, rows, lines)
    ensures IsReport(c, rows, lines, Bounded(found))
  {
    CoherentOrDeviating(c, rows, lines, seen);
    assert found != [] ==> found[0] in found;
  }

  lemma {:induction false} DistinctIdentifiers(rows: seq<Event>, ids: set<string>)
    requires forall i, j :: 0 <= i < j < |rows| ==> rows[i].uuid != rows[j].uuid
    requires forall u :: u in ids <==> exists e :: e in rows && e.uuid == u
    ensures |ids| == |rows|
  {
    if rows == [] {
      assert ids == {};
    } else {
      var front, last := rows[..|rows| - 1], rows[|rows| - 1];
      assert rows == front + [last];
      forall u ensures u in ids - {last.uuid} <==> exists e :: e in front && e.uuid == u {
        if e :| e in front && e.uuid == u {
          assert e in rows;
          var i :| 0 <= i < |front| && front[i] == e;
          assert rows[i] == e;
        }
      }
      DistinctIdentifiers(front, ids - {last.uuid});
      assert last in rows && last.uuid in ids;
    }
  }

  lemma SeenIsMentioned(c: Codec, lines: seq<seq<Byte>>, seen: map<string, Event>)
    requires SeenSoFar(c, lines, |lines|, seen)
    ensures forall u :: u in seen.Keys <==> Mentions(c, lines, u)
  {
    forall u ensures u in seen.Keys <==> Mentions(c, lines, u) {
      if u in seen {
        var i :| 0 <= i < |lines| && FirstRecord(c, lines, i, seen[u]);
        assert RecordAt(c, lines, i, seen[u]);
      }
    }
  }

  /** What is seen under an identifier is its first record. */
  lemma FirstIsSeen(c: Codec, lines: seq<seq<Byte>>, seen: map<string, Event>, i: int, e: Event)
    requires SeenSoFar(c, lines, |lines|, seen) && FirstRecord(c, lines, i, e)
    ensures e.uuid in seen && seen[e.uuid] == e
  {
    assert RecordAt(c, lines, i, e);
    var j :| 0 <= j < |lines| && FirstRecord(c, lines, j, seen[e.uuid]);
    assert RecordAt(c, lines, j, seen[e.uuid]);
  }

  lemma SeenDeviates(c: Codec, rows: seq<Event>, lines: seq<seq<Byte>>, seen: map<string, Event>, x: Issue)
    requires SeenSoFar(c, lines, |lines|, seen)
    ensures (exists u :: IssueOfSeen(rows, seen, u, x)) <==> (x.Orphan? || x.Differs?) && Deviates(c, rows, lines, x)
  {
    SeenIsMentioned(c, lines, seen);
    if x.Orphan? && Deviates(c, rows, lines, x) {
      assert IssueOfSeen(rows, seen, x.uuid, x);
    }
    if x.Differs? && Deviates(c, rows, lines, x) {
      var i, e, f :| FirstRecord(c, lines, i, e) && f in rows && e.uuid == f.uuid == x.uuid && e != f;
      FirstIsSeen(c, lines, seen, i, e);
      assert IssueOfSeen(rows, seen, x.uuid, x);
    }
    if u :| IssueOfSeen(rows, seen, u, x) && x.Differs? {
      var i :| 0 <= i < |lines| && FirstRecord(c, lines, i, seen[u]);
      var f :| f in rows && f.uuid == u && seen[u] != f;
      assert FirstRecord(c, lines, i, seen[u]) && f in rows;
    }
  }

  lemma FoundIsComplete(
    c: Codec, rows: seq<Event>, lines: seq<seq<Byte>>, seen: map<string, Event>,
    ofLines: seq<Issue>, compared: seq<Issue>, found: seq<Issue>)
    requires SeenSoFar(c, lines, |lines|, seen) && FoundOnce(found)
    requires FoundInFile(c, lines, ofLines) && NoMoreRepeats(ofLines, compared) && NoMoreRepeats(compared, found)
    requires forall x :: x in compared <==> x in ofLines || exists u :: IssueOfSeen(rows, seen, u, x)
    requires forall x :: x in found <==>
      x in compared || (x.MissingLine? && x.uuid !in seen && exists e :: e in rows && e.uuid == x.uuid)
    ensures IsComplete(c, rows, lines, found)
  {
    SeenIsMentioned(c, lines, seen);
    RepeatsStay(c, lines, |lines|, ofLines, compared);
    RepeatsStay(c, lines, |lines|, compared, found);
    forall x ensures x in found <==> Deviates(c, rows, lines, x) {
      SeenDeviates(c, rows, lines, seen, x);
      match x
      case Orphan(_) =>
      case Differs(_) =>
      case MissingLine(uuid) => assert x in found <==> uuid !in seen && exists e :: e in rows && e.uuid == uuid;
      case _ =>
    }
  }

  /** A mirror is coherent exactly if nothing deviates. */
  lemma CoherentOrDeviating(c: Codec, rows: seq<Event>, lines: seq<seq<Byte>>, seen: map<string, Event>)
    requires forall i, j :: 0 <= i < j < |rows| ==> rows[i].uuid != rows[j].uuid
    requires SeenSoFar(c, lines, |lines|, seen)
    ensures CoherentLines(c, rows, lines) <==> forall x :: !Deviates(c, rows, lines, x)
  {
    SeenIsMentioned(c, lines, seen);
    SeenDecidesCoherence(c, rows, lines, seen);
    LinesAreFineOrDeviate(c, rows, lines);
    SeenAgreesOrDeviates(c, rows, lines, seen);
    MissingDeviates(c, rows, lines, seen);
    if CoherentLines(c, rows, lines) {
      forall x ensures !Deviates(c, rows, lines, x) {
        SeenDeviates(c, rows, lines, seen, x);
      }
    }
  }

  lemma LinesAreFineOrDeviate(c: Codec, rows: seq<Event>, lines: seq<seq<Byte>>)
    ensures (forall i :: 0 <= i < |lines| ==> FineLine(c, lines, i)) <==>
      forall x: Issue :: !x.Orphan? && !x.Differs? && !x.MissingLine? ==> !Deviates(c, rows, lines, x)
  {
    if forall i :: 0 <= i < |lines| ==> FineLine(c, lines, i) {
      forall x: Issue | !x.Orphan? && !x.Differs? && !x.MissingLine? ensures !Deviates(c, rows, lines, x) {
        FineLinesDoNotDeviate(c, rows, lines, x);
      }
    } else {
      var i :| 0 <= i < |lines| && !FineLine(c, lines, i);
      var x := BadLineDeviates(c, rows, lines, i);
    }
  }

  lemma FineLinesDoNotDeviate(c: Codec, rows: seq<Event>, lines: seq<seq<Byte>>, x: Issue)
    requires (forall i :: 0 <= i < |lines| ==> FineLine(c, lines, i)) && !x.Orphan? && !x.Differs? && !x.MissingLine?
    ensures !Deviates(c, rows, lines, x)
  {
    match x
    case LineBound => assert |lines| > MAX_LINES ==> FineLine(c, lines, MAX_LINES);
    case TooLong(k) => assert 1 <= k <= |lines| ==> FineLine(c, lines, k - 1);
    case Truncated(k) => assert 1 <= k <= |lines| ==> FineLine(c, lines, k - 1);
    case MalformedLine(k) => assert 1 <= k <= |lines| ==> FineLine(c, lines, k - 1);
    case NoEventUuid(k) => assert 1 <= k <= |lines| ==> FineLine(c, lines, k - 1);
    case Duplicated(uuid) =>
      forall i, j, e, f | i < j < |lines| && RecordAt(c, lines, i, e) && RecordAt(c, lines, j, f)
        ensures e.uuid != f.uuid
      {
        assert FineLine(c, lines, j);
      }
    case _ =>
  }

  lemma BadLineDeviates(c: Codec, rows: seq<Event>, lines: seq<seq<Byte>>, i: nat) returns (x: Issue)
    requires i < |lines| && !FineLine(c, lines, i)
    ensures !x.Orphan? && !x.Differs? && !x.MissingLine? && Deviates(c, rows, lines, x)
  {
    if i >= MAX_LINES {
      x := LineBound;
    } else if |lines[i]| > MAX_LINE_BYTES {
      x := TooLong(i + 1);
    } else if !Terminated(lines[i]) {
      x := Truncated(i + 1);
    } else if c.decode(lines[i]).Malformed? {
      x := MalformedLine(i + 1);
    } else if c.decode(lines[i]).NoUuid? {
      x := NoEventUuid(i + 1);
    } else {
      var f := c.decode(lines[i]).event;
      var j, e :| 0 <= j < i && RecordAt(c, lines, j, e) && e.uuid == f.uuid;
      assert RecordAt(c, lines, i, f);
      x := Duplicated(f.uuid);
    }
  }

  lemma SeenAgreesOrDeviates(c: Codec, rows: seq<Event>, lines: seq<seq<Byte>>, seen: map<string, Event>)
    requires SeenSoFar(c, lines, |lines|, seen)
    requires forall i, j :: 0 <= i < j < |rows| ==> rows[i].uuid != rows[j].uuid
    ensures (forall u :: u in seen ==> seen[u] in rows) <==>
      forall x: Issue :: x.Orphan? || x.Differs? ==> !Deviates(c, rows, lines, x)
  {
    if forall u :: u in seen ==> seen[u] in rows {
      forall x: Issue | x.Orphan? || x.Differs? ensures !Deviates(c, rows, lines, x) {
        SeenDeviates(c, rows, lines, seen, x);
      }
    } else {
      var u :| u in seen && seen[u] !in rows;
      SeenDeviates(c, rows, lines, seen, Orphan(u));
      SeenDeviates(c, rows, lines, seen, Differs(u));
      assert IssueOfSeen(rows, seen, u, Orphan(u)) || IssueOfSeen(rows, seen, u, Differs(u));
    }
  }

  lemma MissingDeviates(c: Codec, rows: seq<Event>, lines: seq<seq<Byte>>, seen: map<string, Event>)
    requires SeenSoFar(c, lines, |lines|, seen)
    ensures (forall e :: e in rows ==> e.uuid in seen) <==> forall u :: !Deviates(c, rows, lines, MissingLine(u))
  {
    SeenIsMentioned(c, lines, seen);
    if e :| e in rows && e.uuid !in seen {
      assert Deviates(c, rows, lines, MissingLine(e.uuid));
    }
  }

  lemma SeenDecidesCoherence(c: Codec, rows: seq<Event>, lines: seq<seq<Byte>>, seen: map<string, Event>)
    requires forall i, j :: 0 <= i < j < |rows| ==> rows[i].uuid != rows[j].uuid
    requires SeenSoFar(c, lines, |lines|, seen)
    ensures CoherentLines(c, rows, lines) <==>
      && (forall i :: 0 <= i < |lines| ==> FineLine(c, lines, i))
      && (forall u :: u in seen ==> seen[u] in rows)
      && forall e :: e in rows ==> e.uuid in seen
  {
    if && (forall i :: 0 <= i < |lines| ==> FineLine(c, lines, i))
       && (forall u :: u in seen ==> seen[u] in rows)
       && forall e :: e in rows ==> e.uuid in seen
    {
      forall i | 0 <= i < |lines| ensures FineLine(c, lines, i) && c.decode(lines[i]).event in rows {
        assert FineLine(c, lines, i);
        var e := c.decode(lines[i]).event;
        assert RecordAt(c, lines, i, e);
        var k :| 0 <= k < |lines| && FirstRecord(c, lines, k, seen[e.uuid]);
        assert RecordAt(c, lines, k, seen[e.uuid]);
        assert k == i by {
          assert FineLine(c, lines, k) && FineLine(c, lines, i);
        }
      }
      forall e | e in rows ensures exists i :: RecordAt(c, lines, i, e) {
        assert seen[e.uuid] == e;
        var k :| 0 <= k < |lines| && FirstRecord(c, lines, k, e);
        assert RecordAt(c, lines, k, e);
      }
    }
    if CoherentLines(c, rows, lines) {
      CoherentIsSeen(c, rows, lines, seen);
    }
  }

  lemma CoherentIsSeen(c: Codec, rows: seq<Event>, lines: seq<seq<Byte>>, seen: map<string, Event>)
    requires SeenSoFar(c, lines, |lines|, seen) && CoherentLines(c, rows, lines)
    ensures forall u :: u in seen ==> seen[u] in rows
    ensures forall e :: e in rows ==> e.uuid in seen
  {
    forall u | u in seen ensures seen[u] in rows {
      var k :| 0 <= k < |lines| && FirstRecord(c, lines, k, seen[u]);
      assert RecordAt(c, lines, k, seen[u]);
    }
  }

  // ---- What the protocol can make it report ----

  predicate WithinBounds(lines: seq<seq<Byte>>) {
    forall i :: 0 <= i < |lines| ==> InBounds(lines, i)
  }

  /** A line that holds a part of a record is malformed unless it holds all of it. */
  lemma PartOfRecord(c: Codec, line: seq<Byte>, e: Event)
    requires Lawful(c) && Body(line) <= c.encode(e)
    ensures c.decode(line) == if Body(line) == c.encode(e) then Record(e) else Malformed
  {
    var k, whole := |Body(line)|, c.encode(e);
    assert Body(line) == whole[..k] && whole[..|whole|] == whole;
    assert line == whole[..k] || line == whole[..k] + [NEWLINE];
  }

  lemma RecordsAreIssued(c: Codec, s: System, i: int, e: Event)
    requires Lawful(c) && Clean(c, Segments(s.mirror), s.issued) && RecordAt(c, Segments(s.mirror), i, e)
    ensures Body(Segments(s.mirror)[i]) == c.encode(e)
    ensures exists u :: u in s.issued && s.issued[u] == e
  {
    var line := Segments(s.mirror)[i];
    var u :| u in s.issued && Body(line) <= c.encode(s.issued[u]);
    PartOfRecord(c, line, s.issued[u]);
  }

  lemma CommittedIsRecorded(c: Codec, s: System, e: Event) returns (i: nat)
    requires Lawful(c) && Inv(c, s) && e in s.committed
    requires WithinBounds(Segments(s.mirror))
    ensures RecordAt(c, Segments(s.mirror), i, e)
  {
    TruncationKeepsMirrored(c, s, |s.mirror|, e);
    assert s.mirror[..|s.mirror|] == s.mirror;
    i :| 0 <= i < |Segments(s.mirror)| && Segments(s.mirror)[i] == c.encode(e) + [NEWLINE];
    assert InBounds(Segments(s.mirror), i);
  }

  lemma NoneMissing(c: Codec, s: System, uuid: string)
    requires Lawful(c) && Inv(c, s) && WithinBounds(Segments(s.mirror))
    ensures !Justified(c, s.committed, Segments(s.mirror), MissingLine(uuid))
    ensures !Justified(c, s.committed, Segments(s.mirror), FileMissing)
  {
    forall e | e in s.committed ensures Mentions(c, Segments(s.mirror), e.uuid) && Segments(s.mirror) != [] {
      var i := CommittedIsRecorded(c, s, e);
    }
    assert s.committed != [] ==> s.committed[0] in s.committed;
  }

  lemma NoneDiffers(c: Codec, s: System, uuid: string)
    requires Lawful(c) && Inv(c, s) && Clean(c, Segments(s.mirror), s.issued)
    ensures !Justified(c, s.committed, Segments(s.mirror), Differs(uuid))
  {
    forall i, e, f | RecordAt(c, Segments(s.mirror), i, e) && f in s.committed && e.uuid == f.uuid
      ensures e == f
    {
      RecordsAreIssued(c, s, i, e);
    }
  }

  lemma NoneDuplicated(c: Codec, s: System, uuid: string)
    requires Lawful(c) && Inv(c, s) && Clean(c, Segments(s.mirror), s.issued)
    ensures !Justified(c, s.committed, Segments(s.mirror), Duplicated(uuid))
  {
    var lines := Segments(s.mirror);
    forall i, j, e, f | i < j && RecordAt(c, lines, i, e) && RecordAt(c, lines, j, f)
      ensures e.uuid != f.uuid
    {
      RecordsAreIssued(c, s, i, e);
      RecordsAreIssued(c, s, j, f);
    }
  }

  lemma NoneLackUuid(c: Codec, s: System, n: nat)
    requires Lawful(c) && Clean(c, Segments(s.mirror), s.issued)
    ensures !Justified(c, s.committed, Segments(s.mirror), NoEventUuid(n))
  {
    if InBounds(Segments(s.mirror), n - 1) {
      var line := Segments(s.mirror)[n - 1];
      var u :| u in s.issued && Body(line) <= c.encode(s.issued[u]);
      PartOfRecord(c, line, s.issued[u]);
    }
  }

  lemma NoBoundIssue(c: Codec, rows: seq<Event>, lines: seq<seq<Byte>>, n: nat)
    requires WithinBounds(lines)
    ensures !Justified(c, rows, lines, TooLong(n)) && !Justified(c, rows, lines, LineBound)
  {
    assert 1 <= n <= |lines| ==> InBounds(lines, n - 1);
    assert |lines| > MAX_LINES ==> InBounds(lines, MAX_LINES);
  }

  /**
   After any run, crashes included, and within the reader's bounds, an issue can only be an orphan,
   a malformed line or a truncated line: never a committed event that is missing from the mirror,
   differs from it or is duplicated in it.
   */
  lemma OnlyOrphansAndFragments(c: Codec, actions: seq<Action>, issue: Issue)
    requires Lawful(c) && Runs(c, INITIAL, actions)
    requires WithinBounds(Segments(After(c, INITIAL, actions).mirror))
    requires Justified(
      c, After(c, INITIAL, actions).committed, Segments(After(c, INITIAL, actions).mirror), issue)
    ensures issue.Orphan? || issue.MalformedLine? || issue.Truncated? || issue.Omitted?
  {
    RunKeepsInv(c, INITIAL, actions);
    var s := After(c, INITIAL, actions);
    MirrorIsClean(c, s);
    match issue
    case Duplicated(uuid) => NoneDuplicated(c, s, uuid);
    case Differs(uuid) => NoneDiffers(c, s, uuid);
    case MissingLine(uuid) => NoneMissing(c, s, uuid);
    case FileMissing => NoneMissing(c, s, "");
    case NoEventUuid(n) => NoneLackUuid(c, s, n);
    case TooLong(n) => NoBoundIssue(c, s.committed, Segments(s.mirror), n);
    case LineBound => NoBoundIssue(c, s.committed, Segments(s.mirror), 1);
    case _ =>
  }

  // ---- A run that never fails leaves a coherent mirror ----

  lemma {:induction false} LinesAppend(c: Codec, a: seq<Event>, b: seq<Event>)
    ensures Lines(c, a + b) == Lines(c, a) + Lines(c, b)
    decreases |b|
  {
    if b == [] {
      assert a + b == a;
    } else {
      var last := |b| - 1;
      LinesAppend(c, a, b[..last]);
      assert (a + b)[..|a + b| - 1] == a + b[..last];
    }
  }

  function TerminatedLines(c: Codec, events: seq<Event>): (lines: seq<seq<Byte>>)
    ensures |lines| == |events|
    ensures forall i :: 0 <= i < |events| ==> lines[i] == c.encode(events[i]) + [NEWLINE]
  {
    if events == [] then []
    else TerminatedLines(c, events[..|events| - 1]) + [c.encode(events[|events| - 1]) + [NEWLINE]]
  }

  /** What was written as lines reads back as those lines. */
  lemma {:induction false} LinesRead(c: Codec, events: seq<Event>)
    requires Lawful(c)
    ensures AtLineStart(Lines(c, events))
    ensures Segments(Lines(c, events)) == TerminatedLines(c, events)
    decreases |events|
  {
    if events != [] {
      var front, last := events[..|events| - 1], events[|events| - 1];
      LinesRead(c, front);
      AppendLine(Lines(c, front), c.encode(last));
      assert Lines(c, events) == Lines(c, front) + (c.encode(last) + [NEWLINE]);
    }
  }

  /** The mirror holds the committed lines in commit order, plus what the open flush has written. */
  ghost predicate InStep(c: Codec, s: System) {
    match s.txn
    case Idle => s.mirror == Lines(c, s.committed)
    case Open(_) => s.mirror == Lines(c, s.committed)
    case Appending(rows, base, todo) => s.mirror + todo == Lines(c, s.committed + rows)
    case Durable(rows) => s.mirror == Lines(c, s.committed + rows)
  }

  lemma StepStaysInStep(c: Codec, s: System, a: Action)
    requires Lawful(c) && InStep(c, s) && Enabled(s, a) && !a.Rollback? && !a.Crash?
    ensures InStep(c, Do(c, s, a))
  {
    if a.StartFlush? {
      FlushStaysInStep(c, s);
    } else if a.WriteBytes? {
      assert s.mirror + s.txn.todo[..a.n] + s.txn.todo[a.n..] == s.mirror + s.txn.todo;
    } else if a.Sync? {
      assert s.mirror + s.txn.todo == s.mirror;
    }
  }

  lemma FlushStaysInStep(c: Codec, s: System)
    requires Lawful(c) && InStep(c, s) && Enabled(s, StartFlush)
    ensures InStep(c, Do(c, s, StartFlush))
  {
    LinesRead(c, s.committed);
    LinesAppend(c, s.committed, s.txn.rows);
    assert Payload(c, s.mirror, s.txn.rows) == Lines(c, s.txn.rows);
  }

  lemma {:induction false} RunStaysInStep(c: Codec, s: System, actions: seq<Action>)
    requires Lawful(c) && InStep(c, s) && Runs(c, s, actions)
    requires forall a :: a in actions ==> !a.Rollback? && !a.Crash?
    ensures InStep(c, After(c, s, actions))
    decreases |actions|
  {
    if actions != [] {
      StepStaysInStep(c, s, actions[0]);
      RunStaysInStep(c, Do(c, s, actions[0]), actions[1..]);
    }
  }

  /** Without a failed transaction or a crash, an idle mirror within the bounds is coherent. */
  lemma UneventfulRunIsCoherent(c: Codec, actions: seq<Action>)
    requires Lawful(c) && Runs(c, INITIAL, actions)
    requires forall a :: a in actions ==> !a.Rollback? && !a.Crash?
    requires After(c, INITIAL, actions).txn.Idle? && WithinBounds(Segments(After(c, INITIAL, actions).mirror))
    ensures var s := After(c, INITIAL, actions); CoherentLines(c, s.committed, Segments(s.mirror))
  {
    RunKeepsInv(c, INITIAL, actions);
    RunStaysInStep(c, INITIAL, actions);
    var s := After(c, INITIAL, actions);
    CommittedLinesAreCoherent(c, s.committed);
  }

  lemma CommittedLinesAreCoherent(c: Codec, rows: seq<Event>)
    requires Lawful(c) && WithinBounds(Segments(Lines(c, rows)))
    requires forall i, j :: 0 <= i < j < |rows| ==> rows[i].uuid != rows[j].uuid
    ensures CoherentLines(c, rows, Segments(Lines(c, rows)))
  {
    LinesRead(c, rows);
    var lines := Segments(Lines(c, rows));
    forall i | 0 <= i < |rows| ensures RecordAt(c, lines, i, rows[i]) && Terminated(lines[i]) {
      assert InBounds(lines, i);
    }
    forall i | 0 <= i < |rows| ensures FineLine(c, lines, i) {
      assert forall j, e :: 0 <= j < i && RecordAt(c, lines, j, e) ==> e == rows[j];
    }
  }
}
