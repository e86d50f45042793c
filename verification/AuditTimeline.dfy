/**
 The merged, paginated audit timeline of agentos_dashboard/services/audit.py: a mirror divergence
 entry, the local events newest first, then the workflow events of one task.
 */
module AuditTimeline {
  import opened Support

  /** A row of audit_events; later rows have larger row ids. */
  datatype EventRow = EventRow(rowid: nat, ts: int, kind: string, body: string)

  datatype WorkflowEvent = WorkflowEvent(sequence: int, body: string)

  datatype Entry =
    | MirrorDivergence(issues: seq<string>)
    | LocalEntry(row: EventRow, contradiction: bool)
    | RepositoryEntry(event: WorkflowEvent)

  datatype Error = BadPagination

  // ---- Ordering ----

  predicate NoOlder(a: EventRow, b: EventRow) {
    a.ts > b.ts || (a.ts == b.ts && a.rowid >= b.rowid)
  }

  predicate NoEarlier(a: WorkflowEvent, b: WorkflowEvent) {
    a.sequence >= b.sequence
  }

  ghost predicate TotalPreorder<T(!new)>(first: (T, T) -> bool) {
    && (forall a, b :: first(a, b) || first(b, a))
    && forall a, b, c :: first(a, b) && first(b, c) ==> first(a, c)
  }

  /** A stable sort. */
  function Sort<T>(s: seq<T>, first: (T, T) -> bool): seq<T> {
    if s == [] then [] else PutInOrder(s[0], Sort(s[1..], first), first)
  }

  function PutInOrder<T>(x: T, sorted: seq<T>, first: (T, T) -> bool): seq<T> {
    if sorted == [] || first(x, sorted[0]) then [x] + sorted
    else [sorted[0]] + PutInOrder(x, sorted[1..], first)
  }

  ghost predicate InOrder<T>(s: seq<T>, first: (T, T) -> bool) {
    s != [] ==> (forall x :: x in s[1..] ==> first(s[0], x)) && InOrder(s[1..], first)
  }

  lemma {:induction false} PutInOrderKeepsAll<T>(x: T, sorted: seq<T>, first: (T, T) -> bool)
    ensures multiset(PutInOrder(x, sorted, first)) == multiset(sorted) + multiset{x}
  {
    if sorted != [] {
      PutInOrderKeepsAll(x, sorted[1..], first);
      assert sorted == [sorted[0]] + sorted[1..];
    }
  }

  lemma {:induction false} PutInOrderSorts<T(!new)>(x: T, sorted: seq<T>, first: (T, T) -> bool)
    requires TotalPreorder(first) && InOrder(sorted, first)
    ensures InOrder(PutInOrder(x, sorted, first), first)
  {
    var r := PutInOrder(x, sorted, first);
    if sorted != [] && !first(x, sorted[0]) {
      PutInOrderSorts(x, sorted[1..], first);
      assert r[1..] == PutInOrder(x, sorted[1..], first);
      PutInOrderKeepsAll(x, sorted[1..], first);
      forall y | y in r[1..] ensures first(sorted[0], y) {
        assert y in multiset(r[1..]);
      }
    } else {
      assert r[1..] == sorted;
      forall y | y in sorted ensures first(x, y) {
        assert y == sorted[0] || y in sorted[1..];
      }
    }
  }

  lemma {:induction false} SortSorts<T(!new)>(s: seq<T>, first: (T, T) -> bool)
    requires TotalPreorder(first)
    ensures InOrder(Sort(s, first), first)
    ensures multiset(Sort(s, first)) == multiset(s)
  {
    if s != [] {
      SortSorts(s[1..], first);
      PutInOrderSorts(s[0], Sort(s[1..], first), first);
      PutInOrderKeepsAll(s[0], Sort(s[1..], first), first);
      assert s == [s[0]] + s[1..];
    }
  }

  // ---- Slices ----

  /** Python's s[offset : offset + limit]. */
  function Slice<T>(s: seq<T>, offset: nat, limit: nat): (page: seq<T>)
    ensures |page| <= limit && (limit == 0 || offset >= |s| ==> page == [])
  {
    if offset >= |s| then [] else if offset + limit >= |s| then s[offset..] else s[offset..offset + limit]
  }

  /** A page starts at its offset and is as long as what is left allows. */
  lemma SliceIs<T>(s: seq<T>, offset: nat, limit: nat)
    ensures var page := Slice(s, offset, limit);
      && |page| == (if offset >= |s| then 0 else if limit < |s| - offset then limit else |s| - offset)
      && forall i :: 0 <= i < |page| ==> page[i] == s[offset + i]
  {
  }

  lemma SliceAcross<T>(s: seq<T>, t: seq<T>, offset: nat, limit: nat)
    ensures
      var head := Slice(s, offset, limit);
      |head| <= limit && Slice(s + t, offset, limit) == head + Slice(t, Max(0, offset - |s|), limit - |head|)
  {
  }

  function Max(a: int, b: int): int {
    if a < b then b else a
  }

  /** A slice of three parts, taken part by part. */
  lemma ThreeParts<T>(a: seq<T>, b: seq<T>, c: seq<T>, offset: nat, limit: nat)
    ensures
      var first := Slice(a, offset, limit);
      var second := Slice(b, Max(0, offset - |a|), limit - |first|);
      Slice(a + b + c, offset, limit)
      == first + second + Slice(c, Max(0, offset - |a| - |b|), limit - |first| - |second|)
  {
    SliceAcross(a, b, offset, limit);
    SliceAcross(a + b, c, offset, limit);
  }

  // ---- The timeline ----

  function Matching(rows: seq<EventRow>, kind: Option<string>): (m: seq<EventRow>)
    ensures forall r :: r in m <==> r in rows && (kind.Some? ==> r.kind == kind.value)
  {
    if rows == [] then []
    else (if kind.Some? && rows[0].kind != kind.value then [] else [rows[0]]) + Matching(rows[1..], kind)
  }

  function ToEntry(row: EventRow): Entry {
    LocalEntry(row, row.kind == "reconciliation_divergence")
  }

  function ToEntries(rows: seq<EventRow>): (entries: seq<Entry>)
    ensures |entries| == |rows| && forall i :: 0 <= i < |rows| ==> entries[i] == ToEntry(rows[i])
  {
    seq(|rows|, i requires 0 <= i < |rows| => ToEntry(rows[i]))
  }

  function FromRepository(events: seq<WorkflowEvent>): (entries: seq<Entry>)
    ensures |entries| == |events| && forall i :: 0 <= i < |events| ==> entries[i] == RepositoryEntry(events[i])
  {
    seq(|events|, i requires 0 <= i < |events| => RepositoryEntry(events[i]))
  }

  /**
   mirror is what the mirror inspection found, if a log path was given; task the workflow events of
   the named task, empty when its projection is not available.
   */
  datatype Sources = Sources(rows: seq<EventRow>, mirror: Option<seq<string>>, task: Option<seq<WorkflowEvent>>)

  function Synthetic(src: Sources, kind: Option<string>): seq<Entry> {
    if src.mirror.Some? && src.mirror.value != [] && (kind == None || kind == Some("audit_mirror_divergence"))
    then [MirrorDivergence(src.mirror.value)] else []
  }

  /** The matching rows ORDER BY ts DESC, rowid DESC. */
  function Newest(rows: seq<EventRow>, kind: Option<string>): seq<EventRow> {
    Sort(Matching(rows, kind), NoOlder)
  }

  function Workflow(src: Sources, kind: Option<string>): seq<WorkflowEvent> {
    if src.task.Some? && (kind == None || kind == Some("workflow_event")) then Sort(src.task.value, NoEarlier) else []
  }

  /** The whole timeline, unpaginated. */
  function Full(src: Sources, kind: Option<string>): seq<Entry> {
    Synthetic(src, kind) + ToEntries(Newest(src.rows, kind)) + FromRepository(Workflow(src, kind))
  }

  lemma EntriesOfSlice(rows: seq<EventRow>, offset: nat, limit: nat)
    ensures ToEntries(Slice(rows, offset, limit)) == Slice(ToEntries(rows), offset, limit)
  {
  }

  predicate IsOfKind(row: EventRow, kind: Option<string>) {
    kind.Some? ==> row.kind == kind.value
  }

  /** The matching rows in the order of the query, built row by row from the end of the table. */
  method OrderNewest(rows: seq<EventRow>, kind: Option<string>) returns (newest: seq<EventRow>)
    ensures newest == Newest(rows, kind)
  {
    newest := [];
    var i := |rows|;
    while i > 0
      invariant 0 <= i <= |rows| && newest == Newest(rows[i..], kind)
    {
      i := i - 1;
      var rest := Matching(rows[i + 1..], kind);
      assert rows[i..][1..] == rows[i + 1..] && rows[i..][0] == rows[i];
      if IsOfKind(rows[i], kind) {
        assert Matching(rows[i..], kind) == [rows[i]] + rest && ([rows[i]] + rest)[1..] == rest;
        newest := PutInOrder(rows[i], newest, NoOlder);
      } else {
        assert Matching(rows[i..], kind) == [] + rest && [] + rest == rest;
      }
    }
    assert rows[0..] == rows;
  }

  lemma {:induction false} OrderedSlice<T>(s: seq<T>, first: (T, T) -> bool, offset: nat, limit: nat)
    requires InOrder(s, first)
    ensures InOrder(Slice(s, offset, limit), first)
    decreases |s| + limit
  {
    var page := Slice(s, offset, limit);
    if page != [] {
      if offset > 0 {
        OrderedSlice(s[1..], first, offset - 1, limit);
        assert page == Slice(s[1..], offset - 1, limit);
      } else {
        OrderedSlice(s[1..], first, 0, limit - 1);
        assert page[0] == s[0] && page[1..] == Slice(s[1..], 0, limit - 1);
        forall x | x in page[1..] ensures first(s[0], x) {
          assert x in s[1..];
        }
      }
    }
  }

  lemma NewestMatches(rows: seq<EventRow>, kind: Option<string>)
    ensures InOrder(Newest(rows, kind), NoOlder)
    ensures multiset(Newest(rows, kind)) == multiset(Matching(rows, kind))
    ensures forall row :: row in Newest(rows, kind) ==> row in rows && IsOfKind(row, kind)
  {
    SortSorts(Matching(rows, kind), NoOlder);
    forall row | row in Newest(rows, kind) ensures row in Matching(rows, kind) {
      assert row in multiset(Newest(rows, kind));
    }
  }

  method TakePage(newest: seq<EventRow>, limit: nat, offset: nat) returns (page: seq<EventRow>)
    ensures page == Slice(newest, offset, limit)
  {
    page := [];
    var i := offset;
    while i < |newest| && |page| < limit
      invariant offset <= i && |page| == i - offset <= limit
      invariant page == Slice(newest, offset, i - offset)
    {
      page := page + [newest[i]];
      i := i + 1;
    }
  }

  lemma SliceWithin<T>(s: seq<T>, offset: nat, limit: nat)
    ensures forall x :: x in Slice(s, offset, limit) ==> x in s
  {
  }

  lemma PageMatches(rows: seq<EventRow>, kind: Option<string>, limit: nat, offset: nat)
    ensures var page := Slice(Newest(rows, kind), offset, limit);
      InOrder(page, NoOlder) && forall row :: row in page ==> row in rows && IsOfKind(row, kind)
  {
    NewestMatches(rows, kind);
    OrderedSlice(Newest(rows, kind), NoOlder, offset, limit);
    SliceWithin(Newest(rows, kind), offset, limit);
  }

  /**
   One page of the table, newest first. The page is in order, holds only rows of the kind, and is the
   slice of all of them, so with NewestMatches no row of the kind is lost or repeated.
   */
  method ListAuditEvents(rows: seq<EventRow>, kind: Option<string>, limit: int, offset: int)
    returns (r: Result<seq<EventRow>, Error>)
    ensures r.Ok? <==> 1 <= limit <= 200 && 0 <= offset
    ensures r.Ok? ==> r.value == Slice(Newest(rows, kind), offset, limit)
    ensures r.Ok? ==> InOrder(r.value, NoOlder) && forall row :: row in r.value ==> row in rows && IsOfKind(row, kind)
  {
    if limit < 1 || limit > 200 || offset < 0 {
      return Err(BadPagination);
    }
    var newest := OrderNewest(rows, kind);
    var page := TakePage(newest, limit, offset);
    PageMatches(rows, kind, limit, offset);
    r := Ok(page);
  }

  method AuditEventCount(rows: seq<EventRow>, kind: Option<string>) returns (n: nat)
    ensures n == |Newest(rows, kind)|
  {
    n := 0;
    var i := |rows|;
    while i > 0
      invariant 0 <= i <= |rows| && n == |Matching(rows[i..], kind)|
    {
      i := i - 1;
      assert rows[i..][1..] == rows[i + 1..];
      if IsOfKind(rows[i], kind) {
        n := n + 1;
      }
    }
    assert rows[0..] == rows;
    NewestMatches(rows, kind);
    assert |multiset(Newest(rows, kind))| == |multiset(Matching(rows, kind))|;
  }

  /** The local entries of one page, if there is room for any and any are left. */
  method LocalPart(rows: seq<EventRow>, kind: Option<string>, count: nat, limit: nat, offset: nat)
    returns (page: seq<Entry>)
    requires limit <= 200 && count == |Newest(rows, kind)|
    ensures page == Slice(ToEntries(Newest(rows, kind)), offset, limit)
  {
    page := [];
    if limit > 0 && offset < count {
      var events := ListAuditEvents(rows, kind, limit, offset);
      EntriesOfSlice(Newest(rows, kind), offset, limit);
      page := ToEntries(events.value);
    }
  }

  method SyntheticPart(synthetic: seq<Entry>, limit: nat, offset: nat) returns (page: seq<Entry>)
    ensures page == Slice(synthetic, offset, limit)
  {
    page := [];
    if offset < |synthetic| {
      page := Slice(synthetic, offset, limit);
    }
  }

  /** The workflow events of one page, if they are asked for and there is room for any. */
  method RepositoryPart(workflow: seq<WorkflowEvent>, wanted: bool, limit: nat, offset: nat)
    returns (page: seq<Entry>)
    requires !wanted ==> workflow == []
    ensures page == Slice(FromRepository(workflow), offset, limit)
  {
    page := [];
    if limit > 0 && wanted {
      page := Slice(FromRepository(workflow), offset, limit);
    }
  }

  lemma PartsFill<T>(
    a: seq<T>, b: seq<T>, c: seq<T>, offset: nat, limit: nat, first: seq<T>, second: seq<T>, third: seq<T>)
    requires first == Slice(a, offset, limit)
    requires second == Slice(b, Max(0, offset - |a|), limit - |first|)
    requires third == Slice(c, Max(0, offset - |a| - |b|), limit - |first| - |second|)
    ensures first + second + third == Slice(a + b + c, offset, limit)
  {
    ThreeParts(a, b, c, offset, limit);
  }

  /** Fills one page from the three parts in turn; wanted says whether the last one is asked for at all. */
  method FillPage(
    synthetic: seq<Entry>, rows: seq<EventRow>, kind: Option<string>, workflow: seq<WorkflowEvent>, wanted: bool,
    limit: nat, offset: nat)
    returns (result: seq<Entry>)
    requires limit <= 200 && (!wanted ==> workflow == [])
    ensures result == Slice(synthetic + ToEntries(Newest(rows, kind)) + FromRepository(workflow), offset, limit)
  {
    var first := SyntheticPart(synthetic, limit, offset);
    var count := AuditEventCount(rows, kind);
    var second := LocalPart(rows, kind, count, limit - |first|, Max(0, offset - |synthetic|));
    var third := RepositoryPart(
      workflow, wanted, limit - |first| - |second|, Max(0, offset - |synthetic| - count));
    ghost var entries, last := ToEntries(Newest(rows, kind)), FromRepository(workflow);
    assert |entries| == count;
    PartsFill(synthetic, entries, last, offset, limit, first, second, third);
    result := first + second + third;
  }

  method BuildAuditTimeline(src: Sources, kind: Option<string>, limit: int, offset: int)
    returns (r: Result<seq<Entry>, Error>)
    ensures r.Ok? <==> 1 <= limit <= 200 && 0 <= offset
    ensures r.Ok? ==> r.value == Slice(Full(src, kind), offset, limit)
  {
    if limit < 1 || limit > 200 || offset < 0 {
      return Err(BadPagination);
    }
    var wanted := src.task.Some? && (kind == None || kind == Some("workflow_event"));
    var page := FillPage(Synthetic(src, kind), src.rows, kind, Workflow(src, kind), wanted, limit, offset);
    r := Ok(page);
  }

  // ---- What the pages add up to ----

  /** Reading page after page until one is short. */
  function ReadAll(full: seq<Entry>, offset: nat, limit: nat): seq<Entry>
    requires limit > 0
    decreases |full| - offset
  {
    var page := Slice(full, offset, limit);
    if |page| < limit then page else page + ReadAll(full, offset + limit, limit)
  }

  lemma {:induction false} ReadingLosesNothing(full: seq<Entry>, offset: nat, limit: nat)
    requires limit > 0 && offset <= |full|
    ensures ReadAll(full, offset, limit) == full[offset..]
    decreases |full| - offset
  {
    if |Slice(full, offset, limit)| == limit {
      ReadingLosesNothing(full, offset + limit, limit);
    }
  }

  /**
   The pages of any size, read one after the other, are the whole timeline: the divergence entry if
   the mirror has one, then each matching local event exactly once, newest first, then that workflow's
   events by descending sequence.
   */
  lemma PagesAreTheTimeline(src: Sources, kind: Option<string>, limit: nat)
    requires 1 <= limit <= 200
    ensures ReadAll(Full(src, kind), 0, limit)
         == Synthetic(src, kind) + ToEntries(Newest(src.rows, kind)) + FromRepository(Workflow(src, kind))
    ensures InOrder(Newest(src.rows, kind), NoOlder) && InOrder(Workflow(src, kind), NoEarlier)
    ensures multiset(Newest(src.rows, kind)) == multiset(Matching(src.rows, kind))
    ensures src.task.Some? && (kind == None || kind == Some("workflow_event")) ==>
      multiset(Workflow(src, kind)) == multiset(src.task.value)
  {
    ReadingLosesNothing(Full(src, kind), 0, limit);
    SortSorts(Matching(src.rows, kind), NoOlder);
    if src.task.Some? {
      SortSorts(src.task.value, NoEarlier);
    }
  }

  // ---- What the timeline holds ----

  predicate Asked(kind: Option<string>, own: string) {
    kind == None || kind == Some(own)
  }

  /** What has to be so for an entry to be in the timeline. */
  predicate Belongs(src: Sources, kind: Option<string>, e: Entry) {
    match e
    case MirrorDivergence(issues) =>
      src.mirror == Some(issues) && issues != [] && Asked(kind, "audit_mirror_divergence")
    case LocalEntry(row, contradiction) =>
      row in src.rows && Asked(kind, row.kind) && (contradiction <==> row.kind == "reconciliation_divergence")
    case RepositoryEntry(event) =>
      src.task.Some? && event in src.task.value && Asked(kind, "workflow_event")
  }

  /** Which of two entries comes first. */
  predicate MayPrecede(a: Entry, b: Entry) {
    match (a, b)
    case (MirrorDivergence(_), _) => !b.MirrorDivergence?
    case (LocalEntry(x, _), LocalEntry(y, _)) => NoOlder(x, y)
    case (LocalEntry(_, _), RepositoryEntry(_)) => true
    case (RepositoryEntry(x), RepositoryEntry(y)) => NoEarlier(x, y)
    case _ => false
  }

  /** The entry is there as often as what it shows is in its source. */
  function Copies(src: Sources, e: Entry): nat {
    match e
    case MirrorDivergence(_) => 1
    case LocalEntry(row, _) => multiset(src.rows)[row]
    case RepositoryEntry(event) => if src.task.Some? then multiset(src.task.value)[event] else 0
  }

  lemma {:induction false} OrderedPlaces<T>(s: seq<T>, first: (T, T) -> bool, i: nat, j: nat)
    requires InOrder(s, first) && i < j < |s|
    ensures first(s[i], s[j])
  {
    if i > 0 {
      OrderedPlaces(s[1..], first, i - 1, j - 1);
    } else {
      assert s[j] == s[1..][j - 1];
    }
  }

  lemma MatchingHead(rows: seq<EventRow>, kind: Option<string>)
    requires rows != []
    ensures Matching(rows, kind) ==
      if Asked(kind, rows[0].kind) then [rows[0]] + Matching(rows[1..], kind) else Matching(rows[1..], kind)
  {
  }

  lemma CountsCons<T>(x: T, s: seq<T>, y: T)
    ensures multiset([x] + s)[y] == multiset(s)[y] + if x == y then 1 else 0
  {
  }

  lemma {:induction false} MatchingCounts(rows: seq<EventRow>, kind: Option<string>, row: EventRow)
    ensures multiset(Matching(rows, kind))[row] == if Asked(kind, row.kind) then multiset(rows)[row] else 0
  {
    if rows != [] {
      MatchingCounts(rows[1..], kind, row);
      CountsHead(rows, row);
      MatchingHead(rows, kind);
      CountsCons(rows[0], Matching(rows[1..], kind), row);
    }
  }

  lemma {:induction false} LocalCounts(rows: seq<EventRow>, row: EventRow)
    ensures multiset(ToEntries(rows))[ToEntry(row)] == multiset(rows)[row]
  {
    if rows != [] {
      LocalCounts(rows[1..], row);
      assert ToEntries(rows)[1..] == ToEntries(rows[1..]);
      CountsHead(rows, row);
      CountsHead(ToEntries(rows), ToEntry(row));
    }
  }

  lemma CountsHead<T>(s: seq<T>, x: T)
    requires s != []
    ensures multiset(s)[x] == multiset(s[1..])[x] + if s[0] == x then 1 else 0
  {
    assert s == [s[0]] + s[1..];
  }

  lemma {:induction false} RepositoryCounts(events: seq<WorkflowEvent>, event: WorkflowEvent)
    ensures multiset(FromRepository(events))[RepositoryEntry(event)] == multiset(events)[event]
  {
    if events != [] {
      RepositoryCounts(events[1..], event);
      assert FromRepository(events)[1..] == FromRepository(events[1..]);
      CountsHead(events, event);
      CountsHead(FromRepository(events), RepositoryEntry(event));
    }
  }

  lemma PartsCount(src: Sources, kind: Option<string>, e: Entry)
    ensures multiset(Full(src, kind))[e] ==
      if e.MirrorDivergence? then multiset(Synthetic(src, kind))[e]
      else if e.LocalEntry? then multiset(ToEntries(Newest(src.rows, kind)))[e]
      else multiset(FromRepository(Workflow(src, kind)))[e]
  {
    var (a, b, c) := (Synthetic(src, kind), ToEntries(Newest(src.rows, kind)), FromRepository(Workflow(src, kind)));
    assert multiset(Full(src, kind)) == multiset(a) + multiset(b) + multiset(c);
    assert !e.MirrorDivergence? ==> e !in a;
    assert !e.LocalEntry? ==> e !in b;
    assert !e.RepositoryEntry? ==> e !in c;
  }

  /** The timeline holds exactly the entries that belong in it, each as often as its source does. */
  lemma TimelineHolds(src: Sources, kind: Option<string>, e: Entry)
    ensures multiset(Full(src, kind))[e] == if Belongs(src, kind, e) then Copies(src, e) else 0
  {
    PartsCount(src, kind, e);
    match e
    case MirrorDivergence(_) =>
    case LocalEntry(row, contradiction) => LocalHolds(src, kind, row, contradiction);
    case RepositoryEntry(event) =>
      RepositoryCounts(Workflow(src, kind), event);
      if src.task.Some? {
        SortSorts(src.task.value, NoEarlier);
      }
  }

  lemma LocalHolds(src: Sources, kind: Option<string>, row: EventRow, contradiction: bool)
    ensures multiset(ToEntries(Newest(src.rows, kind)))[LocalEntry(row, contradiction)] ==
      if Belongs(src, kind, LocalEntry(row, contradiction)) then multiset(src.rows)[row] else 0
  {
    if ToEntry(row) == LocalEntry(row, contradiction) {
      LocalCounts(Newest(src.rows, kind), row);
      SortSorts(Matching(src.rows, kind), NoOlder);
      MatchingCounts(src.rows, kind, row);
    } else {
      assert LocalEntry(row, contradiction) !in ToEntries(Newest(src.rows, kind));
    }
  }

  lemma LocalOrdered(rows: seq<EventRow>, kind: Option<string>, i: nat, j: nat)
    requires i < j < |Newest(rows, kind)|
    ensures MayPrecede(ToEntries(Newest(rows, kind))[i], ToEntries(Newest(rows, kind))[j])
  {
    SortSorts(Matching(rows, kind), NoOlder);
    OrderedPlaces(Newest(rows, kind), NoOlder, i, j);
  }

  lemma WorkflowOrdered(src: Sources, kind: Option<string>, i: nat, j: nat)
    requires i < j < |Workflow(src, kind)|
    ensures MayPrecede(FromRepository(Workflow(src, kind))[i], FromRepository(Workflow(src, kind))[j])
  {
    SortSorts(src.task.value, NoEarlier);
    OrderedPlaces(Workflow(src, kind), NoEarlier, i, j);
  }

  lemma PartsOrdered(a: seq<Entry>, b: seq<Entry>, c: seq<Entry>, i: nat, j: nat)
    requires |a| <= 1 && (forall e :: e in a ==> e.MirrorDivergence?)
    requires (forall e :: e in b ==> e.LocalEntry?) && forall e :: e in c ==> e.RepositoryEntry?
    requires forall k, l :: 0 <= k < l < |b| ==> MayPrecede(b[k], b[l])
    requires forall k, l :: 0 <= k < l < |c| ==> MayPrecede(c[k], c[l])
    requires i < j < |a + b + c|
    ensures MayPrecede((a + b + c)[i], (a + b + c)[j])
  {
    EntryOf(a, b, c, i);
    EntryOf(a, b, c, j);
    if |a| <= i && j < |a| + |b| {
      assert MayPrecede(b[i - |a|], b[j - |a|]);
    } else if |a| + |b| <= i {
      assert MayPrecede(c[i - |a| - |b|], c[j - |a| - |b|]);
    }
  }

  lemma EntryOf(a: seq<Entry>, b: seq<Entry>, c: seq<Entry>, i: nat)
    requires i < |a + b + c|
    ensures
      var e := (a + b + c)[i];
      if i < |a| then e == a[i] && e in a
      else if i < |a| + |b| then e == b[i - |a|] && e in b
      else e == c[i - |a| - |b|] && e in c
  {
  }

  /** The divergence entry comes first, then the local events, newest first, then the workflow's, latest first. */
  lemma TimelineIsOrdered(src: Sources, kind: Option<string>, i: nat, j: nat)
    requires i < j < |Full(src, kind)|
    ensures MayPrecede(Full(src, kind)[i], Full(src, kind)[j])
  {
    var (a, b, c) := (Synthetic(src, kind), ToEntries(Newest(src.rows, kind)), FromRepository(Workflow(src, kind)));
    forall k, l | 0 <= k < l < |b| ensures MayPrecede(b[k], b[l]) {
      LocalOrdered(src.rows, kind, k, l);
    }
    forall k, l | 0 <= k < l < |c| ensures MayPrecede(c[k], c[l]) {
      WorkflowOrdered(src, kind, k, l);
    }
    PartsOrdered(a, b, c, i, j);
  }
}
