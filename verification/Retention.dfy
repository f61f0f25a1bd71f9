// Report storage, inventory projection tasks and report retention: one step per
// transaction. A context row names the reports it was taken from, the support table keeps
// those reports alive, and retention deletes only what nothing refers to.
module Retention {
  import opened Options
  import opened Lex
  import opened Projection

  type Id = string
  type Token = nat

  const MAX_ATTEMPTS: nat := 5

  // The hostname a report's target names: none for addresses, or one that does not normalise.
  datatype Host = NoHost | InvalidHost | Host(name: string)
  datatype Document = Document(report: Report, host: Host, context: string, startedAt: Time)
  datatype Stored = Stored(document: Document, createdAt: Time)

  datatype Status = Pending | Running | Failed
  // due is the lease expiry of a running task and the retry time of a failed one.
  datatype Task = Task(generation: nat, status: Status, attempts: nat, token: Option<Token>, due: Time, createdAt: Time)
  datatype TaskKey = TaskKey(report: Id, version: string)
  datatype Tombstone = Tombstone(generation: nat, suppressed: bool, deletedAt: Time)
  datatype ContextKey = ContextKey(hostname: string, context: string)
  // The asset a job target was selected from; an asset's ID stands for its hostname.
  datatype Selection = Selection(hostname: string, generation: nat)
  // A job target as retention sees it: queued or running, its replay input and its result.
  datatype Target = Target(active: bool, reclassifies: Option<Id>, report: Option<Id>)

  datatype Tables = Tables(reports: map<Id, Stored>, targets: map<Id, Target>, tasks: map<TaskKey, Task>,
                           assets: map<string, nat>, tombstones: map<string, Tombstone>,
                           contexts: map<ContextKey, Row>, support: map<ContextKey, set<Id>>)

  const EMPTY_TABLES := Tables(map[], map[], map[], map[], map[], map[], map[])

  // ------------------------------------------------------------ storing reports

  predicate Refused(t: Tables, d: Document) {
    && d.host.Host? && d.host.name in t.tombstones
    && (t.tombstones[d.host.name].suppressed || t.tombstones[d.host.name].deletedAt >= d.startedAt)
  }

  predicate Outdated(t: Tables, d: Document, selection: Option<Selection>) {
    && d.host.Host? && selection.Some?
    && (|| selection.value.hostname != d.host.name || d.host.name !in t.assets
        || t.assets[d.host.name] != selection.value.generation)
  }

  function BirthGeneration(t: Tables, hostname: string): nat {
    if hostname in t.tombstones then t.tombstones[hostname].generation else 0
  }

  function UpsertTask(t: Tables, k: TaskKey, generation: nat, now: Time): Task {
    if k !in t.tasks then Task(generation, Pending, 0, None, 0, now)
    else if t.tasks[k].status == Failed && t.tasks[k].attempts >= MAX_ATTEMPTS then t.tasks[k].(status := Pending, attempts := 0, token := None, due := 0)
    else t.tasks[k]
  }

  // publishReportInventory
  function QueueProjection(t: Tables, d: Document, selection: Option<Selection>, version: string, now: Time): Tables {
    if !d.host.Host? || Refused(t, d) || Outdated(t, d, selection) then t
    else
      var h := d.host.name;
      var assets := if h in t.assets then t.assets else t.assets[h := BirthGeneration(t, h)];
      var k := TaskKey(d.report.id, version);
      t.(assets := assets, tasks := t.tasks[k := UpsertTask(t, k, assets[h], now)])
  }

  // The reports a save is refused for: no ID, a hostname that does not normalise, an ID
  // stored with other content, or a replay of a report that is not stored.
  predicate Storable(t: Tables, d: Document) {
    && d.report.id != "" && !d.host.InvalidHost?
    && (d.report.id in t.reports ==> t.reports[d.report.id].document == d)
    && (d.report.id !in t.reports ==> d.report.original in {"", d.report.id} || d.report.original in t.reports)
  }

  function Inserted(t: Tables, d: Document, now: Time): Tables {
    if d.report.id in t.reports then t else t.(reports := t.reports[d.report.id := Stored(d, now)])
  }

  function SaveReport(t: Tables, d: Document, selection: Option<Selection>, version: string, now: Time): Tables {
    if !Storable(t, d) then t else QueueProjection(Inserted(t, d, now), d, selection, version, now)
  }

  // ---------------------------------------------------------------- job targets

  function AddTarget(t: Tables, id: Id, reclassifies: Option<Id>): Tables {
    if id in t.targets || (reclassifies.Some? && reclassifies.value !in t.reports) then t
    else t.(targets := t.targets[id := Target(true, reclassifies, None)])
  }

  // A completion stores its report in the same transaction.
  function CompleteTarget(t: Tables, id: Id, d: Option<Document>, selection: Option<Selection>, version: string, now: Time): Tables {
    if id !in t.targets || !t.targets[id].active || (d.Some? && !Storable(t, d.value)) then t
    else
      var s := if d.Some? then SaveReport(t, d.value, selection, version, now) else t;
      s.(targets := t.targets[id := Target(false, t.targets[id].reclassifies, if d.Some? then Some(d.value.report.id) else None)])
  }

  function CancelTarget(t: Tables, id: Id): Tables {
    if id !in t.targets then t else t.(targets := t.targets[id := t.targets[id].(active := false)])
  }

  // ----------------------------------------------------------- projection tasks

  predicate Claimable(t: Tables, k: TaskKey, now: Time) {
    && k in t.tasks && t.tasks[k].attempts < MAX_ATTEMPTS
    && (t.tasks[k].status == Pending || t.tasks[k].due <= now)
  }

  // The order of the claim query, and what it returns: the first claimable task that no other
  // worker has locked.
  predicate Queued(t: Tables, j: TaskKey, k: TaskKey) {
    && j in t.tasks && k in t.tasks
    && (t.tasks[j].createdAt < t.tasks[k].createdAt || (t.tasks[j].createdAt == t.tasks[k].createdAt && Less(j.report, k.report)))
  }

  ghost predicate IsFirst(t: Tables, locked: set<TaskKey>, k: TaskKey, now: Time) {
    && Claimable(t, k, now) && k !in locked
    && forall j :: Claimable(t, j, now) && j !in locked ==> !Queued(t, j, k)
  }

  function Claim(t: Tables, k: TaskKey, token: Token, now: Time): Tables
    requires k in t.tasks
  {
    t.(tasks := t.tasks[k := t.tasks[k].(status := Running, attempts := t.tasks[k].attempts + 1, token := Some(token), due := now + 30)])
  }

  predicate HoldsLease(t: Tables, k: TaskKey, token: Token) { k in t.tasks && t.tasks[k].token == Some(token) }

  function Fail(t: Tables, k: TaskKey, token: Token, now: Time): Tables {
    if !HoldsLease(t, k, token) then t
    else
      var a := t.tasks[k].attempts;
      t.(tasks := t.tasks[k := t.tasks[k].(status := Failed, token := None, due := now + if a * a < 300 then a * a else 300)])
  }

  // The report IDs a context row and its DNS rows hold.
  function NamedBy<V>(e: Option<Entry<V>>): set<Id> { if e.Some? then {e.value.report} else {} }

  function NamedByRow(row: DnsRow): set<Id> { {row.latest.report} + NamedBy(row.positive) }

  function NamedByDns(dns: map<Question, DnsRow>): set<Id> {
    set q, id | q in dns && id in NamedByRow(dns[q]) :: id
  }

  function Named(row: Row): set<Id> {
    NamedBy(row.latest) + NamedBy(row.positive) + NamedBy(row.lastHttp)
    + (if row.description.Some? then {row.description.value.report} else {}) + NamedByDns(row.dns)
  }

  function RowAt(t: Tables, c: ContextKey): Row { if c in t.contexts then t.contexts[c] else EMPTY }

  function Supported(t: Tables, c: ContextKey, row: Row): Tables {
    t.(contexts := t.contexts[c := row], support := t.support[c := Named(row) - {""}])
  }

  predicate Obsolete(t: Tables, k: TaskKey, hostname: string)
    requires k in t.tasks
  {
    hostname !in t.assets || t.assets[hostname] != t.tasks[k].generation
  }

  // publishInventoryProjection
  function Publish(t: Tables, k: TaskKey, token: Token, d: Document): Tables {
    if !d.host.Host? || !HoldsLease(t, k, token) || t.tasks[k].status != Running then t
    else if Obsolete(t, k, d.host.name) then t.(tasks := t.tasks - {k})
    else
      var c := ContextKey(d.host.name, d.context);
      Supported(t, c, Project(RowAt(t, c), d.host.name, d.report)).(tasks := t.tasks - {k})
  }

  predicate Projects(t: Tables, k: TaskKey, token: Token, d: Document) {
    d.host.Host? && HoldsLease(t, k, token) && t.tasks[k].status == Running && !Obsolete(t, k, d.host.name)
  }

  function DeleteInventory(t: Tables, hostname: string, suppress: bool, now: Time): Tables {
    t.(tombstones := t.tombstones[hostname := Tombstone(BirthGeneration(t, hostname) + 1, suppress, now)],
       assets := t.assets - {hostname},
       contexts := map c | c in t.contexts && c.hostname != hostname :: t.contexts[c],
       support := map c | c in t.support && c.hostname != hostname :: t.support[c])
  }

  // ------------------------------------------------------------------- retention

  predicate ReplayOf(t: Tables, r: Id, id: Id) { r in t.reports && t.reports[r].document.report.original == id }
  predicate ReclassifiedBy(t: Tables, x: Id, id: Id) { x in t.targets && t.targets[x].active && t.targets[x].reclassifies == Some(id) }
  predicate ResultOf(t: Tables, x: Id, id: Id) { x in t.targets && t.targets[x].active && t.targets[x].report == Some(id) }
  predicate AwaitsProjection(t: Tables, k: TaskKey, id: Id) { k in t.tasks && k.report == id }
  predicate Supports(t: Tables, c: ContextKey, id: Id) { c in t.support && id in t.support[c] }

  datatype Protection = ReplayInput | ActiveReclassification | ActiveTarget | PendingProjection | InventoryEvidence | Unprotected

  function Protect(t: Tables, id: Id): Protection {
    if exists r :: r in t.reports && ReplayOf(t, r, id) then ReplayInput
    else if exists x :: x in t.targets && ReclassifiedBy(t, x, id) then ActiveReclassification
    else if exists x :: x in t.targets && ResultOf(t, x, id) then ActiveTarget
    else if exists k :: k in t.tasks && AwaitsProjection(t, k, id) then PendingProjection
    else if exists c :: c in t.support && Supports(t, c, id) then InventoryEvidence
    else Unprotected
  }

  function Detached(x: Target, ids: set<Id>): Target {
    if !x.active && x.report.Some? && x.report.value in ids then x.(report := None) else x
  }

  // Deletes reports, detaching the terminal targets they were the result of.
  function Remove(t: Tables, ids: set<Id>): Tables {
    t.(targets := map x | x in t.targets :: Detached(t.targets[x], ids), reports := t.reports - ids)
  }

  // The reports one applied page deletes: each candidate is judged after the deletions
  // before it.
  function Doomed(t: Tables, page: seq<Id>): set<Id> {
    if page == [] then {}
    else
      var d := Doomed(t, page[..|page| - 1]);
      if Protect(Remove(t, d), page[|page| - 1]) == Unprotected then d + {page[|page| - 1]} else d
  }

  function Retain(t: Tables, page: seq<Id>): Tables { Remove(t, Doomed(t, page)) }

  // -------------------------------------------------------------- the whole system

  // A worker's claim, and the document it loaded for it.
  datatype Worker = Worker(key: TaskKey, token: Token, loaded: Option<Document>)

  // history is auxiliary: the reports projected into each context since it was created.
  datatype System = System(tables: Tables, workers: map<nat, Worker>, issued: set<Token>, history: map<ContextKey, seq<Report>>)

  datatype Step =
    | SSave(d: Document, selection: Option<Selection>, version: string, now: Time)
    | SBackfill(id: Id, version: string, now: Time)
    | SAddTarget(id: Id, reclassifies: Option<Id>)
    | SComplete(id: Id, result: Option<Document>, selection: Option<Selection>, version: string, now: Time)
    | SCancel(id: Id)
    | SClaim(w: nat, key: TaskKey, token: Token, now: Time)
    | SLoad(w: nat)
    | SPublish(w: nat)
    | SFail(w: nat, now: Time)
    | SDelete(hostname: string, suppress: bool, now: Time)
    | SRetain(page: seq<Id>)

  predicate Enabled(s: System, step: Step) {
    match step
    case SBackfill(id, _, _) => id in s.tables.reports
    case SClaim(_, k, token, now) => Claimable(s.tables, k, now) && token !in s.issued
    case SLoad(w) => w in s.workers && s.workers[w].key.report in s.tables.reports
    case SPublish(w) => w in s.workers && s.workers[w].loaded.Some?
    case SFail(w, _) => w in s.workers
    case SRetain(page) => forall i :: 0 <= i < |page| ==> page[i] in s.tables.reports
    case _ => true
  }

  function PublishBy(s: System, w: Worker, d: Document): System {
    var n := s.(tables := Publish(s.tables, w.key, w.token, d));
    if !Projects(s.tables, w.key, w.token, d) then n
    else
      var c := ContextKey(d.host.name, d.context);
      n.(history := s.history[c := (if c in s.history then s.history[c] else []) + [d.report]])
  }

  function Next(s: System, step: Step): System
    requires Enabled(s, step)
  {
    match step
    case SSave(d, selection, version, now) => s.(tables := SaveReport(s.tables, d, selection, version, now))
    case SBackfill(id, version, now) => s.(tables := QueueProjection(s.tables, s.tables.reports[id].document, None, version, now))
    case SAddTarget(id, reclassifies) => s.(tables := AddTarget(s.tables, id, reclassifies))
    case SComplete(id, d, selection, version, now) => s.(tables := CompleteTarget(s.tables, id, d, selection, version, now))
    case SCancel(id) => s.(tables := CancelTarget(s.tables, id))
    case SClaim(w, k, token, now) =>
      s.(tables := Claim(s.tables, k, token, now), workers := s.workers[w := Worker(k, token, None)], issued := s.issued + {token})
    case SLoad(w) => s.(workers := s.workers[w := s.workers[w].(loaded := Some(s.tables.reports[s.workers[w].key.report].document))])
    case SPublish(w) => PublishBy(s, s.workers[w], s.workers[w].loaded.value)
    case SFail(w, now) => s.(tables := Fail(s.tables, s.workers[w].key, s.workers[w].token, now))
    case SDelete(h, suppress, now) =>
      s.(tables := DeleteInventory(s.tables, h, suppress, now), history := map c | c in s.history && c.hostname != h :: s.history[c])
    case SRetain(page) => s.(tables := Retain(s.tables, page))
  }

  const START := System(EMPTY_TABLES, map[], {}, map[])

  predicate Reaches(s: System, steps: seq<Step>, n: System)
    decreases |steps|
  {
    if steps == [] then n == s
    else Enabled(s, steps[0]) && Reaches(Next(s, steps[0]), steps[1..], n)
  }

  // ------------------------------------------------------------------- invariant

  predicate TaskGrounded(t: Tables, k: TaskKey) { k in t.tasks ==> k.report in t.reports }
  predicate ReportGrounded(t: Tables, id: Id) {
    id in t.reports ==>
      var r := t.reports[id].document.report;
      id != "" && r.id == id && (r.original == "" || r.original in t.reports)
  }
  predicate TargetGrounded(t: Tables, x: Id) {
    x in t.targets ==>
      && (t.targets[x].report.Some? ==> t.targets[x].report.value in t.reports)
      && (t.targets[x].active && t.targets[x].reclassifies.Some? ==> t.targets[x].reclassifies.value in t.reports)
  }
  predicate ContextGrounded(t: Tables, c: ContextKey) {
    && (c in t.contexts <==> c in t.support)
    && (c in t.contexts ==> t.support[c] == Named(t.contexts[c]) && t.support[c] <= t.reports.Keys)
  }

  ghost predicate TasksGrounded(t: Tables) { forall k :: TaskGrounded(t, k) }
  ghost predicate ReportsGrounded(t: Tables) { forall id :: ReportGrounded(t, id) }
  ghost predicate TargetsGrounded(t: Tables) { forall x :: TargetGrounded(t, x) }
  ghost predicate ContextsGrounded(t: Tables) { forall c :: ContextGrounded(t, c) }

  ghost predicate Grounded(t: Tables) { TasksGrounded(t) && ReportsGrounded(t) && TargetsGrounded(t) && ContextsGrounded(t) }

  // A worker that still holds its lease holds the stored document.
  predicate WorkerFaithful(s: System, w: nat) {
    w in s.workers && HoldsLease(s.tables, s.workers[w].key, s.workers[w].token) && s.workers[w].loaded.Some? ==>
      var id := s.workers[w].key.report;
      id in s.tables.reports && s.tables.reports[id].document == s.workers[w].loaded.value
  }
  predicate WorkerIssued(s: System, w: nat) { w in s.workers ==> s.workers[w].token in s.issued }
  predicate RowExplained(s: System, c: ContextKey) {
    && (c in s.tables.contexts <==> c in s.history)
    && (c in s.tables.contexts ==> s.tables.contexts[c] == ProjectAll(EMPTY, c.hostname, s.history[c]))
  }

  ghost predicate WorkersFaithful(s: System) { forall w :: WorkerFaithful(s, w) }
  ghost predicate WorkersIssued(s: System) { forall w :: WorkerIssued(s, w) }
  ghost predicate Explained(s: System) { forall c :: RowExplained(s, c) }

  ghost predicate Inv(s: System) { Grounded(s.tables) && WorkersFaithful(s) && WorkersIssued(s) && Explained(s) }

  // ------------------------------------------------------------- grounding is kept

  // Steps that store reports and leave contexts alone.
  predicate Grows(t: Tables, n: Tables) {
    && (forall id :: id in t.reports ==> id in n.reports && n.reports[id] == t.reports[id])
    && n.contexts == t.contexts && n.support == t.support
  }

  lemma GrowsKeepsContexts(t: Tables, n: Tables)
    requires ContextsGrounded(t) && Grows(t, n)
    ensures ContextsGrounded(n)
  {
    forall c ensures ContextGrounded(n, c) { assert ContextGrounded(t, c); }
  }

  lemma InsertKeeps(t: Tables, d: Document, now: Time)
    requires Grounded(t) && Storable(t, d)
    ensures Grounded(Inserted(t, d, now)) && Grows(t, Inserted(t, d, now))
  {
    var n := Inserted(t, d, now);
    forall k ensures TaskGrounded(n, k) { assert TaskGrounded(t, k); }
    forall id ensures ReportGrounded(n, id) { assert ReportGrounded(t, id); }
    forall x ensures TargetGrounded(n, x) { assert TargetGrounded(t, x); }
    GrowsKeepsContexts(t, n);
  }

  lemma SaveKeeps(t: Tables, d: Document, selection: Option<Selection>, version: string, now: Time)
    requires Grounded(t)
    ensures Grounded(SaveReport(t, d, selection, version, now)) && Grows(t, SaveReport(t, d, selection, version, now))
    ensures Storable(t, d) ==> d.report.id in SaveReport(t, d, selection, version, now).reports
  {
    if Storable(t, d) {
      InsertKeeps(t, d, now);
      QueueKeeps(Inserted(t, d, now), d, selection, version, now);
    }
  }

  lemma QueueKeeps(t: Tables, d: Document, selection: Option<Selection>, version: string, now: Time)
    requires Grounded(t) && d.report.id in t.reports
    ensures Grounded(QueueProjection(t, d, selection, version, now)) && Grows(t, QueueProjection(t, d, selection, version, now))
    ensures QueueProjection(t, d, selection, version, now).reports == t.reports
  {
    var n := QueueProjection(t, d, selection, version, now);
    forall k ensures TaskGrounded(n, k) { assert TaskGrounded(t, k); }
    forall id ensures ReportGrounded(n, id) { assert ReportGrounded(t, id); }
    forall x ensures TargetGrounded(n, x) { assert TargetGrounded(t, x); }
    GrowsKeepsContexts(t, n);
  }

  // Only the targets change, and they stay grounded.
  lemma TargetsKeep(t: Tables, n: Tables)
    requires Grounded(t) && n == t.(targets := n.targets) && TargetsGrounded(n)
    ensures Grounded(n)
  {
    forall k ensures TaskGrounded(n, k) { assert TaskGrounded(t, k); }
    forall id ensures ReportGrounded(n, id) { assert ReportGrounded(t, id); }
    GrowsKeepsContexts(t, n);
  }

  lemma AddTargetKeeps(t: Tables, id: Id, reclassifies: Option<Id>)
    requires Grounded(t)
    ensures Grounded(AddTarget(t, id, reclassifies))
  {
    var n := AddTarget(t, id, reclassifies);
    forall x ensures TargetGrounded(n, x) { assert TargetGrounded(t, x); }
    TargetsKeep(t, n);
  }

  lemma CancelTargetKeeps(t: Tables, id: Id)
    requires Grounded(t)
    ensures Grounded(CancelTarget(t, id))
  {
    var n := CancelTarget(t, id);
    forall x ensures TargetGrounded(n, x) { assert TargetGrounded(t, x); }
    TargetsKeep(t, n);
  }

  lemma CompleteKeeps(t: Tables, id: Id, d: Option<Document>, selection: Option<Selection>, version: string, now: Time)
    requires Grounded(t)
    ensures Grounded(CompleteTarget(t, id, d, selection, version, now)) && Grows(t, CompleteTarget(t, id, d, selection, version, now))
  {
    var n := CompleteTarget(t, id, d, selection, version, now);
    if n != t {
      var s := if d.Some? then SaveReport(t, d.value, selection, version, now) else t;
      if d.Some? {
        SaveKeeps(t, d.value, selection, version, now);
      }
      forall x ensures TargetGrounded(n, x) { assert TargetGrounded(s, x) && TargetGrounded(t, x); }
      TargetsKeep(s, n);
    }
  }

  // Only the tasks change, and they stay grounded.
  lemma TasksKeep(t: Tables, n: Tables)
    requires Grounded(t) && n == t.(tasks := n.tasks) && n.tasks.Keys <= t.tasks.Keys
    ensures Grounded(n)
  {
    forall k ensures TaskGrounded(n, k) { assert TaskGrounded(t, k); }
    forall id ensures ReportGrounded(n, id) { assert ReportGrounded(t, id); }
    forall x ensures TargetGrounded(n, x) { assert TargetGrounded(t, x); }
    GrowsKeepsContexts(t, n);
  }

  // A projected row names only what it named before and the projected report.
  lemma {:induction false} PutAllNames<V>(r: Option<Entry<V>>, es: seq<Entry<V>>, id: Id)
    requires forall i :: 0 <= i < |es| ==> es[i].report == id
    ensures NamedBy(PutAll(r, es)) <= NamedBy(r) + {id}
  {
    if es != [] {
      PutAllNames(r, es[..|es| - 1], id);
    }
  }

  lemma UpsertNames(dns: map<Question, DnsRow>, id: Id, hostname: string, o: Observation)
    ensures NamedByDns(UpsertDns(dns, id, hostname, o)) <= NamedByDns(dns) + {id}
  {
    var n := UpsertDns(dns, id, hostname, o);
    forall x | x in NamedByDns(n) ensures x in NamedByDns(dns) + {id} {
      var q :| q in n && x in NamedByRow(n[q]);
      if q in dns && x in NamedByRow(dns[q]) {
        RowIsNamed(dns, q, x);
      }
    }
  }

  lemma RowIsNamed(dns: map<Question, DnsRow>, q: Question, id: Id)
    requires q in dns && id in NamedByRow(dns[q])
    ensures id in NamedByDns(dns)
  {
  }

  lemma {:induction false} UpsertAllNames(dns: map<Question, DnsRow>, id: Id, hostname: string, observations: seq<Observation>)
    ensures NamedByDns(UpsertAll(dns, id, hostname, observations)) <= NamedByDns(dns) + {id}
  {
    if observations != [] {
      UpsertAllNames(dns, id, hostname, observations[..|observations| - 1]);
      UpsertNames(UpsertAll(dns, id, hostname, observations[..|observations| - 1]), id, hostname, observations[|observations| - 1]);
    }
  }

  lemma ProjectNames(row: Row, hostname: string, r: Report)
    ensures Named(Project(row, hostname, r)) <= Named(row) + {r.id}
  {
    PutAllNames(row.latest, LatestFeed(r), r.id);
    PutAllNames(row.positive, PositiveFeed(r), r.id);
    forall i | 0 <= i < |HttpFeed(hostname, r)| ensures HttpFeed(hostname, r)[i].report == r.id {
      HttpSigned(r.id, hostname, r.observations, i);
    }
    PutAllNames(row.lastHttp, HttpFeed(hostname, r), r.id);
    UpsertAllNames(row.dns, r.id, hostname, r.observations);
  }

  lemma SupportedKeeps(t: Tables, c: ContextKey, row: Row)
    requires Grounded(t) && Named(row) <= t.reports.Keys
    ensures Grounded(Supported(t, c, row))
  {
    var n := Supported(t, c, row);
    forall k ensures TaskGrounded(n, k) { assert TaskGrounded(t, k); }
    forall id ensures ReportGrounded(n, id) { assert ReportGrounded(t, id); }
    forall x ensures TargetGrounded(n, x) { assert TargetGrounded(t, x); }
    assert ReportGrounded(t, "");
    forall d ensures ContextGrounded(n, d) { assert ContextGrounded(t, d); }
  }

  // The support table is rebuilt in the transaction that drops the task, so the report stays
  // named throughout.
  lemma PublishKeeps(t: Tables, k: TaskKey, token: Token, d: Document)
    requires Grounded(t) && (HoldsLease(t, k, token) ==> d.report.id in t.reports)
    ensures Grounded(Publish(t, k, token, d))
  {
    var n := Publish(t, k, token, d);
    if Projects(t, k, token, d) {
      var c := ContextKey(d.host.name, d.context);
      var row := Project(RowAt(t, c), d.host.name, d.report);
      ProjectNames(RowAt(t, c), d.host.name, d.report);
      assert ContextGrounded(t, c);
      SupportedKeeps(t, c, row);
      TasksKeep(Supported(t, c, row), n);
    } else {
      TasksKeep(t, n);
    }
  }

  lemma DeleteKeeps(t: Tables, hostname: string, suppress: bool, now: Time)
    requires Grounded(t)
    ensures Grounded(DeleteInventory(t, hostname, suppress, now))
  {
    var n := DeleteInventory(t, hostname, suppress, now);
    forall k ensures TaskGrounded(n, k) { assert TaskGrounded(t, k); }
    forall id ensures ReportGrounded(n, id) { assert ReportGrounded(t, id); }
    forall x ensures TargetGrounded(n, x) { assert TargetGrounded(t, x); }
    forall c ensures ContextGrounded(n, c) { assert ContextGrounded(t, c); }
  }

  // ---------------------------------------------------------- what retention deletes

  // References that no report deletion takes away.
  predicate Needed(t: Tables, id: Id) {
    || (exists x :: x in t.targets && ReclassifiedBy(t, x, id))
    || (exists x :: x in t.targets && ResultOf(t, x, id))
    || (exists k :: k in t.tasks && AwaitsProjection(t, k, id))
    || (exists c :: c in t.support && Supports(t, c, id))
  }

  predicate Replayed(t: Tables, id: Id) { exists r :: r in t.reports && ReplayOf(t, r, id) }

  lemma ProtectMeaning(t: Tables, id: Id)
    ensures Protect(t, id) == Unprotected <==> !Needed(t, id) && !Replayed(t, id)
  {
  }

  lemma RemovalKeepsNeeds(t: Tables, ids: set<Id>, id: Id)
    ensures Needed(Remove(t, ids), id) <==> Needed(t, id)
  {
    var n := Remove(t, ids);
    assert forall x :: ReclassifiedBy(n, x, id) == ReclassifiedBy(t, x, id);
    assert forall x :: ResultOf(n, x, id) == ResultOf(t, x, id);
    assert forall k :: AwaitsProjection(n, k, id) == AwaitsProjection(t, k, id);
    assert forall c :: Supports(n, c, id) == Supports(t, c, id);
  }

  lemma RemovalFrees(t: Tables, ids: set<Id>, more: set<Id>, id: Id)
    requires ids <= more
    ensures Protect(Remove(t, ids), id) == Unprotected ==> Protect(Remove(t, more), id) == Unprotected
  {
    RemovalKeepsNeeds(t, ids, id);
    RemovalKeepsNeeds(t, more, id);
    ProtectMeaning(Remove(t, ids), id);
    ProtectMeaning(Remove(t, more), id);
    assert forall r :: ReplayOf(Remove(t, more), r, id) ==> ReplayOf(Remove(t, ids), r, id);
  }

  lemma RemoveTwice(t: Tables, ids: set<Id>, id: Id)
    ensures Remove(Remove(t, ids), {id}) == Remove(t, ids + {id})
  {
    assert (t.reports - ids) - {id} == t.reports - (ids + {id});
    forall x | x in t.targets ensures Detached(Detached(t.targets[x], ids), {id}) == Detached(t.targets[x], ids + {id}) { }
  }

  // Nothing but the report itself refers to it.
  predicate Unreferenced(t: Tables, id: Id) { !Needed(t, id) && forall r :: r in t.reports && ReplayOf(t, r, id) ==> r == id }

  // A report that is stored as a replay of itself, and that nothing else refers to.
  predicate OnlyItsOwnReplay(t: Tables, id: Id) { ReplayOf(t, id, id) && Unreferenced(t, id) }

  // Deleting one report keeps every reference in place exactly when the protection query calls
  // it unprotected or it is only its own replay.
  lemma ProtectionIsExact(t: Tables, id: Id)
    requires Grounded(t) && id in t.reports
    ensures Grounded(Remove(t, {id})) <==> Protect(t, id) == Unprotected || OnlyItsOwnReplay(t, id)
  {
    ProtectMeaning(t, id);
    if Unreferenced(t, id) {
      RemoveOneKeeps(t, id);
    } else {
      ReferenceBreaks(t, id);
    }
  }

  lemma RemoveOneKeeps(t: Tables, id: Id)
    requires Grounded(t) && Unreferenced(t, id)
    ensures Grounded(Remove(t, {id}))
  {
    var n := Remove(t, {id});
    assert ReportGrounded(t, id);
    forall k ensures TaskGrounded(n, k) { assert TaskGrounded(t, k) && !AwaitsProjection(t, k, id); }
    forall r ensures ReportGrounded(n, r) { assert ReportGrounded(t, r) && (ReplayOf(t, r, id) ==> r == id); }
    forall x ensures TargetGrounded(n, x) { assert TargetGrounded(t, x) && !ResultOf(t, x, id) && !ReclassifiedBy(t, x, id); }
    forall c ensures ContextGrounded(n, c) { assert ContextGrounded(t, c) && !Supports(t, c, id); }
  }

  lemma ReferenceBreaks(t: Tables, id: Id)
    requires Grounded(t) && id in t.reports && !Unreferenced(t, id)
    ensures !Grounded(Remove(t, {id}))
  {
    var n := Remove(t, {id});
    assert ReportGrounded(t, id);
    if r :| r in t.reports && ReplayOf(t, r, id) && r != id {
      assert !ReportGrounded(n, r);
    } else if x :| x in t.targets && ReclassifiedBy(t, x, id) {
      assert !TargetGrounded(n, x);
    } else if x :| x in t.targets && ResultOf(t, x, id) {
      assert !TargetGrounded(n, x);
    } else if k :| k in t.tasks && AwaitsProjection(t, k, id) {
      assert !TaskGrounded(n, k);
    } else {
      var c :| c in t.support && Supports(t, c, id);
      assert id in n.support[c] && id !in n.reports;
      assert !ContextGrounded(n, c);
    }
  }

  lemma {:induction false} RetainKeeps(t: Tables, page: seq<Id>)
    requires Grounded(t)
    ensures Grounded(Retain(t, page))
  {
    if page == [] {
      RemoveNothing(t);
    } else {
      var front, id := page[..|page| - 1], page[|page| - 1];
      RetainKeeps(t, front);
      if Protect(Remove(t, Doomed(t, front)), id) == Unprotected {
        RemoveTwice(t, Doomed(t, front), id);
        ProtectMeaning(Retain(t, front), id);
        RemoveOneKeeps(Retain(t, front), id);
      }
    }
  }

  lemma RemoveNothing(t: Tables)
    ensures Remove(t, {}) == t
  {
    assert t.reports - {} == t.reports;
    forall x | x in t.targets ensures Detached(t.targets[x], {}) == t.targets[x] { }
  }

  // -------------------------------------------------------------- preview and apply

  // What a preview of the same page calls eligible.
  function Eligible(t: Tables, page: seq<Id>): set<Id> {
    set i | 0 <= i < |page| && Protect(t, page[i]) == Unprotected :: page[i]
  }

  // The candidate's only references are replays that stand before it and are eligible.
  predicate Exposed(t: Tables, page: seq<Id>, i: nat)
    requires i < |page|
  {
    && !Needed(t, page[i]) && Replayed(t, page[i])
    && forall r :: r in t.reports && ReplayOf(t, r, page[i]) ==> r in Eligible(t, page[..i])
  }

  lemma EligibleExtends(t: Tables, page: seq<Id>)
    requires page != []
    ensures var front, id := page[..|page| - 1], page[|page| - 1];
            Eligible(t, page) == if Protect(t, id) == Unprotected then Eligible(t, front) + {id} else Eligible(t, front)
  {
    var front, id := page[..|page| - 1], page[|page| - 1];
    assert forall i :: 0 <= i < |front| ==> front[i] == page[i];
    forall x ensures x in Eligible(t, page) <==> x in Eligible(t, front) || (x == id && Protect(t, id) == Unprotected) {
      if x in Eligible(t, front) {
        var i :| 0 <= i < |front| && front[i] == x && Protect(t, front[i]) == Unprotected;
        assert page[i] == x;
      }
      if x in Eligible(t, page) {
        var i :| 0 <= i < |page| && page[i] == x && Protect(t, page[i]) == Unprotected;
        assert i < |front| ==> front[i] == x;
      }
    }
  }

  // Applying a page deletes everything its preview called eligible.
  lemma {:induction false} PreviewIsDeleted(t: Tables, page: seq<Id>)
    ensures Eligible(t, page) <= Doomed(t, page)
  {
    if page != [] {
      PreviewIsDeleted(t, page[..|page| - 1]);
      EligibleExtends(t, page);
      RemoveNothing(t);
      RemovalFrees(t, {}, Doomed(t, page[..|page| - 1]), page[|page| - 1]);
    }
  }

  lemma ExposedMeaning(t: Tables, ids: set<Id>, id: Id)
    ensures Protect(Remove(t, ids), id) == Unprotected
            <==> !Needed(t, id) && forall r :: r in t.reports && ReplayOf(t, r, id) ==> r in ids
  {
    RemovalKeepsNeeds(t, ids, id);
    ProtectMeaning(Remove(t, ids), id);
    assert forall r :: ReplayOf(Remove(t, ids), r, id) <==> ReplayOf(t, r, id) && r !in ids;
  }

  predicate NothingExposed(t: Tables, page: seq<Id>) { forall i :: 0 <= i < |page| ==> !Exposed(t, page, i) }

  lemma NothingExposedExtends(t: Tables, page: seq<Id>)
    requires page != []
    ensures NothingExposed(t, page) <==> NothingExposed(t, page[..|page| - 1]) && !Exposed(t, page, |page| - 1)
  {
    var n := |page| - 1;
    var front := page[..n];
    forall i | 0 <= i < n ensures Exposed(t, page, i) <==> Exposed(t, front, i) {
      assert page[..i] == front[..i];
    }
  }

  // A candidate is exposed when it is protected only until the eligible ones before it go.
  lemma ExposedIsFreed(t: Tables, page: seq<Id>, i: nat)
    requires i < |page|
    ensures Exposed(t, page, i) <==>
              Protect(t, page[i]) != Unprotected && Protect(Remove(t, Eligible(t, page[..i])), page[i]) == Unprotected
  {
    ProtectMeaning(t, page[i]);
    ExposedMeaning(t, Eligible(t, page[..i]), page[i]);
  }

  // It deletes nothing else exactly when no candidate is exposed by the deletions before it.
  lemma {:induction false} PreviewIsExact(t: Tables, page: seq<Id>)
    requires forall i, j :: 0 <= i < j < |page| ==> page[i] != page[j]
    ensures Doomed(t, page) == Eligible(t, page) <==> NothingExposed(t, page)
  {
    if page != [] {
      PreviewIsExact(t, page[..|page| - 1]);
      DoomedWithin(t, page[..|page| - 1]);
      ExactStep(t, page);
      NothingExposedExtends(t, page);
    }
  }

  // The last candidate keeps the two sets equal unless it is exposed.
  lemma ExactStep(t: Tables, page: seq<Id>)
    requires page != [] && page[|page| - 1] !in Doomed(t, page[..|page| - 1])
    ensures var front := page[..|page| - 1];
            Doomed(t, page) == Eligible(t, page) <==> Doomed(t, front) == Eligible(t, front) && !Exposed(t, page, |page| - 1)
  {
    var front, id := page[..|page| - 1], page[|page| - 1];
    EligibleExtends(t, page);
    ExposedIsFreed(t, page, |page| - 1);
    PreviewIsDeleted(t, front);
    PreviewStep(t, Eligible(t, front), Doomed(t, front), id);
    ExtendBoth(Eligible(t, front), Doomed(t, front), id, Protect(t, id) == Unprotected,
               Protect(Remove(t, Eligible(t, front)), id) == Unprotected, Protect(Remove(t, Doomed(t, front)), id) == Unprotected);
  }

  function With(ids: set<Id>, id: Id, also: bool): set<Id> { if also then ids + {id} else ids }

  lemma ExtendBoth(eligible: set<Id>, doomed: set<Id>, id: Id, now: bool, freed: bool, gone: bool)
    requires eligible <= doomed && id !in doomed && (now ==> gone) && (freed ==> gone) && (eligible == doomed ==> freed == gone)
    ensures With(doomed, id, gone) == With(eligible, id, now) <==> eligible == doomed && !(!now && freed)
  {
    if doomed != eligible {
      var x :| x in doomed && x !in eligible;
      assert x in With(doomed, id, gone) && x !in With(eligible, id, now);
    } else if gone && !now {
      assert id in With(doomed, id, gone);
    }
  }

  lemma PreviewStep(t: Tables, eligible: set<Id>, doomed: set<Id>, id: Id)
    requires eligible <= doomed && id !in doomed
    ensures Protect(t, id) == Unprotected ==> Protect(Remove(t, doomed), id) == Unprotected
    ensures Protect(Remove(t, eligible), id) == Unprotected ==> Protect(Remove(t, doomed), id) == Unprotected
  {
    RemoveNothing(t);
    RemovalFrees(t, {}, doomed, id);
    RemovalFrees(t, eligible, doomed, id);
  }

  lemma {:induction false} DoomedWithin(t: Tables, page: seq<Id>)
    ensures forall id :: id in Doomed(t, page) ==> id in page
    ensures forall id :: id in Eligible(t, page) ==> id in page
  {
    if page != [] {
      DoomedWithin(t, page[..|page| - 1]);
    }
  }

  // ------------------------------------------------------------------ whole runs

  // Tables that keep stored documents and take no lease over keep the workers faithful.
  lemma StillFaithful(s: System, n: System)
    requires WorkersFaithful(s) && n.workers == s.workers
    requires forall k, token :: HoldsLease(n.tables, k, token) ==> HoldsLease(s.tables, k, token)
    requires forall k, token :: HoldsLease(n.tables, k, token) && k.report in s.tables.reports ==>
               k.report in n.tables.reports && n.tables.reports[k.report] == s.tables.reports[k.report]
    ensures WorkersFaithful(n)
  {
    forall w ensures WorkerFaithful(n, w) { assert WorkerFaithful(s, w); }
  }

  lemma ClaimFaithful(s: System, w: nat, k: TaskKey, token: Token, now: Time)
    requires WorkersFaithful(s) && WorkersIssued(s) && Enabled(s, SClaim(w, k, token, now))
    ensures WorkersFaithful(Next(s, SClaim(w, k, token, now))) && WorkersIssued(Next(s, SClaim(w, k, token, now)))
  {
    var n := Next(s, SClaim(w, k, token, now));
    forall v ensures WorkerFaithful(n, v) { assert WorkerFaithful(s, v) && WorkerIssued(s, v); }
    forall v ensures WorkerIssued(n, v) { assert WorkerIssued(s, v); }
  }

  lemma LoadFaithful(s: System, w: nat)
    requires WorkersFaithful(s) && WorkersIssued(s) && Enabled(s, SLoad(w))
    ensures WorkersFaithful(Next(s, SLoad(w))) && WorkersIssued(Next(s, SLoad(w)))
  {
    var n := Next(s, SLoad(w));
    forall v ensures WorkerFaithful(n, v) { assert WorkerFaithful(s, v) && WorkerIssued(s, v); }
    forall v ensures WorkerIssued(n, v) { assert WorkerIssued(s, v); }
  }

  lemma PublishFaithful(s: System, w: nat)
    requires WorkersFaithful(s) && Enabled(s, SPublish(w))
    ensures WorkersFaithful(Next(s, SPublish(w)))
  {
    StillFaithful(s, Next(s, SPublish(w)));
  }

  lemma {:induction false} RetainFaithful(s: System, page: seq<Id>)
    requires WorkersFaithful(s) && Grounded(s.tables) && Enabled(s, SRetain(page))
    ensures WorkersFaithful(Next(s, SRetain(page)))
  {
    var n := Next(s, SRetain(page));
    RetainKeeps(s.tables, page);
    forall k, token | HoldsLease(n.tables, k, token) ensures k.report in n.tables.reports { assert TaskGrounded(n.tables, k); }
    StillFaithful(s, n);
  }

  ghost predicate NoNewLease(t: Tables, n: Tables) { forall k, token :: HoldsLease(n, k, token) ==> HoldsLease(t, k, token) }

  lemma QueueTakesNoLease(t: Tables, d: Document, selection: Option<Selection>, version: string, now: Time)
    ensures NoNewLease(t, QueueProjection(t, d, selection, version, now))
  {
  }

  lemma SaveTakesNoLease(t: Tables, d: Document, selection: Option<Selection>, version: string, now: Time)
    ensures NoNewLease(t, SaveReport(t, d, selection, version, now))
  {
    QueueTakesNoLease(Inserted(t, d, now), d, selection, version, now);
  }

  lemma CompleteTakesNoLease(t: Tables, id: Id, d: Option<Document>, selection: Option<Selection>, version: string, now: Time)
    ensures NoNewLease(t, CompleteTarget(t, id, d, selection, version, now))
  {
    if d.Some? {
      SaveTakesNoLease(t, d.value, selection, version, now);
    }
  }

  lemma StoreFaithful(s: System, t: Tables)
    requires WorkersFaithful(s) && Grows(s.tables, t) && NoNewLease(s.tables, t)
    ensures WorkersFaithful(s.(tables := t))
  {
    StillFaithful(s, s.(tables := t));
  }

  lemma FaithfulKept(s: System, step: Step)
    requires Inv(s) && Enabled(s, step)
    ensures WorkersFaithful(Next(s, step))
  {
    match step
    case SSave(d, selection, version, now) =>
      SaveKeeps(s.tables, d, selection, version, now);
      SaveTakesNoLease(s.tables, d, selection, version, now);
      StoreFaithful(s, Next(s, step).tables);
    case SBackfill(id, version, now) =>
      assert ReportGrounded(s.tables, id);
      QueueKeeps(s.tables, s.tables.reports[id].document, None, version, now);
      QueueTakesNoLease(s.tables, s.tables.reports[id].document, None, version, now);
      StoreFaithful(s, Next(s, step).tables);
    case SComplete(id, d, selection, version, now) =>
      CompleteKeeps(s.tables, id, d, selection, version, now);
      CompleteTakesNoLease(s.tables, id, d, selection, version, now);
      StoreFaithful(s, Next(s, step).tables);
    case SClaim(w, k, token, now) => ClaimFaithful(s, w, k, token, now);
    case SLoad(w) => LoadFaithful(s, w);
    case SPublish(w) => PublishFaithful(s, w);
    case SRetain(page) => RetainFaithful(s, page);
    case SAddTarget(_, _) => StillFaithful(s, Next(s, step));
    case SCancel(_) => StillFaithful(s, Next(s, step));
    case SFail(_, _) => StillFaithful(s, Next(s, step));
    case SDelete(_, _, _) => StillFaithful(s, Next(s, step));
  }

  lemma IssuedKept(s: System, step: Step)
    requires Inv(s) && Enabled(s, step)
    ensures WorkersIssued(Next(s, step))
  {
    var n := Next(s, step);
    forall w ensures WorkerIssued(n, w) { assert WorkerIssued(s, w); }
  }

  lemma GroundedKept(s: System, step: Step)
    requires Inv(s) && Enabled(s, step)
    ensures Grounded(Next(s, step).tables)
  {
    match step
    case SSave(d, selection, version, now) => SaveKeeps(s.tables, d, selection, version, now);
    case SBackfill(id, version, now) =>
      assert ReportGrounded(s.tables, id);
      QueueKeeps(s.tables, s.tables.reports[id].document, None, version, now);
    case SAddTarget(id, reclassifies) => AddTargetKeeps(s.tables, id, reclassifies);
    case SComplete(id, d, selection, version, now) => CompleteKeeps(s.tables, id, d, selection, version, now);
    case SCancel(id) => CancelTargetKeeps(s.tables, id);
    case SClaim(w, k, token, now) => TasksKeep(s.tables, Claim(s.tables, k, token, now));
    case SLoad(_) =>
    case SPublish(w) =>
      assert WorkerFaithful(s, w);
      assert ReportGrounded(s.tables, s.workers[w].key.report);
      PublishKeeps(s.tables, s.workers[w].key, s.workers[w].token, s.workers[w].loaded.value);
    case SFail(w, now) => TasksKeep(s.tables, Fail(s.tables, s.workers[w].key, s.workers[w].token, now));
    case SDelete(h, suppress, now) => DeleteKeeps(s.tables, h, suppress, now);
    case SRetain(page) => RetainKeeps(s.tables, page);
  }

  lemma ProjectNext(hostname: string, rs: seq<Report>, r: Report)
    ensures ProjectAll(EMPTY, hostname, rs + [r]) == Project(ProjectAll(EMPTY, hostname, rs), hostname, r)
  {
    assert (rs + [r])[..|rs|] == rs;
  }

  lemma PublishExplained(s: System, w: Worker, d: Document)
    requires Explained(s)
    ensures Explained(PublishBy(s, w, d))
  {
    var n := PublishBy(s, w, d);
    if Projects(s.tables, w.key, w.token, d) {
      var c := ContextKey(d.host.name, d.context);
      assert RowExplained(s, c);
      ProjectNext(d.host.name, if c in s.history then s.history[c] else [], d.report);
    }
    forall c ensures RowExplained(n, c) { assert RowExplained(s, c); }
  }

  lemma StoringMovesNoContext(t: Tables, d: Document, selection: Option<Selection>, version: string, now: Time)
    ensures SaveReport(t, d, selection, version, now).contexts == t.contexts
  {
    var m := Inserted(t, d, now);
    QueueMovesNoContext(m, d, selection, version, now);
  }

  lemma QueueMovesNoContext(t: Tables, d: Document, selection: Option<Selection>, version: string, now: Time)
    ensures QueueProjection(t, d, selection, version, now).contexts == t.contexts
  {
  }

  lemma ContextsUnmoved(s: System, step: Step)
    requires Enabled(s, step) && !step.SPublish? && !step.SDelete?
    ensures Next(s, step).tables.contexts == s.tables.contexts && Next(s, step).history == s.history
  {
    match step
    case SSave(d, selection, version, now) => StoringMovesNoContext(s.tables, d, selection, version, now);
    case SComplete(_, Some(d), selection, version, now) => StoringMovesNoContext(s.tables, d, selection, version, now);
    case _ =>
  }

  lemma ExplainedKept(s: System, step: Step)
    requires Inv(s) && Enabled(s, step)
    ensures Explained(Next(s, step))
  {
    if step.SPublish? {
      PublishExplained(s, s.workers[step.w], s.workers[step.w].loaded.value);
    } else if step.SDelete? {
      var n := Next(s, step);
      forall c ensures RowExplained(n, c) { assert RowExplained(s, c); }
    } else {
      ContextsUnmoved(s, step);
      var n := Next(s, step);
      forall c ensures RowExplained(n, c) { assert RowExplained(s, c); }
    }
  }

  lemma NextKeeps(s: System, step: Step)
    requires Inv(s) && Enabled(s, step)
    ensures Inv(Next(s, step))
  {
    GroundedKept(s, step);
    FaithfulKept(s, step);
    IssuedKept(s, step);
    ExplainedKept(s, step);
  }

  lemma {:induction false} RunKeeps(s: System, steps: seq<Step>, n: System)
    requires Inv(s) && Reaches(s, steps, n)
    ensures Inv(n)
    decreases |steps|
  {
    if steps != [] {
      NextKeeps(s, steps[0]);
      RunKeeps(Next(s, steps[0]), steps[1..], n);
    }
  }

  lemma StartInv()
    ensures Inv(START)
  {
  }

  // In every reachable state, every report ID held by a task, a context row, a DNS row, a
  // replay, a target's result or an active reclassification names a stored report.
  lemma ReferentialIntegrity(steps: seq<Step>, s: System)
    requires Reaches(START, steps, s)
    ensures forall k :: k in s.tables.tasks ==> k.report in s.tables.reports
    ensures forall c :: c in s.tables.contexts ==> Named(s.tables.contexts[c]) <= s.tables.reports.Keys
    ensures forall c, q :: c in s.tables.contexts && q in s.tables.contexts[c].dns ==> s.tables.contexts[c].dns[q].latest.report in s.tables.reports
    ensures forall id :: id in s.tables.reports ==> s.tables.reports[id].document.report.original in s.tables.reports.Keys + {""}
    ensures forall x :: x in s.tables.targets && s.tables.targets[x].report.Some? ==> s.tables.targets[x].report.value in s.tables.reports
    ensures forall x :: x in s.tables.targets && s.tables.targets[x].active && s.tables.targets[x].reclassifies.Some? ==>
              s.tables.targets[x].reclassifies.value in s.tables.reports
  {
    StartInv();
    RunKeeps(START, steps, s);
    forall k | k in s.tables.tasks ensures k.report in s.tables.reports { assert TaskGrounded(s.tables, k); }
    forall id | id in s.tables.reports ensures s.tables.reports[id].document.report.original in s.tables.reports.Keys + {""} {
      assert ReportGrounded(s.tables, id);
    }
    forall x | x in s.tables.targets ensures TargetGrounded(s.tables, x) { }
    forall c | c in s.tables.contexts ensures Named(s.tables.contexts[c]) <= s.tables.reports.Keys { assert ContextGrounded(s.tables, c); }
    forall c, q | c in s.tables.contexts && q in s.tables.contexts[c].dns
      ensures s.tables.contexts[c].dns[q].latest.report in s.tables.reports
    {
      RowIsNamed(s.tables.contexts[c].dns, q, s.tables.contexts[c].dns[q].latest.report);
    }
  }

  // Support is exactly what the rows hold.
  lemma SupportIsExact(steps: seq<Step>, s: System, c: ContextKey)
    requires Reaches(START, steps, s)
    ensures c in s.tables.support <==> c in s.tables.contexts
    ensures c in s.tables.contexts ==> s.tables.support[c] == Named(s.tables.contexts[c])
  {
    StartInv();
    RunKeeps(START, steps, s);
    assert ContextGrounded(s.tables, c);
  }

  // Two runs, however they interleave workers, retries, deletions and retention, that
  // projected the same reports into a context since its creation agree on its registers.
  lemma RunsConverge(a: seq<Step>, s: System, b: seq<Step>, n: System, c: ContextKey, q: Question)
    requires Reaches(START, a, s) && Reaches(START, b, n) && c in s.tables.contexts && c in n.tables.contexts
    requires c in s.history && c in n.history
    requires UniqueIds(s.history[c]) && UniqueIds(n.history[c]) && forall r :: r in s.history[c] <==> r in n.history[c]
    ensures var x, y := s.tables.contexts[c], n.tables.contexts[c];
            && x.latest == y.latest && x.positive == y.positive && x.lastHttp == y.lastHttp
            && LatestIn(x.dns, q) == LatestIn(y.dns, q) && PositiveIn(x.dns, q) == PositiveIn(y.dns, q)
  {
    StartInv();
    RunKeeps(START, a, s);
    RunKeeps(START, b, n);
    assert RowExplained(s, c) && RowExplained(n, c);
    ProjectionConverges(c.hostname, s.history[c], n.history[c], q);
  }

  // ------------------------------------------------------------------- chronology

  // The clock after a step: the time its transaction read, if it read one.
  function ClockAfter(clock: Time, step: Step): Time {
    match step
    case SSave(_, _, _, now) => now
    case SBackfill(_, _, now) => now
    case SComplete(_, _, _, _, now) => now
    case SClaim(_, _, _, now) => now
    case SFail(_, now) => now
    case SDelete(_, _, now) => now
    case _ => clock
  }

  // The clock does not run backwards.
  predicate Monotone(clock: Time, steps: seq<Step>)
    decreases |steps|
  {
    steps == [] || (clock <= ClockAfter(clock, steps[0]) && Monotone(ClockAfter(clock, steps[0]), steps[1..]))
  }

  // A stored report is not from the future, and a replay is not older than its original.
  predicate InOrder(t: Tables, clock: Time, id: Id) {
    id in t.reports ==>
      var r := t.reports[id];
      && r.createdAt <= clock
      && (r.document.report.original in t.reports ==> t.reports[r.document.report.original].createdAt <= r.createdAt)
  }

  ghost predicate Chronicled(t: Tables, clock: Time) { forall id :: InOrder(t, clock, id) }

  lemma InsertChronicled(t: Tables, d: Document, clock: Time, now: Time)
    requires ReportsGrounded(t) && Chronicled(t, clock) && clock <= now && Storable(t, d)
    ensures Chronicled(Inserted(t, d, now), now)
  {
    var n := Inserted(t, d, now);
    forall id ensures InOrder(n, now, id) {
      assert InOrder(t, clock, id) && ReportGrounded(t, id) && InOrder(t, clock, d.report.original);
    }
  }

  lemma SaveChronicled(t: Tables, d: Document, selection: Option<Selection>, version: string, clock: Time, now: Time)
    requires ReportsGrounded(t) && Chronicled(t, clock) && clock <= now
    ensures Chronicled(SaveReport(t, d, selection, version, now), now)
  {
    SavedReports(t, d, selection, version, now);
    if Storable(t, d) {
      InsertChronicled(t, d, clock, now);
      FewerChronicled(Inserted(t, d, now), SaveReport(t, d, selection, version, now), now, now);
    } else {
      FewerChronicled(t, t, clock, now);
    }
  }

  lemma SavedReports(t: Tables, d: Document, selection: Option<Selection>, version: string, now: Time)
    ensures SaveReport(t, d, selection, version, now).reports == if Storable(t, d) then Inserted(t, d, now).reports else t.reports
  {
    QueueStoresNothing(Inserted(t, d, now), d, selection, version, now);
  }

  lemma QueueStoresNothing(t: Tables, d: Document, selection: Option<Selection>, version: string, now: Time)
    ensures QueueProjection(t, d, selection, version, now).reports == t.reports
  {
  }

  lemma FewerChronicled(t: Tables, n: Tables, clock: Time, now: Time)
    requires Chronicled(t, clock) && clock <= now && forall id :: id in n.reports ==> id in t.reports && n.reports[id] == t.reports[id]
    ensures Chronicled(n, now)
  {
    forall id ensures InOrder(n, now, id) { assert InOrder(t, clock, id); }
  }

  lemma StepChronicled(s: System, step: Step, clock: Time)
    requires Inv(s) && Enabled(s, step) && Chronicled(s.tables, clock) && clock <= ClockAfter(clock, step)
    ensures Chronicled(Next(s, step).tables, ClockAfter(clock, step))
  {
    var now := ClockAfter(clock, step);
    match step
    case SSave(d, selection, version, _) => SaveChronicled(s.tables, d, selection, version, clock, now);
    case SComplete(id, Some(d), selection, version, _) =>
      SaveChronicled(s.tables, d, selection, version, clock, now);
      FewerChronicled(s.tables, s.tables, clock, now);
      var saved := SaveReport(s.tables, d, selection, version, now);
      assert Next(s, step).tables.reports == saved.reports || Next(s, step).tables == s.tables;
      FewerChronicled(if Next(s, step).tables == s.tables then s.tables else saved, Next(s, step).tables, now, now);
    case SBackfill(id, version, _) =>
      QueueStoresNothing(s.tables, s.tables.reports[id].document, None, version, now);
      FewerChronicled(s.tables, Next(s, step).tables, clock, now);
    case _ => FewerChronicled(s.tables, Next(s, step).tables, clock, now);
  }

  lemma {:induction false} RunChronicled(s: System, steps: seq<Step>, n: System, clock: Time)
    requires Inv(s) && Reaches(s, steps, n) && Monotone(clock, steps) && Chronicled(s.tables, clock)
    ensures exists last :: Chronicled(n.tables, last)
    decreases |steps|
  {
    if steps != [] {
      NextKeeps(s, steps[0]);
      StepChronicled(s, steps[0], clock);
      RunChronicled(Next(s, steps[0]), steps[1..], n, ClockAfter(clock, steps[0]));
    }
  }

  // --------------------------------------------------------- the pages of the query

  // The order of the retention query.
  predicate Earlier(t: Tables, a: Id, b: Id) {
    && a in t.reports && b in t.reports
    && (t.reports[a].createdAt < t.reports[b].createdAt || (t.reports[a].createdAt == t.reports[b].createdAt && Less(a, b)))
  }

  predicate IsPage(t: Tables, page: seq<Id>) {
    (forall i :: 0 <= i < |page| ==> page[i] in t.reports) && (forall i, j :: 0 <= i < j < |page| ==> Earlier(t, page[i], page[j]))
  }

  // A replay stored in the same instant as its original, under a smaller ID.
  predicate Tied(t: Tables, r: Id, id: Id) {
    r in t.reports && id in t.reports && t.reports[r].createdAt == t.reports[id].createdAt && Less(r, id)
  }

  // The candidate's only references are replays tied with it that are eligible.
  predicate ExposedByTie(t: Tables, page: seq<Id>, i: nat)
    requires i < |page|
  {
    && !Needed(t, page[i]) && Replayed(t, page[i])
    && forall r :: r in t.reports && ReplayOf(t, r, page[i]) ==> Tied(t, r, page[i]) && r in Eligible(t, page[..i])
  }

  lemma ExposedIsTied(t: Tables, clock: Time, page: seq<Id>, i: nat)
    requires Chronicled(t, clock) && IsPage(t, page) && i < |page|
    ensures Exposed(t, page, i) <==> ExposedByTie(t, page, i)
  {
    if Exposed(t, page, i) {
      forall r | r in t.reports && ReplayOf(t, r, page[i]) ensures Tied(t, r, page[i]) {
        DoomedWithin(t, page[..i]);
        var j :| 0 <= j < i && page[..i][j] == r;
        assert Earlier(t, page[j], page[i]) && InOrder(t, clock, r);
      }
    }
  }

  lemma PageIsDistinct(t: Tables, page: seq<Id>, i: nat, j: nat)
    requires IsPage(t, page) && i < j < |page|
    ensures page[i] != page[j]
  {
    assert Earlier(t, page[i], page[j]);
    Irreflexive(page[i]);
  }

  // In every state a monotone clock reaches, an applied page deletes exactly what its preview
  // called eligible, but for one case: a report whose every reference is an eligible replay
  // stored in the same instant under a smaller ID.
  lemma PreviewPredicts(steps: seq<Step>, s: System, page: seq<Id>)
    requires Reaches(START, steps, s) && Monotone(0, steps) && IsPage(s.tables, page)
    ensures Doomed(s.tables, page) == Eligible(s.tables, page) <==> forall i :: 0 <= i < |page| ==> !ExposedByTie(s.tables, page, i)
  {
    StartInv();
    RunChronicled(START, steps, s, 0);
    var clock :| Chronicled(s.tables, clock);
    forall i, j | 0 <= i < j < |page| ensures page[i] != page[j] { PageIsDistinct(s.tables, page, i, j); }
    PreviewIsExact(s.tables, page);
    forall i | 0 <= i < |page| ensures Exposed(s.tables, page, i) <==> ExposedByTie(s.tables, page, i) {
      ExposedIsTied(s.tables, clock, page, i);
    }
  }

  // Without such ties there is no exception.
  lemma PreviewPredictsWithoutTies(steps: seq<Step>, s: System, page: seq<Id>)
    requires Reaches(START, steps, s) && Monotone(0, steps) && IsPage(s.tables, page)
    requires forall r, id :: ReplayOf(s.tables, r, id) ==> !Tied(s.tables, r, id)
    ensures Doomed(s.tables, page) == Eligible(s.tables, page)
  {
    PreviewPredicts(steps, s, page);
  }

  const NO_FACTS := Facts(0, 0, false, [], "")
  const BASE := Document(Report("b", "", false, [], 0, [], NO_FACTS), NoHost, "", 0)
  const REPLAY := Document(Report("a", "b", false, [], 0, [], NO_FACTS), NoHost, "", 0)

  // The state after a report and its replay were stored in one instant.
  function TiedTables(): Tables { EMPTY_TABLES.(reports := map["b" := Stored(BASE, 0), "a" := Stored(REPLAY, 0)]) }

  lemma TiedIsReachable() returns (steps: seq<Step>)
    ensures Reaches(START, steps, START.(tables := TiedTables())) && Monotone(0, steps)
  {
    var first, second := SSave(BASE, None, "", 0), SSave(REPLAY, None, "", 0);
    var s := Next(START, first);
    assert s.tables == EMPTY_TABLES.(reports := map["b" := Stored(BASE, 0)]);
    var n := Next(s, second);
    assert n.tables.reports == TiedTables().reports;
    steps := [first, second];
    assert steps[1..] == [second] && steps[1..][1..] == [];
    assert Reaches(n, [], n);
    assert Reaches(s, [second], n);
  }

  lemma TieExposes()
    ensures IsPage(TiedTables(), ["a", "b"]) && ExposedByTie(TiedTables(), ["a", "b"], 1)
  {
    var t, page := TiedTables(), ["a", "b"];
    assert Less("a", "b");
    assert page[..1] == ["a"];
    assert ReplayOf(t, "a", "b");
    assert forall r :: !ReplayOf(t, r, "a");
    assert !Needed(t, "a") && !Needed(t, "b") && !Replayed(t, "a");
    ProtectMeaning(t, "a");
    assert page[..1][0] == "a" && Protect(t, page[..1][0]) == Unprotected;
  }

  // The exception is reachable: the page then deletes one report more than its preview named.
  lemma TieDeletesMore()
    ensures exists steps, s, page ::
              && Reaches(START, steps, s) && Monotone(0, steps) && IsPage(s.tables, page)
              && Eligible(s.tables, page) < Doomed(s.tables, page)
  {
    var steps := TiedIsReachable();
    var s, page := START.(tables := TiedTables()), ["a", "b"];
    TieExposes();
    PreviewPredicts(steps, s, page);
    PreviewIsDeleted(s.tables, page);
  }

  // ------------------------------------------------------------------ pages and cursors

  // A position in the order of creation.
  datatype Cursor = Cursor(at: Time, id: Id)

  predicate After(t: Tables, c: Cursor, id: Id) {
    id in t.reports && (c.at < t.reports[id].createdAt || (c.at == t.reports[id].createdAt && Less(c.id, id)))
  }

  // A row of the retention query: older than the cutoff, past the cursor.
  predicate Selectable(t: Tables, cutoff: Time, c: Cursor, id: Id) { After(t, c, id) && t.reports[id].createdAt < cutoff }

  // The query's result with a limit: the first rows in order.
  ghost predicate IsSelection(t: Tables, cutoff: Time, c: Cursor, limit: nat, page: seq<Id>) {
    && IsPage(t, page) && |page| <= limit
    && (forall i :: 0 <= i < |page| ==> Selectable(t, cutoff, c, page[i]))
    && (forall id :: Selectable(t, cutoff, c, id) && id !in page ==> |page| == limit && forall i :: 0 <= i < |page| ==> Earlier(t, page[i], id))
  }

  function CursorOf(t: Tables, id: Id): Cursor
    requires id in t.reports
  {
    Cursor(t.reports[id].createdAt, id)
  }

  // Every row is on a page or past its cursor, and never both: pages neither skip nor repeat.
  lemma CursorAdvances(t: Tables, cutoff: Time, c: Cursor, limit: nat, selected: seq<Id>, id: Id)
    requires IsSelection(t, cutoff, c, limit + 1, selected) && limit >= 1
    ensures |selected| <= limit ==> (Selectable(t, cutoff, c, id) <==> id in selected)
    ensures |selected| > limit ==>
              var page, next := selected[..limit], CursorOf(t, selected[limit - 1]);
              && (Selectable(t, cutoff, c, id) <==> id in page || Selectable(t, cutoff, next, id))
              && !(id in page && Selectable(t, cutoff, next, id))
  {
    if |selected| > limit {
      PageSplits(t, cutoff, c, limit, selected, id);
    }
  }

  lemma PageSplits(t: Tables, cutoff: Time, c: Cursor, limit: nat, selected: seq<Id>, id: Id)
    requires IsSelection(t, cutoff, c, limit + 1, selected) && limit >= 1 && |selected| == limit + 1
    ensures var page, next := selected[..limit], CursorOf(t, selected[limit - 1]);
            && (Selectable(t, cutoff, c, id) <==> id in page || Selectable(t, cutoff, next, id))
            && !(id in page && Selectable(t, cutoff, next, id))
  {
    var page, last := selected[..limit], selected[limit - 1];
    assert Selectable(t, cutoff, c, last);
    if id in page {
      var i :| 0 <= i < limit && page[i] == id;
      assert selected[i] == id;
      if i < limit - 1 {
        assert Earlier(t, selected[i], selected[limit - 1]);
        EarlierOrder(t, id, last);
      } else {
        Irreflexive(id);
      }
    } else if Selectable(t, cutoff, c, id) {
      if id in selected {
        assert id == selected[limit];
        assert Earlier(t, selected[limit - 1], selected[limit]);
      } else {
        assert Earlier(t, selected[limit - 1], id);
      }
    } else if After(t, CursorOf(t, last), id) {
      AfterOrder(t, c, last, id);
    }
  }

  lemma EarlierOrder(t: Tables, a: Id, b: Id)
    requires Earlier(t, a, b)
    ensures !Earlier(t, b, a)
  {
    if Less(a, b) {
      Asymmetric(a, b);
    }
  }

  lemma AfterOrder(t: Tables, c: Cursor, a: Id, b: Id)
    requires After(t, c, a) && After(t, CursorOf(t, a), b)
    ensures After(t, c, b)
  {
    if Less(c.id, a) && Less(a, b) {
      Transitive(c.id, a, b);
    }
  }

  lemma EarlierIsTransitive(t: Tables, a: Id, b: Id, c: Id)
    requires Earlier(t, a, b) && Earlier(t, b, c)
    ensures Earlier(t, a, c)
  {
    if Less(a, b) && Less(b, c) {
      Transitive(a, b, c);
    }
  }

  lemma EarlierIsTotal(t: Tables, a: Id, b: Id)
    requires a in t.reports && b in t.reports && a != b
    ensures Earlier(t, a, b) || Earlier(t, b, a)
  {
    Total(a, b);
  }
}
