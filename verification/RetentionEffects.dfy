// What the transactions on reports, projection tasks and the inventory leave behind, and that
// a saved report travels through its task into its context.
module RetentionEffects {
  import opened Options
  import Lex
  import opened Projection
  import opened Retention

  // ------------------------------------------------------------ saving queues projection

  // The inventory takes the document: it names a hostname that is neither suppressed nor was
  // deleted since the report started, and the asset it was selected from, if any, is current.
  predicate Takes(t: Tables, d: Document, selection: Option<Selection>) {
    && d.host.Host?
    && (d.host.name in t.tombstones ==> !t.tombstones[d.host.name].suppressed && t.tombstones[d.host.name].deletedAt < d.startedAt)
    && (selection.Some? ==> d.host.name == selection.value.hostname && d.host.name in t.assets && t.assets[d.host.name] == selection.value.generation)
  }

  predicate Exhausted(t: Tables, k: TaskKey) { k in t.tasks && t.tasks[k].status == Failed && t.tasks[k].attempts >= 5 }

  ghost predicate AlwaysClaimable(t: Tables, k: TaskKey) { forall at: Time :: Claimable(t, k, at) }

  // What a save leaves: the document, its asset, and its task, claimable at once when it is
  // new or had used up its attempts. No other row of any table changes.
  ghost predicate Queues(t: Tables, n: Tables, d: Document, version: string, now: Time)
    requires d.host.Host?
  {
    var h, id, k := d.host.name, d.report.id, TaskKey(d.report.id, version);
    && n.reports == (if id in t.reports then t.reports else t.reports[id := Stored(d, now)])
    && h in n.assets && n.assets == t.assets[h := n.assets[h]]
    && (h in t.assets ==> n.assets[h] == t.assets[h])
    && (h !in t.assets && h in t.tombstones ==> n.assets[h] == t.tombstones[h].generation)
    && (h !in t.assets && h !in t.tombstones ==> n.assets[h] == 0)
    && k in n.tasks && n.tasks == t.tasks[k := n.tasks[k]]
    && (k !in t.tasks ==> AlwaysClaimable(n, k) && n.tasks[k] == Task(n.assets[h], Pending, 0, None, 0, now))
    && (Exhausted(t, k) ==> AlwaysClaimable(n, k) && n.tasks[k].attempts == 0 && n.tasks[k].token.None?
                            && n.tasks[k].generation == t.tasks[k].generation && n.tasks[k].createdAt == t.tasks[k].createdAt)
    && (k in t.tasks && !Exhausted(t, k) ==> n.tasks[k] == t.tasks[k])
    && n.targets == t.targets && n.tombstones == t.tombstones && n.contexts == t.contexts && n.support == t.support
  }

  // A save stores the document exactly when it is storable, and queues its projection exactly
  // when the inventory takes it.
  lemma SavingQueues(t: Tables, d: Document, selection: Option<Selection>, version: string, now: Time)
    ensures var n := SaveReport(t, d, selection, version, now);
            && (!Storable(t, d) ==> n == t)
            && (Storable(t, d) ==> d.report.id in n.reports && n.reports[d.report.id].document == d)
            && (Storable(t, d) && Takes(t, d, selection) ==> Queues(t, n, d, version, now))
            && (Storable(t, d) && !Takes(t, d, selection) ==> n == t.(reports := n.reports) && n.reports.Keys == t.reports.Keys + {d.report.id})
  {
    if Storable(t, d) && Takes(t, d, selection) {
      TakenIsQueued(t, d, selection, version, now);
    } else if Storable(t, d) {
      NotTakenIsNotQueued(Inserted(t, d, now), d, selection, version, now);
    }
  }

  lemma TakenIsQueued(t: Tables, d: Document, selection: Option<Selection>, version: string, now: Time)
    requires Storable(t, d) && Takes(t, d, selection)
    ensures Queues(t, SaveReport(t, d, selection, version, now), d, version, now)
  {
    var m := Inserted(t, d, now);
    assert m == t.(reports := m.reports) && d.report.id in m.reports;
    QueueingQueues(m, d, selection, version, now);
  }

  lemma NotTakenIsNotQueued(t: Tables, d: Document, selection: Option<Selection>, version: string, now: Time)
    requires !Takes(t, d, selection)
    ensures QueueProjection(t, d, selection, version, now) == t
  {
  }

  lemma QueueingQueues(t: Tables, d: Document, selection: Option<Selection>, version: string, now: Time)
    requires Takes(t, d, selection) && d.report.id in t.reports
    ensures Queues(t, QueueProjection(t, d, selection, version, now), d, version, now)
  {
  }

  // A completion stores its report with its target, and its projection like a save.
  lemma CompletionStores(t: Tables, id: Id, d: Document, selection: Option<Selection>, version: string, now: Time)
    requires id in t.targets && t.targets[id].active && Storable(t, d)
    ensures var n := CompleteTarget(t, id, Some(d), selection, version, now);
            && n.targets == t.targets[id := Target(false, t.targets[id].reclassifies, Some(d.report.id))]
            && d.report.id in n.reports && n.reports[d.report.id].document == d
            && (Takes(t, d, selection) ==> Queues(t, n.(targets := t.targets), d, version, now))
  {
    SavingQueues(t, d, selection, version, now);
  }

  // A new target is active with its replay input, which must be stored, and then protects it.
  lemma TargetProtects(t: Tables, id: Id, input: Id)
    requires id !in t.targets && input in t.reports
    ensures var n := AddTarget(t, id, Some(input));
            n == t.(targets := t.targets[id := Target(true, Some(input), None)]) && Protect(n, input) != Unprotected
  {
    var n := AddTarget(t, id, Some(input));
    assert ReclassifiedBy(n, id, input);
    ProtectMeaning(n, input);
  }

  // A cancelled target keeps its input and result and protects nothing any more.
  lemma CancelledProtectsNothing(t: Tables, id: Id, r: Id)
    requires id in t.targets
    ensures var n := CancelTarget(t, id);
            && n == t.(targets := t.targets[id := Target(false, t.targets[id].reclassifies, t.targets[id].report)])
            && !ReclassifiedBy(n, id, r) && !ResultOf(n, id, r)
            && forall x :: x != id ==> ReclassifiedBy(n, x, r) == ReclassifiedBy(t, x, r) && ResultOf(n, x, r) == ResultOf(t, x, r)
  {
  }

  // A replay of a report that is not stored is refused, and so is an ID in use.
  lemma TargetIsRefused(t: Tables, id: Id, reclassifies: Option<Id>)
    ensures AddTarget(t, id, reclassifies) == t <==> id in t.targets || (reclassifies.Some? && reclassifies.value !in t.reports)
  {
    if id !in t.targets {
      assert id in AddTarget(t, id, None).targets;
    }
  }

  // --------------------------------------------------------------- claims and failures

  // A claimed task is leased for thirty seconds, a failed one waits the square of its
  // attempts in seconds, at most three hundred; both are spent after the fifth attempt.
  lemma ClaimLeases(t: Tables, k: TaskKey, token: Token, now: Time, at: Time)
    requires Claimable(t, k, now)
    ensures var n := Claim(t, k, token, now);
            && HoldsLease(n, k, token) && n == t.(tasks := t.tasks[k := n.tasks[k]]) && n.tasks[k].generation == t.tasks[k].generation
            && (Claimable(n, k, at) <==> t.tasks[k].attempts + 1 < 5 && at >= now + 30)
  {
  }

  // The task a claim takes: of the claimable ones nobody has locked, none is older, and of those
  // created at once none has a smaller report ID.
  lemma FirstIsOldest(t: Tables, locked: set<TaskKey>, k: TaskKey, j: TaskKey, now: Time)
    requires IsFirst(t, locked, k, now) && Claimable(t, j, now) && j !in locked
    ensures t.tasks[k].createdAt <= t.tasks[j].createdAt
    ensures t.tasks[k].createdAt == t.tasks[j].createdAt ==> !Lex.Less(j.report, k.report)
  {
  }

  // The page of the retention query: reports created before the cutoff and after the cursor,
  // oldest first, and all of them unless the page is full.
  lemma PageIsOldest(t: Tables, cutoff: Time, c: Cursor, limit: nat, page: seq<Id>, id: Id)
    requires IsSelection(t, cutoff, c, limit, page) && id in t.reports
    ensures var at := t.reports[id].createdAt; var due := at < cutoff && (at > c.at || (at == c.at && Lex.Less(c.id, id)));
            && (id in page ==> due)
            && (due && id !in page ==> |page| == limit && forall i :: 0 <= i < |page| ==> page[i] in t.reports && t.reports[page[i]].createdAt <= at)
    ensures forall i, j :: 0 <= i < j < |page| ==> page[i] in t.reports && page[j] in t.reports && t.reports[page[i]].createdAt <= t.reports[page[j]].createdAt
  {
  }

  lemma FailureBacksOff(t: Tables, k: TaskKey, token: Token, now: Time, at: Time)
    ensures var n := Fail(t, k, token, now);
            && (!HoldsLease(t, k, token) ==> n == t)
            && (HoldsLease(t, k, token) ==>
                  var a := t.tasks[k].attempts;
                  && n == t.(tasks := t.tasks[k := n.tasks[k]]) && n.tasks[k].attempts == a && n.tasks[k].generation == t.tasks[k].generation
                  && !HoldsLease(n, k, token)
                  && (Claimable(n, k, at) <==> a < 5 && at >= now + a * a)
                  && (Exhausted(n, k) <==> a >= 5))
  {
    if HoldsLease(t, k, token) {
      var a := t.tasks[k].attempts;
      if a < 5 {
        SquareWithin(a);
      }
    }
  }

  lemma SquareWithin(a: nat)
    requires a < 5
    ensures a * a < 300
  {
    assert a * a <= 4 * a;
  }

  // ------------------------------------------------- from the save into the context

  // In every reachable state a publication by a worker that still holds its running lease on
  // a task of the asset's generation projects the stored report: it joins the history of its
  // context, whose row is then the projection of that history, and the task is gone.
  lemma PublicationProjects(steps: seq<Step>, s: System, w: nat)
    requires Reaches(START, steps, s) && Enabled(s, SPublish(w))
    requires HoldsLease(s.tables, s.workers[w].key, s.workers[w].token) && s.tables.tasks[s.workers[w].key].status == Running
    ensures var k := s.workers[w].key; k.report in s.tables.reports
    ensures var k := s.workers[w].key; var d := s.tables.reports[k.report].document; var n := Next(s, SPublish(w));
            d.host.Host? ==>
              var h := d.host.name; var c := ContextKey(h, d.context); var current := h in s.tables.assets && s.tables.assets[h] == s.tables.tasks[k].generation;
              && k !in n.tables.tasks
              && (current ==> Joins(s, n, c, d.report))
              && (!current ==> n.history == s.history && n.tables.contexts == s.tables.contexts)
  {
    StartInv();
    RunKeeps(START, steps, s);
    assert WorkerFaithful(s, w);
    var k := s.workers[w].key;
    var d := s.tables.reports[k.report].document;
    if Projects(s.tables, k, s.workers[w].token, d) {
      PublicationJoins(s, w, d);
    }
  }

  lemma PublicationJoins(s: System, w: nat, d: Document)
    requires Inv(s) && Enabled(s, SPublish(w)) && s.workers[w].loaded == Some(d) && Projects(s.tables, s.workers[w].key, s.workers[w].token, d)
    ensures var n := Next(s, SPublish(w));
            s.workers[w].key !in n.tables.tasks && Joins(s, n, ContextKey(d.host.name, d.context), d.report)
  {
    var c := ContextKey(d.host.name, d.context);
    assert RowExplained(s, c);
    PublicationRow(s, s.workers[w], d, c);
    NextKeeps(s, SPublish(w));
    SupportFollows(Next(s, SPublish(w)).tables, c);
  }

  lemma SupportFollows(t: Tables, c: ContextKey)
    requires Grounded(t) && c in t.contexts
    ensures c in t.support && t.support[c] == Named(t.contexts[c])
  {
    assert ContextGrounded(t, c);
  }

  lemma PublicationRow(s: System, w: Worker, d: Document, c: ContextKey)
    requires Projects(s.tables, w.key, w.token, d) && c == ContextKey(d.host.name, d.context) && RowExplained(s, c)
    ensures var n := PublishBy(s, w, d); var h := History(s, c) + [d.report];
            && w.key !in n.tables.tasks && n.history == s.history[c := h]
            && n.tables.contexts == s.tables.contexts[c := ProjectAll(EMPTY, c.hostname, h)]
  {
    ProjectNext(c.hostname, History(s, c), d.report);
  }

  // The report joins the history of one context, whose row and support follow it.
  predicate Joins(s: System, n: System, c: ContextKey, r: Report) {
    && c in n.history && n.history == s.history[c := History(s, c) + [r]]
    && n.tables.contexts == s.tables.contexts[c := ProjectAll(EMPTY, c.hostname, n.history[c])]
    && c in n.tables.support && n.tables.support[c] == Named(n.tables.contexts[c])
  }

  function History(s: System, c: ContextKey): seq<Report> { if c in s.history then s.history[c] else [] }

  // Saved, claimed, loaded and published: from any reachable state, a storable document that
  // the inventory takes and that had no task ends in the history and the row of its context.
  lemma SavedIsProjected(steps: seq<Step>, s: System, d: Document, selection: Option<Selection>, version: string, now: Time, w: nat, token: Token, at: Time)
    requires Reaches(START, steps, s) && Storable(s.tables, d) && Takes(s.tables, d, selection) && token !in s.issued
    requires TaskKey(d.report.id, version) !in s.tables.tasks
    ensures var k := TaskKey(d.report.id, version); var c := ContextKey(d.host.name, d.context);
            exists n :: Reaches(s, [SSave(d, selection, version, now), SClaim(w, k, token, at), SLoad(w), SPublish(w)], n)
                     && k !in n.tables.tasks && Joins(s, n, c, d.report)
  {
    var k := TaskKey(d.report.id, version);
    var save, claim := SSave(d, selection, version, now), SClaim(w, k, token, at);
    var e := SavedIsLoaded(s, d, selection, version, now, w, token, at);
    FourSteps(s, save, claim, SLoad(w), SPublish(w));
    Compose(START, steps, s, [save, claim, SLoad(w)], e);
    PublicationProjects(steps + [save, claim, SLoad(w)], e, w);
  }

  lemma SavedIsLoaded(s: System, d: Document, selection: Option<Selection>, version: string, now: Time, w: nat, token: Token, at: Time) returns (e: System)
    requires Storable(s.tables, d) && Takes(s.tables, d, selection) && token !in s.issued && TaskKey(d.report.id, version) !in s.tables.tasks
    ensures var k := TaskKey(d.report.id, version); var save, claim := SSave(d, selection, version, now), SClaim(w, k, token, at);
            && Enabled(s, save) && Enabled(Next(s, save), claim) && Enabled(Next(Next(s, save), claim), SLoad(w))
            && e == Next(Next(Next(s, save), claim), SLoad(w)) && Enabled(e, SPublish(w))
            && e.workers[w].key == k && HoldsLease(e.tables, k, e.workers[w].token) && e.tables.tasks[k].status == Running
            && k.report in e.tables.reports && e.tables.reports[k.report].document == d && e.history == s.history && e.tables.contexts == s.tables.contexts
            && d.host.name in e.tables.assets && e.tables.assets[d.host.name] == e.tables.tasks[k].generation
  {
    var k := TaskKey(d.report.id, version);
    var save, claim := SSave(d, selection, version, now), SClaim(w, k, token, at);
    SavingQueues(s.tables, d, selection, version, now);
    var a := Next(s, save);
    assert Enabled(a, claim);
    ClaimLeases(a.tables, k, token, at, at);
    e := Next(Next(a, claim), SLoad(w));
  }

  lemma FourSteps(s: System, a: Step, b: Step, c: Step, d: Step)
    requires Enabled(s, a) && Enabled(Next(s, a), b) && Enabled(Next(Next(s, a), b), c) && Enabled(Next(Next(Next(s, a), b), c), d)
    ensures Reaches(s, [a, b, c], Next(Next(Next(s, a), b), c))
    ensures Reaches(s, [a, b, c, d], Next(Next(Next(Next(s, a), b), c), d))
  {
    var m := Next(Next(Next(s, a), b), c);
    assert [a, b, c, d][1..] == [b, c, d] && [b, c, d][1..] == [c, d] && [c, d][1..] == [d] && [d][1..] == [];
    assert [a, b, c][1..] == [b, c] && [b, c][1..] == [c] && [c][1..] == [];
    assert Reaches(m, [], m) && Reaches(Next(m, d), [], Next(m, d));
    assert Reaches(Next(Next(s, a), b), [c], m) && Reaches(m, [d], Next(m, d));
    assert Reaches(Next(s, a), [b, c], m) && Reaches(Next(Next(s, a), b), [c, d], Next(m, d));
    assert Reaches(Next(s, a), [b, c, d], Next(m, d));
  }

  // Runs compose.
  lemma {:induction false} Compose(o: System, first: seq<Step>, s: System, second: seq<Step>, n: System)
    requires Reaches(o, first, s) && Reaches(s, second, n)
    ensures Reaches(o, first + second, n)
    decreases |first|
  {
    if first == [] {
      assert first + second == second;
    } else {
      Compose(Next(o, first[0]), first[1..], s, second, n);
      assert (first + second)[1..] == first[1..] + second;
    }
  }

  // -------------------------------------------------------------------- deletions fence

  // Generations: an asset has its hostname's current one, and a task at most that.
  predicate AssetCurrent(t: Tables, h: string) { h in t.assets ==> t.assets[h] == BirthGeneration(t, h) }
  predicate TaskCurrent(t: Tables, k: TaskKey) {
    k in t.tasks ==>
      && k.report in t.reports && t.reports[k.report].document.host.Host?
      && t.tasks[k].generation <= BirthGeneration(t, t.reports[k.report].document.host.name)
  }
  ghost predicate Current(t: Tables) { (forall h :: AssetCurrent(t, h)) && (forall k :: TaskCurrent(t, k)) }

  lemma QueueCurrent(t: Tables, d: Document, selection: Option<Selection>, version: string, now: Time)
    requires Current(t) && d.report.id in t.reports && t.reports[d.report.id].document == d
    ensures Current(QueueProjection(t, d, selection, version, now))
  {
    var n := QueueProjection(t, d, selection, version, now);
    forall h ensures AssetCurrent(n, h) { assert AssetCurrent(t, h); }
    forall k ensures TaskCurrent(n, k) {
      assert TaskCurrent(t, k);
      if d.host.Host? { assert AssetCurrent(n, d.host.name); }
    }
  }

  lemma InsertCurrent(t: Tables, d: Document, now: Time)
    requires Current(t)
    ensures Current(Inserted(t, d, now))
  {
    var n := Inserted(t, d, now);
    forall h ensures AssetCurrent(n, h) { assert AssetCurrent(t, h); }
    forall k ensures TaskCurrent(n, k) { assert TaskCurrent(t, k); }
  }

  lemma SaveCurrent(t: Tables, d: Document, selection: Option<Selection>, version: string, now: Time)
    requires Current(t)
    ensures Current(SaveReport(t, d, selection, version, now))
  {
    if Storable(t, d) {
      InsertCurrent(t, d, now);
      QueueCurrent(Inserted(t, d, now), d, selection, version, now);
    }
  }

  // Tables with the same assets and tombstones, fewer or no newer tasks, and the reports of
  // those tasks.
  lemma StillCurrent(t: Tables, n: Tables)
    requires Current(t) && n.assets == t.assets && n.tombstones == t.tombstones && n.tasks.Keys <= t.tasks.Keys
    requires forall k :: k in n.tasks ==> n.tasks[k].generation == t.tasks[k].generation
    requires forall k :: k in n.tasks && k.report in t.reports ==> k.report in n.reports && n.reports[k.report] == t.reports[k.report]
    ensures Current(n)
  {
    forall h ensures AssetCurrent(n, h) { assert AssetCurrent(t, h); }
    forall k ensures TaskCurrent(n, k) { assert TaskCurrent(t, k); }
  }

  lemma CompleteCurrent(t: Tables, id: Id, d: Option<Document>, selection: Option<Selection>, version: string, now: Time)
    requires Current(t)
    ensures Current(CompleteTarget(t, id, d, selection, version, now))
  {
    var n := CompleteTarget(t, id, d, selection, version, now);
    if d.Some? {
      SaveCurrent(t, d.value, selection, version, now);
    }
    if n != t {
      StillCurrent(if d.Some? then SaveReport(t, d.value, selection, version, now) else t, n);
    }
  }

  lemma PublishCurrent(t: Tables, k: TaskKey, token: Token, d: Document)
    requires Current(t)
    ensures Current(Publish(t, k, token, d))
  {
    var n := Publish(t, k, token, d);
    PublicationKeeps(t, k, token, d);
    StillCurrent(t, n);
  }

  lemma PublicationKeeps(t: Tables, k: TaskKey, token: Token, d: Document)
    ensures var n := Publish(t, k, token, d);
            n.assets == t.assets && n.tombstones == t.tombstones && n.reports == t.reports && (n.tasks == t.tasks || n.tasks == t.tasks - {k})
  {
    if Projects(t, k, token, d) {
      var c := ContextKey(d.host.name, d.context);
      RowMovesNoTask(t, c, Project(RowAt(t, c), d.host.name, d.report));
    }
  }

  lemma RowMovesNoTask(t: Tables, c: ContextKey, row: Row)
    ensures var n := Supported(t, c, row); n.assets == t.assets && n.tombstones == t.tombstones && n.reports == t.reports && n.tasks == t.tasks
  {
  }

  lemma DeleteCurrent(t: Tables, hostname: string, suppress: bool, now: Time)
    requires Current(t)
    ensures Current(DeleteInventory(t, hostname, suppress, now))
  {
    var n := DeleteInventory(t, hostname, suppress, now);
    forall h ensures AssetCurrent(n, h) { assert AssetCurrent(t, h); }
    forall k ensures TaskCurrent(n, k) { assert TaskCurrent(t, k); }
  }

  lemma RetainCurrent(s: System, page: seq<Id>)
    requires Inv(s) && Current(s.tables) && Enabled(s, SRetain(page))
    ensures Current(Next(s, SRetain(page)).tables)
  {
    NextKeeps(s, SRetain(page));
    var t, n := s.tables, Next(s, SRetain(page)).tables;
    forall k | k in n.tasks ensures k.report in n.reports { assert TaskGrounded(n, k); }
    StillCurrent(t, n);
  }

  lemma NextCurrent(s: System, step: Step)
    requires Inv(s) && Current(s.tables) && Enabled(s, step)
    ensures Current(Next(s, step).tables)
  {
    match step
    case SSave(d, selection, version, now) => SaveCurrent(s.tables, d, selection, version, now);
    case SBackfill(id, version, now) =>
      assert ReportGrounded(s.tables, id);
      QueueCurrent(s.tables, s.tables.reports[id].document, None, version, now);
    case SComplete(id, d, selection, version, now) => CompleteCurrent(s.tables, id, d, selection, version, now);
    case SDelete(h, suppress, now) => DeleteCurrent(s.tables, h, suppress, now);
    case SRetain(page) => RetainCurrent(s, page);
    case SPublish(w) => PublishCurrent(s.tables, s.workers[w].key, s.workers[w].token, s.workers[w].loaded.value);
    case _ => StillCurrent(s.tables, Next(s, step).tables);
  }

  lemma BirthGrows(s: System, step: Step, h: string)
    requires Enabled(s, step)
    ensures BirthGeneration(Next(s, step).tables, h) >= BirthGeneration(s.tables, h)
  {
    match step
    case SSave(d, selection, version, now) => SavingQueues(s.tables, d, selection, version, now);
    case SComplete(_, Some(d), selection, version, now) => SavingQueues(s.tables, d, selection, version, now);
    case _ =>
  }

  lemma {:induction false} RunCurrent(s: System, steps: seq<Step>, n: System, h: string)
    requires Inv(s) && Current(s.tables) && Reaches(s, steps, n)
    ensures Current(n.tables) && BirthGeneration(n.tables, h) >= BirthGeneration(s.tables, h)
    decreases |steps|
  {
    if steps != [] {
      NextKeeps(s, steps[0]);
      NextCurrent(s, steps[0]);
      BirthGrows(s, steps[0], h);
      RunCurrent(Next(s, steps[0]), steps[1..], n, h);
    }
  }

  // The task of a stored document of the hostname.
  predicate QueuedFor(s: System, k: TaskKey, d: Document, h: string) {
    k in s.tables.tasks && k.report in s.tables.reports && s.tables.reports[k.report].document == d && d.host == Host(h)
  }

  // A deletion removes the asset and its contexts, leaves the other hostnames alone and
  // refuses the reports that started before it, and all of them when it suppresses.
  lemma DeletionRemoves(t: Tables, h: string, suppress: bool, now: Time)
    ensures var n := DeleteInventory(t, h, suppress, now);
            && h !in n.assets && (forall c :: c in n.contexts <==> c in t.contexts && c.hostname != h)
            && (forall c :: c in n.contexts ==> n.contexts[c] == t.contexts[c])
            && (forall o :: o != h ==> (o in n.assets <==> o in t.assets) && (o in n.assets ==> n.assets[o] == t.assets[o]))
            && n.tasks == t.tasks && n.reports == t.reports && n.targets == t.targets
            && forall d: Document, selection :: Takes(n, d, selection) && d.host == Host(h) ==> !suppress && d.startedAt > now && selection.None?
  {
  }

  // It also fences what came before it: whatever follows, a task of the hostname that was
  // queued by then is never projected.
  lemma DeletionFences(before: seq<Step>, s: System, h: string, suppress: bool, now: Time, after: seq<Step>, n: System, k: TaskKey, token: Token, d: Document)
    requires Reaches(START, before, s) && Reaches(Next(s, SDelete(h, suppress, now)), after, n)
    requires QueuedFor(s, k, d, h) && k in n.tables.tasks && n.tables.tasks[k].generation == s.tables.tasks[k].generation
    ensures Publish(n.tables, k, token, d).contexts == n.tables.contexts
  {
    ReachableCurrent(before, s);
    GenerationRises(s, h, suppress, now, after, n);
    assert TaskCurrent(s.tables, k);
    ObsoleteIsInert(n.tables, k, token, d);
  }

  lemma ReachableCurrent(steps: seq<Step>, s: System)
    requires Reaches(START, steps, s)
    ensures Inv(s) && Current(s.tables)
  {
    StartInv();
    RunKeeps(START, steps, s);
    RunCurrent(START, steps, s, "");
  }

  lemma ObsoleteIsInert(t: Tables, k: TaskKey, token: Token, d: Document)
    requires k in t.tasks && d.host.Host? && (d.host.name in t.assets ==> t.assets[d.host.name] != t.tasks[k].generation)
    ensures Publish(t, k, token, d).contexts == t.contexts
  {
  }

  lemma GenerationRises(s: System, h: string, suppress: bool, now: Time, after: seq<Step>, n: System)
    requires Inv(s) && Current(s.tables) && Reaches(Next(s, SDelete(h, suppress, now)), after, n)
    ensures h in n.tables.assets ==> n.tables.assets[h] > BirthGeneration(s.tables, h)
  {
    var m := Next(s, SDelete(h, suppress, now));
    NextKeeps(s, SDelete(h, suppress, now));
    NextCurrent(s, SDelete(h, suppress, now));
    RunCurrent(m, after, n, h);
    assert BirthGeneration(m.tables, h) > BirthGeneration(s.tables, h);
    assert AssetCurrent(n.tables, h);
  }

  // ------------------------------------------------------------------ abandoned tasks

  // The last attempt of a task is running and the worker that held it is gone.
  ghost predicate Abandoned(s: System, k: TaskKey) {
    && k in s.tables.tasks && s.tables.tasks[k].status == Running && s.tables.tasks[k].attempts >= 5
    && s.tables.tasks[k].token.Some? && s.tables.tasks[k].token.value in s.issued
    && forall w :: w in s.workers ==> s.workers[w].token != s.tables.tasks[k].token.value
  }

  lemma AbandonedStays(s: System, step: Step, k: TaskKey)
    requires Abandoned(s, k) && Enabled(s, step)
    ensures Abandoned(Next(s, step), k) && Next(s, step).tables.tasks[k] == s.tables.tasks[k]
  {
    match step
    case SComplete(id, Some(d), selection, version, now) => SavedKeepsRunning(s.tables, d, selection, version, now, k);
    case SSave(d, selection, version, now) => SavedKeepsRunning(s.tables, d, selection, version, now, k);
    case _ =>
  }

  lemma SavedKeepsRunning(t: Tables, d: Document, selection: Option<Selection>, version: string, now: Time, k: TaskKey)
    requires k in t.tasks && t.tasks[k].status == Running
    ensures var n := SaveReport(t, d, selection, version, now); k in n.tasks && n.tasks[k] == t.tasks[k]
  {
    SavingQueues(t, d, selection, version, now);
  }

  // A worker lost during the fifth attempt leaves the task as it is for ever: it is never
  // claimable again, and saving the report again does not queue it, as that resets only
  // tasks marked failed.
  lemma {:induction false} AbandonedForever(s: System, steps: seq<Step>, n: System, k: TaskKey)
    requires Abandoned(s, k) && Reaches(s, steps, n)
    ensures k in n.tables.tasks && n.tables.tasks[k] == s.tables.tasks[k] && forall at: Time :: !Claimable(n.tables, k, at)
    decreases |steps|
  {
    if steps != [] {
      AbandonedStays(s, steps[0], k);
      AbandonedForever(Next(s, steps[0]), steps[1..], n, k);
    }
  }

  // Claims whose leases run out use up the attempts of a task.
  lemma {:induction false} ClaimsRunOut(s: System, k: TaskKey, now: Time, token: Token) returns (steps: seq<Step>, n: System, last: Token)
    requires Claimable(s.tables, k, now) && (forall x :: x in s.issued ==> x < token)
    ensures Reaches(s, steps, n) && k in n.tables.tasks && n.tables.tasks[k].status == Running && n.tables.tasks[k].attempts >= 5
    ensures n.tables.tasks[k].token == Some(last) && last in n.issued && 0 in n.workers && n.workers == s.workers[0 := n.workers[0]] && n.workers[0].token == last
    ensures forall x :: x in n.issued ==> x <= last
    ensures forall j :: j != k ==> (j in n.tables.tasks <==> j in s.tables.tasks) && (j in s.tables.tasks ==> n.tables.tasks[j] == s.tables.tasks[j])
    decreases 5 - s.tables.tasks[k].attempts
  {
    var claim := SClaim(0, k, token, now);
    var m := Next(s, claim);
    if m.tables.tasks[k].attempts >= 5 {
      steps, n, last := [claim], m, token;
      assert Reaches(m, [], m);
    } else {
      var rest;
      rest, n, last := ClaimsRunOut(m, k, now + 30, token + 1);
      steps := [claim] + rest;
      assert steps[1..] == rest;
    }
  }

  // Such states are reached: two reports are saved, five workers take the first and are lost,
  // and the last goes on with the second.
  lemma AbandonedIsReachable() returns (steps: seq<Step>, n: System, k: TaskKey)
    ensures Reaches(START, steps, n) && Abandoned(n, k)
  {
    k := TaskKey("a", "v");
    var saves, m := TwoTasks();
    var claims, e, last := ClaimsRunOut(m, k, 0, 0);
    Compose(START, saves, m, claims, e);
    var next := SClaim(0, TaskKey("b", "v"), last + 1, 0);
    n := Next(e, next);
    assert Reaches(n, [], n) && [next][1..] == [];
    assert Reaches(e, [next], n);
    steps := saves + claims + [next];
    Compose(START, saves + claims, e, [next], n);
  }

  lemma TwoTasks() returns (steps: seq<Step>, m: System)
    ensures Reaches(START, steps, m) && m.issued == {} && m.workers == map[]
    ensures Claimable(m.tables, TaskKey("a", "v"), 0) && Claimable(m.tables, TaskKey("b", "v"), 0)
  {
    var f := Facts(0, 0, false, [], "");
    var a := Document(Report("a", "", true, [], 0, [], f), Host("h"), "default", 0);
    var b := Document(Report("b", "", true, [], 0, [], f), Host("h"), "default", 0);
    var first, second := SSave(a, None, "v", 0), SSave(b, None, "v", 0);
    SavingQueues(START.tables, a, None, "v", 0);
    var s := Next(START, first);
    assert s.tables.tombstones == map[] && Claimable(s.tables, TaskKey("a", "v"), 0);
    SavingQueues(s.tables, b, None, "v", 0);
    m := Next(s, second);
    steps := [first, second];
    assert Reaches(m, [], m) && [second][1..] == [] && steps[1..] == [second];
    assert Reaches(s, [second], m);
  }
}
