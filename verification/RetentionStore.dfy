// The store methods around reports and their projection, statement by statement, each proved
// equal to the one-step function on tables that the invariants of `Retention` are about.
module RetentionStore {
  import opened Options
  import opened Lex
  import opened Projection
  import opened Retention

  datatype Candidate = Candidate(report: Id, protection: Protection, deleted: bool)
  datatype Page = Page(items: seq<Candidate>, eligible: nat, preserved: nat, deleted: nat, next: Option<Cursor>, complete: bool)

  // The judgement of the candidate at position i, in an applied page or a preview.
  function Judged(t: Tables, page: seq<Id>, i: nat, apply: bool): Protection
    requires i < |page|
  {
    Protect(if apply then Remove(t, Doomed(t, page[..i])) else t, page[i])
  }

  predicate Right(t: Tables, page: seq<Id>, items: seq<Candidate>, apply: bool) {
    && |items| <= |page|
    && forall i :: 0 <= i < |items| ==> items[i] == Found(page[i], Judged(t, page, i, apply), apply)
  }

  function Found(id: Id, p: Protection, apply: bool): Candidate { Candidate(id, p, apply && p == Unprotected) }

  // The reports the candidates before i account for.
  function Counted(t: Tables, page: seq<Id>, apply: bool): set<Id> { if apply then Doomed(t, page) else Eligible(t, page) }

  lemma CountedNext(t: Tables, page: seq<Id>, i: nat, apply: bool)
    requires i < |page| && forall j, k :: 0 <= j < k < |page| ==> page[j] != page[k]
    ensures Counted(t, page[..i + 1], apply)
            == if Judged(t, page, i, apply) == Unprotected then Counted(t, page[..i], apply) + {page[i]} else Counted(t, page[..i], apply)
    ensures page[i] !in Counted(t, page[..i], apply)
  {
    assert page[..i + 1][..i] == page[..i];
    EligibleExtends(t, page[..i + 1]);
    DoomedWithin(t, page[..i]);
  }

  // A page under way, and one candidate more.
  datatype Progress = Progress(tables: Tables, items: seq<Candidate>, eligible: nat, preserved: nat, deleted: nat)

  function Advance(p: Progress, id: Id, apply: bool): Progress {
    var c := Found(id, Protect(p.tables, id), apply);
    Progress(if c.deleted then Remove(p.tables, {id}) else p.tables, p.items + [c],
             if c.protection == Unprotected then p.eligible + 1 else p.eligible,
             if c.protection == Unprotected then p.preserved else p.preserved + 1,
             if c.deleted then p.deleted + 1 else p.deleted)
  }

  predicate Accounts(t: Tables, page: seq<Id>, apply: bool, p: Progress) {
    && |p.items| == |page| && Right(t, page, p.items, apply)
    && p.tables == (if apply then Retain(t, page) else t)
    && p.eligible == |Counted(t, page, apply)| && p.eligible + p.preserved == |page|
    && p.deleted == (if apply then |Doomed(t, page)| else 0)
  }

  lemma AccountsAtStart(t: Tables, apply: bool)
    ensures Accounts(t, [], apply, Progress(t, [], 0, 0, 0))
  {
  }

  lemma RightNext(t: Tables, page: seq<Id>, i: nat, items: seq<Candidate>, apply: bool)
    requires i < |page| && |items| == i && Right(t, page[..i], items, apply)
    ensures Right(t, page[..i + 1], items + [Found(page[i], Judged(t, page, i, apply), apply)], apply)
  {
    var some := page[..i + 1];
    var item := Found(page[i], Judged(t, page, i, apply), apply);
    assert some[..i] == page[..i];
    forall j | 0 <= j <= i ensures (items + [item])[j] == Found(some[j], Judged(t, some, j, apply), apply) {
      if j < i {
        assert some[..j] == page[..i][..j] && some[j] == page[..i][j];
        assert items[j] == Found(page[..i][j], Judged(t, page[..i], j, apply), apply);
      }
    }
  }

  lemma AccountsNext(t: Tables, page: seq<Id>, i: nat, apply: bool, p: Progress)
    requires i < |page| && Accounts(t, page[..i], apply, p) && forall j, k :: 0 <= j < k < |page| ==> page[j] != page[k]
    ensures Accounts(t, page[..i + 1], apply, Advance(p, page[i], apply))
  {
    CountedNext(t, page, i, apply);
    RightNext(t, page, i, p.items, apply);
    RemoveTwice(t, Doomed(t, page[..i]), page[i]);
  }

  // replaceInventorySupports: the non-empty IDs the row and its DNS rows hold.
  method CollectSupports(row: Row) returns (ids: set<Id>)
    ensures ids == Named(row) - {""}
  {
    ids := {};
    if row.latest.Some? {
      ids := ids + {row.latest.value.report};
    }
    if row.positive.Some? {
      ids := ids + {row.positive.value.report};
    }
    if row.description.Some? {
      ids := ids + {row.description.value.report};
    }
    if row.lastHttp.Some? {
      ids := ids + {row.lastHttp.value.report};
    }
    var named := CollectDns(row.dns);
    ids := (ids + named) - {""};
  }

  // The IDs one DNS row holds.
  method CollectRow(row: DnsRow) returns (ids: set<Id>)
    ensures ids == NamedByRow(row)
  {
    ids := {row.latest.report};
    if row.positive.Some? {
      ids := ids + {row.positive.value.report};
    }
  }

  method CollectDns(dns: map<Question, DnsRow>) returns (ids: set<Id>)
    ensures ids == NamedByDns(dns)
  {
    ids := {};
    var rest := dns;
    while rest != map[]
      invariant ids + NamedByDns(rest) == NamedByDns(dns)
      decreases |rest|
    {
      var q :| q in rest;
      TakeQuestion(rest, q);
      var more := CollectRow(rest[q]);
      ids := ids + more;
      rest := rest - {q};
    }
  }

  lemma TakeQuestion(dns: map<Question, DnsRow>, q: Question)
    requires q in dns
    ensures NamedByDns(dns) == NamedByRow(dns[q]) + NamedByDns(dns - {q})
    ensures |dns - {q}| < |dns|
  {
    var rest := dns - {q};
    assert dns.Keys == rest.Keys + {q} && |dns| == |dns.Keys| && |rest| == |rest.Keys|;
    forall id ensures id in NamedByDns(dns) <==> id in NamedByRow(dns[q]) + NamedByDns(rest) {
      if id in NamedByDns(dns) {
        var p :| p in dns && id in NamedByRow(dns[p]);
        if p != q {
          assert p in rest && rest[p] == dns[p];
          RowIsNamed(rest, p, id);
        }
      }
      if id in NamedByRow(dns[q]) {
        RowIsNamed(dns, q, id);
      }
      if id in NamedByDns(rest) {
        var p :| p in rest && id in NamedByRow(rest[p]);
        RowIsNamed(dns, p, id);
      }
    }
  }

  lemma Overwrite<K, V>(m: map<K, V>, k: K, a: V, b: V)
    ensures m[k := a][k := b] == m[k := b] && (m - {k})[k := b] == m[k := b]
  {
  }

  lemma QueuedIsTransitive(t: Tables, a: TaskKey, b: TaskKey, c: TaskKey)
    requires Queued(t, a, b) && Queued(t, b, c)
    ensures Queued(t, a, c)
  {
    if Less(a.report, b.report) && Less(b.report, c.report) {
      Transitive(a.report, b.report, c.report);
    }
  }

  lemma QueuedIsIrreflexive(t: Tables, k: TaskKey)
    ensures !Queued(t, k, k)
  {
    Irreflexive(k.report);
  }

  class InventoryStore {
    var reports: map<Id, Stored>
    var targets: map<Id, Target>
    var tasks: map<TaskKey, Task>
    var assets: map<string, nat>
    var tombstones: map<string, Tombstone>
    var contexts: map<ContextKey, Row>
    var support: map<ContextKey, set<Id>>

    function View(): Tables
      reads this
    {
      Tables(reports, targets, tasks, assets, tombstones, contexts, support)
    }

    constructor ()
      ensures View() == EMPTY_TABLES
    {
      reports, targets, tasks, assets, tombstones, contexts, support := map[], map[], map[], map[], map[], map[], map[];
    }

    method PublishReportInventory(d: Document, selection: Option<Selection>, version: string, now: Time)
      modifies this`assets, this`tasks
      ensures View() == QueueProjection(old(View()), d, selection, version, now)
    {
      if !d.host.Host? {
        return;
      }
      var h := d.host.name;
      if h in tombstones && (tombstones[h].suppressed || tombstones[h].deletedAt >= d.startedAt) {
        return;
      }
      if selection.Some? {
        if selection.value.hostname != h || h !in assets || assets[h] != selection.value.generation {
          return;
        }
      } else if h !in assets {
        assets := assets[h := if h in tombstones then tombstones[h].generation else 0];
      }
      var k := TaskKey(d.report.id, version);
      if k !in tasks {
        tasks := tasks[k := Task(assets[h], Pending, 0, None, 0, now)];
      } else if tasks[k].status == Failed && tasks[k].attempts >= MAX_ATTEMPTS {
        tasks := tasks[k := tasks[k].(status := Pending, attempts := 0, token := None, due := 0)];
      }
    }

    method SaveReport(d: Document, selection: Option<Selection>, version: string, now: Time) returns (stored: bool)
      modifies this`reports, this`assets, this`tasks
      ensures stored <==> Storable(old(View()), d)
      ensures View() == Retention.SaveReport(old(View()), d, selection, version, now)
    {
      var r := d.report;
      if r.id == "" || d.host.InvalidHost? {
        return false;
      }
      if r.id in reports {
        if reports[r.id].document != d {
          return false;
        }
      } else {
        if r.original != "" && r.original != r.id && r.original !in reports {
          return false;
        }
        reports := reports[r.id := Stored(d, now)];
      }
      PublishReportInventory(d, selection, version, now);
      stored := true;
    }

    // The first claimable task in the order of creation that no other worker has locked.
    method FirstClaimable(locked: set<TaskKey>, now: Time) returns (first: Option<TaskKey>)
      ensures first.Some? ==> IsFirst(View(), locked, first.value, now)
      ensures first.None? ==> forall j :: Claimable(View(), j, now) ==> j in locked
    {
      first := None;
      var rest := tasks.Keys;
      while rest != {}
        invariant rest <= tasks.Keys && (first.Some? ==> Claimable(View(), first.value, now) && first.value !in locked)
        invariant forall j :: Claimable(View(), j, now) && j !in locked && j !in rest ==> first.Some? && !Queued(View(), j, first.value)
        decreases |rest|
      {
        var k :| k in rest;
        if k !in locked && Claimable(View(), k, now) && (first.None? || Queued(View(), k, first.value)) {
          forall j | Claimable(View(), j, now) && j !in locked && j !in rest ensures !Queued(View(), j, k) {
            if Queued(View(), j, k) {
              QueuedIsTransitive(View(), j, k, first.value);
            }
          }
          QueuedIsIrreflexive(View(), k);
          first := Some(k);
        }
        rest := rest - {k};
      }
    }

    method ClaimProjection(locked: set<TaskKey>, token: Token, now: Time) returns (claimed: Option<TaskKey>)
      modifies this`tasks
      ensures claimed.Some? ==> IsFirst(old(View()), locked, claimed.value, now) && View() == Claim(old(View()), claimed.value, token, now)
      ensures claimed.None? ==> (forall j :: Claimable(old(View()), j, now) ==> j in locked) && View() == old(View())
    {
      claimed := FirstClaimable(locked, now);
      if claimed.Some? {
        var k := claimed.value;
        tasks := tasks[k := tasks[k].(status := Running, attempts := tasks[k].attempts + 1, token := Some(token), due := now + 30)];
      }
    }

    method FailProjection(k: TaskKey, token: Token, now: Time)
      modifies this`tasks
      ensures View() == Fail(old(View()), k, token, now)
    {
      if k in tasks && tasks[k].token == Some(token) {
        var a := tasks[k].attempts;
        var delay := a * a;
        if delay > 300 {
          delay := 300;
        }
        tasks := tasks[k := tasks[k].(status := Failed, token := None, due := now + delay)];
      }
    }

    method PublishProjection(k: TaskKey, token: Token, d: Document)
      modifies this`tasks, this`contexts, this`support
      ensures View() == Publish(old(View()), k, token, d)
    {
      if !d.host.Host? || k !in tasks || tasks[k].status != Running || tasks[k].token != Some(token) {
        return;
      }
      var h := d.host.name;
      if h !in assets || assets[h] != tasks[k].generation {
        tasks := tasks - {k};
        return;
      }
      ProjectContext(ContextKey(h, d.context), d.report);
      tasks := tasks - {k};
    }

    method ProjectContext(c: ContextKey, r: Report)
      modifies this`contexts, this`support
      ensures View() == Supported(old(View()), c, Project(RowAt(old(View()), c), c.hostname, r))
    {
      if c !in contexts {
        contexts := contexts[c := EMPTY];
      }
      var row := UpdateContext(contexts[c], c.hostname, r);
      Overwrite(old(contexts), c, EMPTY, row);
      contexts := contexts[c := row];
      ReplaceSupports(c, row);
    }

    method ReplaceSupports(c: ContextKey, row: Row)
      modifies this`support
      ensures support == old(support)[c := Named(row) - {""}]
    {
      var ids := CollectSupports(row);
      Overwrite(support, c, {}, ids);
      support := support - {c};
      support := support[c := ids];
    }

    method DeleteInventory(hostname: string, suppress: bool, now: Time) returns (generation: nat)
      modifies this`tombstones, this`assets, this`contexts, this`support
      ensures View() == Retention.DeleteInventory(old(View()), hostname, suppress, now)
      ensures hostname in tombstones && generation == tombstones[hostname].generation
    {
      generation := 1;
      if hostname in tombstones {
        generation := tombstones[hostname].generation + 1;
      }
      tombstones := tombstones[hostname := Tombstone(generation, suppress, now)];
      assets := assets - {hostname};
      contexts := map c | c in contexts && c.hostname != hostname :: contexts[c];
      support := map c | c in support && c.hostname != hostname :: support[c];
    }

    // Detaches the terminal results of a report, then deletes it.
    method DeleteReport(id: Id)
      modifies this`reports, this`targets
      ensures View() == Remove(old(View()), {id})
    {
      targets := map x | x in targets :: if !targets[x].active && targets[x].report == Some(id) then targets[x].(report := None) else targets[x];
      reports := reports - {id};
    }

    // One candidate: checked, and deleted when it is eligible and the page is applied.
    method RetainOne(id: Id, apply: bool) returns (c: Candidate)
      modifies this`reports, this`targets
      ensures c == Found(id, Protect(old(View()), id), apply)
      ensures View() == if c.deleted then Remove(old(View()), {id}) else old(View())
    {
      var protection := Protect(View(), id);
      var delete := protection == Unprotected && apply;
      if delete {
        DeleteReport(id);
      }
      c := Candidate(id, protection, delete);
    }

    // The earliest of some reports.
    method Earliest(ids: set<Id>) returns (first: Id)
      requires ids != {} && ids <= reports.Keys
      ensures first in ids && forall id :: id in ids && id != first ==> Earlier(View(), first, id)
    {
      first :| first in ids;
      var rest := ids - {first};
      while rest != {}
        invariant first in ids && rest <= ids && first !in rest
        invariant forall id :: id in ids && id != first && id !in rest ==> Earlier(View(), first, id)
        decreases |rest|
      {
        var id :| id in rest;
        EarlierIsTotal(View(), first, id);
        rest := rest - {id};
        if reports[id].createdAt < reports[first].createdAt || (reports[id].createdAt == reports[first].createdAt && Less(id, first)) {
          forall x | x in ids && x != id && x !in rest ensures Earlier(View(), id, x) {
            if x != first {
              EarlierIsTransitive(View(), id, first, x);
            }
          }
          first := id;
        }
      }
    }

    // The ordered query: at most count reports older than the cutoff, past the cursor.
    method SelectPage(cutoff: Time, cursor: Cursor, count: nat) returns (page: seq<Id>)
      ensures IsSelection(View(), cutoff, cursor, count, page)
    {
      var rest := set id | id in reports && Selectable(View(), cutoff, cursor, id);
      page := [];
      while |page| < count && rest != {}
        invariant |page| <= count && IsPage(View(), page) && rest <= reports.Keys
        invariant forall id :: id in rest ==> Selectable(View(), cutoff, cursor, id) && After(page, id)
        invariant forall i :: 0 <= i < |page| ==> Selectable(View(), cutoff, cursor, page[i])
        invariant forall id :: Selectable(View(), cutoff, cursor, id) ==> id in page || id in rest
        decreases |rest|
      {
        var first := Earliest(rest);
        assert After(page, first);
        rest := rest - {first};
        page := page + [first];
      }
    }

    // Everything on the page comes before the report.
    predicate After(page: seq<Id>, id: Id)
      reads this
    {
      forall i :: 0 <= i < |page| ==> Earlier(View(), page[i], id)
    }

    // The page's candidates in order, each judged after the deletions before it.
    method RetainPage(ids: seq<Id>, apply: bool) returns (items: seq<Candidate>, eligible: nat, preserved: nat, deleted: nat)
      requires forall i, j :: 0 <= i < j < |ids| ==> ids[i] != ids[j]
      modifies this`reports, this`targets
      ensures Accounts(old(View()), ids, apply, Progress(View(), items, eligible, preserved, deleted))
    {
      items, eligible, preserved, deleted := [], 0, 0, 0;
      ghost var t := View();
      AccountsAtStart(t, apply);
      for i := 0 to |ids|
        invariant Accounts(t, ids[..i], apply, Progress(View(), items, eligible, preserved, deleted))
      {
        AccountsNext(t, ids, i, apply, Progress(View(), items, eligible, preserved, deleted));
        var item := RetainOne(ids[i], apply);
        items := items + [item];
        if item.protection != Unprotected {
          preserved := preserved + 1;
        } else {
          eligible := eligible + 1;
        }
        if item.deleted {
          deleted := deleted + 1;
        }
      }
      assert ids[..|ids|] == ids;
    }

    // selected is what the query returned.
    method RunReportRetention(cutoff: Time, cursor: Cursor, limit: nat, apply: bool) returns (page: Page, ghost selected: seq<Id>)
      modifies this`reports, this`targets
      ensures IsSelection(old(View()), cutoff, cursor, limit + 1, selected)
      ensures var ids := if |selected| > limit then selected[..limit] else selected;
              Accounts(old(View()), ids, apply, Progress(View(), page.items, page.eligible, page.preserved, page.deleted))
      ensures page.complete <==> |selected| <= limit
      ensures page.next == if |selected| > limit > 0 then Some(CursorOf(old(View()), selected[limit - 1])) else None
    {
      var rows := SelectPage(cutoff, cursor, limit + 1);
      selected := rows;
      var more := |rows| > limit;
      var ids := if more then rows[..limit] else rows;
      var next := if more && |ids| > 0 then Some(Cursor(reports[ids[|ids| - 1]].createdAt, ids[|ids| - 1])) else None;
      forall i, j | 0 <= i < j < |ids| ensures ids[i] != ids[j] { PageIsDistinct(View(), rows, i, j); }
      var items, eligible, preserved, deleted := RetainPage(ids, apply);
      page := Page(items, eligible, preserved, deleted, next, !more);
    }
  }
}
