// Build: evidence grouped into findings through maps whose iteration order is arbitrary.
module Aggregate {
  import opened Lex

  datatype Key = Key(subject: string, provider: string, product: string, relation: string, scope: string)

  // provenance is the item's provenance key.
  datatype Evidence = Evidence(id: string, key: Key, category: string, strength: string, activity: string, provenance: string)

  datatype Finding = Finding(id: string, key: Key, category: string, strength: string, activity: string, evidence: seq<string>, conflicts: seq<string>)

  // A finding's ID: a hash of its key, taken to be injective.
  type Naming = Key -> string
  ghost predicate Injective(name: Naming) { forall a, b :: name(a) == name(b) ==> a == b }

  // strengthRank
  function Rank(strength: string): nat {
    if strength == "strong" then 3 else if strength == "moderate" then 2 else if strength == "weak" then 1 else 0
  }

  predicate Better(a: Evidence, b: Evidence) {
    Rank(a.strength) > Rank(b.strength) || (Rank(a.strength) == Rank(b.strength) && Less(a.id, b.id))
  }

  lemma BetterOrder(a: Evidence, b: Evidence, c: Evidence)
    ensures !(Better(a, b) && Better(b, a))
    ensures Better(a, b) && Better(b, c) ==> Better(a, c)
    ensures a.id != b.id ==> Better(a, b) || Better(b, a)
  {
    Total(a.id, b.id);
    if Less(a.id, b.id) {
      Asymmetric(a.id, b.id);
      if Less(b.id, c.id) {
        Transitive(a.id, b.id, c.id);
      }
    }
  }

  // ------------------------------------------------------------------ deduplication

  // One item per ID, of the greatest rank seen for it.
  predicate ById(items: seq<Evidence>, m: map<string, Evidence>) {
    && (forall id :: id in m ==> m[id].id == id && m[id] in items)
    && (forall i :: 0 <= i < |items| ==> items[i].id in m && Rank(m[items[i].id].strength) >= Rank(items[i].strength))
  }

  // One item per provenance: the best of those with it.
  predicate ByProvenance(m: map<string, Evidence>, p: map<string, Evidence>) {
    && (forall v :: v in p ==> p[v].provenance == v && p[v].id in m && m[p[v].id] == p[v])
    && (forall id :: id in m ==> m[id].provenance in p && (p[m[id].provenance] == m[id] || Better(p[m[id].provenance], m[id])))
  }

  method KeepById(items: seq<Evidence>) returns (m: map<string, Evidence>)
    ensures ById(items, m)
  {
    m := map[];
    for i := 0 to |items|
      invariant ById(items[..i], m)
    {
      var item := items[i];
      assert items[..i + 1] == items[..i] + [item];
      if item.id !in m || Rank(item.strength) > Rank(m[item.id].strength) {
        m := m[item.id := item];
      }
    }
    assert items[..|items|] == items;
  }

  predicate Keyed(m: map<string, Evidence>) { forall id :: id in m ==> m[id].id == id }

  lemma ProvenanceStep(done: map<string, Evidence>, p: map<string, Evidence>, item: Evidence)
    requires Keyed(done) && ByProvenance(done, p) && item.id !in done
    ensures var v := item.provenance;
            ByProvenance(done[item.id := item], if v !in p || Better(item, p[v]) then p[v := item] else p)
  {
    var v, m := item.provenance, done[item.id := item];
    var q := if v !in p || Better(item, p[v]) then p[v := item] else p;
    forall id | id in m ensures m[id].provenance in q && (q[m[id].provenance] == m[id] || Better(q[m[id].provenance], m[id])) {
      if v in p {
        BetterOrder(item, p[v], m[id]);
      }
    }
  }

  // The map is walked in any order.
  method KeepByProvenance(m: map<string, Evidence>) returns (p: map<string, Evidence>)
    requires Keyed(m)
    ensures ByProvenance(m, p)
  {
    p := map[];
    var rest := m.Keys;
    ghost var done: map<string, Evidence> := map[];
    while rest != {}
      invariant rest <= m.Keys && done.Keys == m.Keys - rest && (forall id :: id in done ==> done[id] == m[id])
      invariant ByProvenance(done, p)
      decreases |rest|
    {
      var id :| id in rest;
      var item := m[id];
      ProvenanceStep(done, p, item);
      if item.provenance !in p || Rank(item.strength) > Rank(p[item.provenance].strength)
         || (Rank(item.strength) == Rank(p[item.provenance].strength) && Less(item.id, p[item.provenance].id)) {
        p := p[item.provenance := item];
      }
      done := done[id := item];
      rest := rest - {id};
    }
    assert done == m;
  }

  // Both stages, keyed by ID again.
  ghost predicate Kept(m: map<string, Evidence>, p: map<string, Evidence>, k: map<string, Evidence>) {
    && Keyed(k)
    && (forall id :: id in k <==> id in m && m[id].provenance in p && p[m[id].provenance] == m[id])
    && (forall id :: id in k ==> id in m && k[id] == m[id])
  }

  method Deduplicate(items: seq<Evidence>) returns (m: map<string, Evidence>, p: map<string, Evidence>, k: map<string, Evidence>)
    ensures ById(items, m) && ByProvenance(m, p) && Kept(m, p, k)
  {
    m := KeepById(items);
    p := KeepByProvenance(m);
    k := map id | id in m && m[id].provenance in p && p[m[id].provenance] == m[id] :: m[id];
  }

  // Whatever is dropped, at either stage, leaves one of at least its rank.
  lemma DroppedIsDominated(items: seq<Evidence>, m: map<string, Evidence>, p: map<string, Evidence>, k: map<string, Evidence>, i: nat)
    requires ById(items, m) && ByProvenance(m, p) && Kept(m, p, k) && i < |items|
    ensures exists id :: id in k && Rank(k[id].strength) >= Rank(items[i].strength)
  {
    var first := m[items[i].id];
    var best := p[first.provenance];
    assert best.id in k && k[best.id] == best;
  }

  // ------------------------------------------------------------------------ findings

  // The items in ID order.
  function Listed(m: map<string, Evidence>, ids: seq<string>): (items: seq<Evidence>)
    requires forall i :: 0 <= i < |ids| ==> ids[i] in m
    ensures |items| == |ids| && forall i :: 0 <= i < |ids| ==> items[i] == m[ids[i]]
  {
    if ids == [] then [] else Listed(m, ids[..|ids| - 1]) + [m[ids[|ids| - 1]]]
  }

  function Listing(m: map<string, Evidence>): seq<Evidence> { Listed(m, Sorted(m.Keys)) }

  function Strongest(items: seq<Evidence>): string
    requires items != []
  {
    if |items| == 1 then items[0].strength
    else
      var s, last := Strongest(items[..|items| - 1]), items[|items| - 1].strength;
      if Rank(last) > Rank(s) then last else s
  }

  lemma {:induction false} StrongestIsMaximum(items: seq<Evidence>)
    requires items != []
    ensures forall i :: 0 <= i < |items| ==> Rank(items[i].strength) <= Rank(Strongest(items))
    ensures exists i :: 0 <= i < |items| && items[i].strength == Strongest(items)
  {
    if |items| == 1 {
      assert items[0].strength == Strongest(items);
    } else {
      var front := items[..|items| - 1];
      StrongestIsMaximum(front);
      var i :| 0 <= i < |front| && front[i].strength == Strongest(front);
      assert items[i].strength == Strongest(front) && items[|items| - 1].strength == items[|items| - 1].strength;
    }
  }

  const NETWORK := {"network_provider", "network_origin", "service_range"}

  // Findings about one subject, relation and scope that name different entities.
  predicate Conflict(a: Key, b: Key) {
    && a.relation in NETWORK && a.subject == b.subject && a.relation == b.relation && a.scope == b.scope
    && !(a.provider == b.provider && a.product == b.product)
  }

  function ConflictIds(name: Naming, keys: set<Key>, k: Key): set<string> { set c | c in keys && Conflict(k, c) :: name(c) }

  // A finding before its conflicts are linked.
  function Draft(name: Naming, k: Key, kept: map<string, Evidence>): Finding
    requires kept != map[]
  {
    var items := Listing(kept);
    assert |items| == |kept.Keys| && kept.Keys != {};
    Finding(name(k), k, items[0].category, Strongest(items), items[0].activity, Sorted(kept.Keys), [])
  }

  function FindingOf(name: Naming, keys: set<Key>, k: Key, kept: map<string, Evidence>): Finding
    requires kept != map[]
  {
    Draft(name, k, kept).(conflicts := Sorted(ConflictIds(name, keys, k)))
  }

  // ------------------------------------------------------------------- specification

  // What a set of evidence leaves: per provenance, the best.
  ghost predicate IsBest(group: set<Evidence>, e: Evidence) {
    e in group && forall f :: f in group && f.provenance == e.provenance && f != e ==> Better(e, f)
  }

  ghost predicate Leaves(group: set<Evidence>, k: map<string, Evidence>) {
    && (forall id :: id in k ==> k[id].id == id && IsBest(group, k[id]))
    && (forall e :: IsBest(group, e) ==> e.id in k && k[e.id] == e)
  }

  function Group(all: set<Evidence>, key: Key): set<Evidence> { set e | e in all && e.key == key }
  function Keys(all: set<Evidence>): set<Key> { set e | e in all :: e.key }

  ghost predicate UniqueIds(all: set<Evidence>) { forall a, b :: a in all && b in all && a.id == b.id ==> a == b }

  ghost predicate FindingRight(name: Naming, all: set<Evidence>, f: Finding) {
    && f.key in Keys(all)
    && exists k :: Leaves(Group(all, f.key), k) && k != map[] && f == FindingOf(name, Keys(all), f.key, k)
  }

  // The findings of a set of evidence: one per key, in ID order.
  ghost predicate Aggregates(name: Naming, all: set<Evidence>, fs: seq<Finding>) {
    && Ascending(Ids(fs))
    && (forall i :: 0 <= i < |fs| ==> FindingRight(name, all, fs[i]))
    && (forall k :: Covers(Keys(all), fs, k))
  }

  // A key has a finding.
  ghost predicate Covers(keys: set<Key>, fs: seq<Finding>, k: Key) { k in keys ==> exists i :: 0 <= i < |fs| && fs[i].key == k }

  lemma LeavesIsUnique(group: set<Evidence>, a: map<string, Evidence>, b: map<string, Evidence>)
    requires Leaves(group, a) && Leaves(group, b)
    ensures a == b
  {
  }

  lemma FindingIsUnique(name: Naming, all: set<Evidence>, f: Finding, g: Finding)
    requires FindingRight(name, all, f) && FindingRight(name, all, g) && f.key == g.key
    ensures f == g
  {
    var a :| Leaves(Group(all, f.key), a) && a != map[] && f == FindingOf(name, Keys(all), f.key, a);
    var b :| Leaves(Group(all, g.key), b) && b != map[] && g == FindingOf(name, Keys(all), g.key, b);
    LeavesIsUnique(Group(all, f.key), a, b);
  }

  function Ids(fs: seq<Finding>): (ids: seq<string>)
    ensures |ids| == |fs| && forall i :: 0 <= i < |fs| ==> ids[i] == fs[i].id
  {
    if fs == [] then [] else Ids(fs[..|fs| - 1]) + [fs[|fs| - 1].id]
  }

  lemma AggregatesIds(name: Naming, all: set<Evidence>, fs: seq<Finding>, id: string)
    requires Aggregates(name, all, fs)
    ensures id in Ids(fs) <==> exists k :: k in Keys(all) && name(k) == id
  {
    if id in Ids(fs) {
      var i :| 0 <= i < |fs| && Ids(fs)[i] == id;
      assert FindingRight(name, all, fs[i]);
    }
    if k :| k in Keys(all) && name(k) == id {
      assert Covers(Keys(all), fs, k);
      var i :| 0 <= i < |fs| && fs[i].key == k;
      assert FindingRight(name, all, fs[i]);
      assert Ids(fs)[i] == id;
    }
  }

  // A set of evidence has one list of findings.
  lemma FindingsAreUnique(name: Naming, all: set<Evidence>, a: seq<Finding>, b: seq<Finding>)
    requires Injective(name) && Aggregates(name, all, a) && Aggregates(name, all, b)
    ensures a == b
  {
    forall id ensures id in Ids(a) <==> id in Ids(b) {
      AggregatesIds(name, all, a, id);
      AggregatesIds(name, all, b, id);
    }
    AscendingIsUnique(Ids(a), Ids(b));
    forall i | 0 <= i < |a| ensures a[i] == b[i] {
      assert Ids(a)[i] == Ids(b)[i] && FindingRight(name, all, a[i]) && FindingRight(name, all, b[i]);
      FindingIsUnique(name, all, a[i], b[i]);
    }
  }

  // Conflicts go both ways and never point back at the finding itself.
  lemma {:induction false} ConflictsAreMutual(name: Naming, all: set<Evidence>, fs: seq<Finding>, i: nat, j: nat)
    requires Injective(name) && Aggregates(name, all, fs) && i < |fs| && j < |fs|
    ensures fs[j].id in fs[i].conflicts <==> Conflict(fs[i].key, fs[j].key)
    ensures fs[j].id in fs[i].conflicts <==> fs[i].id in fs[j].conflicts
    ensures fs[i].id !in fs[i].conflicts
  {
    ConflictsListed(name, all, fs, i);
    ConflictsListed(name, all, fs, j);
  }

  // A finding's conflicts are the IDs of the conflicting keys, in order.
  lemma {:induction false} ConflictsListed(name: Naming, all: set<Evidence>, fs: seq<Finding>, i: nat)
    requires Aggregates(name, all, fs) && i < |fs|
    ensures fs[i].key in Keys(all) && fs[i].id == name(fs[i].key)
    ensures Ascending(fs[i].conflicts) && forall id :: id in fs[i].conflicts <==> id in ConflictIds(name, Keys(all), fs[i].key)
  {
    assert FindingRight(name, all, fs[i]);
  }

  // ---------------------------------------------------------------------- building

  function Members(items: seq<Evidence>): set<Evidence> { set i | 0 <= i < |items| :: items[i] }

  type Groups = map<Key, seq<Evidence>>

  // A group holds exactly the items of its key.
  ghost predicate GroupRight(all: set<Evidence>, groups: Groups, k: Key) {
    && (k in groups <==> k in Keys(all))
    && (k in groups ==> groups[k] != [] && Members(groups[k]) == Group(all, k))
  }

  ghost predicate Grouped(all: set<Evidence>, groups: Groups) { forall k :: GroupRight(all, groups, k) }

  function Appended(groups: Groups, item: Evidence): Groups {
    groups[item.key := (if item.key in groups then groups[item.key] else []) + [item]]
  }

  lemma MembersAppend(items: seq<Evidence>, item: Evidence)
    ensures Members(items + [item]) == Members(items) + {item}
  {
    var n := items + [item];
    assert n[|items|] == item;
    forall e | e in Members(items) ensures e in Members(n) {
      var i :| 0 <= i < |items| && items[i] == e;
      assert n[i] == e;
    }
  }

  lemma GroupedStep(all: set<Evidence>, groups: Groups, item: Evidence)
    requires Grouped(all, groups)
    ensures Grouped(all + {item}, Appended(groups, item))
  {
    forall k ensures GroupRight(all + {item}, Appended(groups, item), k) {
      assert GroupRight(all, groups, k);
      GroupStepAt(all, groups, item, k);
    }
  }

  lemma GroupStepAt(all: set<Evidence>, groups: Groups, item: Evidence, k: Key)
    requires GroupRight(all, groups, k)
    ensures GroupRight(all + {item}, Appended(groups, item), k)
  {
    assert Keys(all + {item}) == Keys(all) + {item.key};
    if k == item.key {
      MembersAppend(if k in groups then groups[k] else [], item);
      assert Group(all + {item}, k) == Group(all, k) + {item};
      if k !in groups {
        assert Group(all, k) == {};
      }
    } else {
      assert Group(all + {item}, k) == Group(all, k);
    }
  }

  method GroupByKey(items: seq<Evidence>) returns (groups: Groups)
    ensures Grouped(Members(items), groups)
  {
    groups := map[];
    for i := 0 to |items|
      invariant Grouped(Members(items[..i]), groups)
    {
      assert items[..i + 1] == items[..i] + [items[i]];
      MembersAppend(items[..i], items[i]);
      GroupedStep(Members(items[..i]), groups, items[i]);
      var key := items[i].key;
      groups := groups[key := (if key in groups then groups[key] else []) + [items[i]]];
    }
    assert items[..|items|] == items;
  }

  // A draft and the maps it came from.
  ghost predicate DraftOf(name: Naming, group: seq<Evidence>, f: Finding, m: map<string, Evidence>, p: map<string, Evidence>, k: map<string, Evidence>) {
    ById(group, m) && ByProvenance(m, p) && Kept(m, p, k) && k != map[] && f == Draft(name, f.key, k)
  }

  ghost predicate DraftRight(name: Naming, group: seq<Evidence>, f: Finding) {
    exists m: map<string, Evidence>, p: map<string, Evidence>, k: map<string, Evidence> :: DraftOf(name, group, f, m, p, k)
  }

  method MakeDraft(group: seq<Evidence>, key: Key, name: Naming) returns (f: Finding)
    requires group != []
    ensures f.key == key && DraftRight(name, group, f)
  {
    var m, p, k := Deduplicate(group);
    DroppedIsDominated(group, m, p, k, 0);
    f := Compose(key, k, name);
    assert DraftOf(name, group, f, m, p, k);
  }

  method ScanStrength(items: seq<Evidence>) returns (strength: string)
    requires items != []
    ensures strength == Strongest(items)
  {
    strength := items[0].strength;
    for i := 1 to |items|
      invariant strength == Strongest(items[..i])
    {
      assert items[..i + 1][..i] == items[..i];
      if Rank(items[i].strength) > Rank(strength) {
        strength := items[i].strength;
      }
    }
    assert items[..|items|] == items;
  }

  // The fields of a finding, from the kept items in ID order.
  method Compose(key: Key, k: map<string, Evidence>, name: Naming) returns (f: Finding)
    requires k != map[]
    ensures f == Draft(name, key, k)
  {
    var items := Listing(k);
    assert |items| == |k.Keys| && k.Keys != {};
    var strength := ScanStrength(items);
    f := Finding(name(key), key, items[0].category, strength, items[0].activity, Sorted(k.Keys), []);
  }

  // One draft per key, filed by ID.
  ghost predicate FiledAt(name: Naming, groups: Groups, keys: set<Key>, drafts: map<string, Finding>, id: string) {
    id in drafts ==>
      var f := drafts[id];
      f.key in keys && f.key in groups && name(f.key) == id && f.id == id && f.conflicts == [] && DraftRight(name, groups[f.key], f)
  }

  ghost predicate Filed(name: Naming, groups: Groups, keys: set<Key>, drafts: map<string, Finding>) {
    (forall id :: FiledAt(name, groups, keys, drafts, id)) && (forall k :: k in keys ==> name(k) in drafts)
  }

  method MakeDrafts(groups: Groups, name: Naming) returns (drafts: map<string, Finding>)
    requires (forall k :: k in groups ==> groups[k] != []) && Injective(name)
    ensures Filed(name, groups, groups.Keys, drafts)
  {
    drafts := map[];
    var rest := groups.Keys;
    ghost var done := {};
    while rest != {}
      invariant done + rest == groups.Keys && Filed(name, groups, done, drafts)
      decreases |rest|
    {
      var key :| key in rest;
      var f := MakeDraft(groups[key], key, name);
      FiledStep(name, groups, done, drafts, f);
      drafts := drafts[name(key) := f];
      done, rest := done + {key}, rest - {key};
    }
    assert done == groups.Keys;
  }

  lemma FiledStep(name: Naming, groups: Groups, keys: set<Key>, drafts: map<string, Finding>, f: Finding)
    requires Filed(name, groups, keys, drafts) && f.key in groups && DraftRight(name, groups[f.key], f) && Injective(name)
    ensures Filed(name, groups, keys + {f.key}, drafts[name(f.key) := f])
  {
    DraftShape(name, groups[f.key], f);
    var ks, n := keys + {f.key}, drafts[name(f.key) := f];
    forall id ensures FiledAt(name, groups, ks, n, id) {
      assert FiledAt(name, groups, keys, drafts, id);
      FiledStepAt(name, groups, keys, drafts, f, id);
    }
  }

  lemma FiledStepAt(name: Naming, groups: Groups, keys: set<Key>, drafts: map<string, Finding>, f: Finding, id: string)
    requires FiledAt(name, groups, keys, drafts, id) && f.key in groups && DraftRight(name, groups[f.key], f)
    requires f.id == name(f.key) && f.conflicts == []
    ensures FiledAt(name, groups, keys + {f.key}, drafts[name(f.key) := f], id)
  {
    var n := drafts[name(f.key) := f];
    if id == name(f.key) {
      assert n[id] == f;
    } else if id in drafts {
      assert n[id] == drafts[id];
    }
  }

  lemma DraftShape(name: Naming, group: seq<Evidence>, f: Finding)
    requires DraftRight(name, group, f)
    ensures f.id == name(f.key) && f.conflicts == []
  {
  }

  function Conflicting(drafts: map<string, Finding>, left: string): set<string>
    requires left in drafts
  {
    set r | r in drafts && Conflict(drafts[left].key, drafts[r].key)
  }

  // The other findings a finding conflicts with, found in any order.
  method ConflictsOf(drafts: map<string, Finding>, left: string) returns (ids: set<string>)
    requires left in drafts
    ensures ids == Conflicting(drafts, left)
  {
    ids := {};
    if drafts[left].key.relation !in NETWORK {
      return;
    }
    var rest := drafts.Keys;
    while rest != {}
      invariant rest <= drafts.Keys && forall r :: r in ids <==> r in Conflicting(drafts, left) && r !in rest
      decreases |rest|
    {
      var right :| right in rest;
      var a, b := drafts[left].key, drafts[right].key;
      if left != right && a.subject == b.subject && a.relation == b.relation && a.scope == b.scope
         && !(a.provider == b.provider && a.product == b.product) {
        ids := ids + {right};
      }
      rest := rest - {right};
    }
  }

  lemma ConflictIdsAgree(name: Naming, groups: Groups, keys: set<Key>, drafts: map<string, Finding>, left: string)
    requires Filed(name, groups, keys, drafts) && left in drafts && Injective(name)
    ensures Conflicting(drafts, left) == ConflictIds(name, keys, drafts[left].key)
  {
    var a, b := Conflicting(drafts, left), ConflictIds(name, keys, drafts[left].key);
    forall id ensures id in a <==> id in b {
      assert FiledAt(name, groups, keys, drafts, id);
      if id in b {
        var c :| c in keys && Conflict(drafts[left].key, c) && name(c) == id;
        assert name(c) in drafts;
      }
    }
  }

  // The findings of grouped evidence: drafts with their conflicts, in ID order.
  ghost predicate BuiltAt(name: Naming, groups: Groups, f: Finding) {
    && f.key in groups && f.conflicts == Sorted(ConflictIds(name, groups.Keys, f.key))
    && DraftRight(name, groups[f.key], f.(conflicts := []))
  }

  ghost predicate Built(name: Naming, groups: Groups, fs: seq<Finding>) {
    && Ascending(Ids(fs))
    && (forall i :: 0 <= i < |fs| ==> BuiltAt(name, groups, fs[i]))
    && (forall k :: Covers(groups.Keys, fs, k))
  }

  method Link(ghost groups: Groups, drafts: map<string, Finding>, id: string, name: Naming) returns (f: Finding)
    requires Filed(name, groups, groups.Keys, drafts) && Injective(name) && id in drafts
    ensures LinkedAt(name, groups.Keys, drafts, id, f)
  {
    var conflicts := ConflictsOf(drafts, id);
    ConflictIdsAgree(name, groups, groups.Keys, drafts, id);
    f := drafts[id].(conflicts := Sorted(conflicts));
  }

  method LinkAndSort(ghost groups: Groups, drafts: map<string, Finding>, name: Naming) returns (fs: seq<Finding>)
    requires Filed(name, groups, groups.Keys, drafts) && Injective(name)
    ensures Built(name, groups, fs)
  {
    var ids := Sorted(drafts.Keys);
    fs := [];
    for i := 0 to |ids|
      invariant |fs| == i && forall j :: 0 <= j < i ==> LinkedAt(name, groups.Keys, drafts, ids[j], fs[j])
    {
      var f := Link(groups, drafts, ids[i], name);
      fs := fs + [f];
    }
    LinkedIsBuilt(name, groups, drafts, ids, fs);
  }

  predicate LinkedAt(name: Naming, keys: set<Key>, drafts: map<string, Finding>, id: string, f: Finding) {
    id in drafts && f == drafts[id].(conflicts := Sorted(ConflictIds(name, keys, drafts[id].key)))
  }

  lemma LinkedIsBuiltAt(name: Naming, groups: Groups, drafts: map<string, Finding>, id: string, f: Finding)
    requires FiledAt(name, groups, groups.Keys, drafts, id) && LinkedAt(name, groups.Keys, drafts, id, f)
    ensures BuiltAt(name, groups, f) && f.id == id && name(f.key) == id
  {
  }

  lemma LinkedAreBuilt(name: Naming, groups: Groups, drafts: map<string, Finding>, ids: seq<string>, fs: seq<Finding>)
    requires Filed(name, groups, groups.Keys, drafts) && |fs| == |ids|
    requires forall i :: 0 <= i < |fs| ==> LinkedAt(name, groups.Keys, drafts, ids[i], fs[i])
    ensures forall i :: 0 <= i < |fs| ==> BuiltAt(name, groups, fs[i])
    ensures forall i :: 0 <= i < |fs| ==> fs[i].id == ids[i] && name(fs[i].key) == ids[i]
  {
    forall i | 0 <= i < |fs| ensures fs[i].id == ids[i] && name(fs[i].key) == ids[i] && BuiltAt(name, groups, fs[i]) {
      assert FiledAt(name, groups, groups.Keys, drafts, ids[i]);
      LinkedIsBuiltAt(name, groups, drafts, ids[i], fs[i]);
    }
  }

  lemma LinkedIsBuilt(name: Naming, groups: Groups, drafts: map<string, Finding>, ids: seq<string>, fs: seq<Finding>)
    requires Filed(name, groups, groups.Keys, drafts) && Ascending(ids) && (forall id :: id in ids <==> id in drafts)
    requires |fs| == |ids| && Injective(name)
    requires forall i :: 0 <= i < |fs| ==> LinkedAt(name, groups.Keys, drafts, ids[i], fs[i])
    ensures Built(name, groups, fs)
  {
    LinkedAreBuilt(name, groups, drafts, ids, fs);
    SameIds(ids, fs);
    forall k ensures Covers(groups.Keys, fs, k) {
      if k in groups {
        assert name(k) in drafts;
        IdsCover(name, groups.Keys, ids, fs, k);
      }
    }
  }

  lemma SameIds(ids: seq<string>, fs: seq<Finding>)
    requires |ids| == |fs| && forall i :: 0 <= i < |fs| ==> fs[i].id == ids[i]
    ensures Ids(fs) == ids
  {
  }

  lemma IdsCover(name: Naming, keys: set<Key>, ids: seq<string>, fs: seq<Finding>, k: Key)
    requires |fs| == |ids| && Injective(name) && name(k) in ids && forall i :: 0 <= i < |fs| ==> name(fs[i].key) == ids[i]
    ensures Covers(keys, fs, k)
  {
  }

  // --------------------------------------------------------------------- strength

  lemma KeptIsListed(group: seq<Evidence>, m: map<string, Evidence>, p: map<string, Evidence>, k: map<string, Evidence>, id: string)
    requires ById(group, m) && Kept(m, p, k) && id in k
    ensures k[id] in group && k[id].id == id && id in Sorted(k.Keys)
    ensures Listing(k) != [] && Rank(k[id].strength) <= Rank(Strongest(Listing(k)))
  {
    assert id in Sorted(k.Keys);
    var i :| 0 <= i < |Sorted(k.Keys)| && Sorted(k.Keys)[i] == id;
    assert Listing(k)[i] == k[id];
    StrongestIsMaximum(Listing(k));
  }

  lemma StrongestIsKept(k: map<string, Evidence>)
    requires k != map[] && Keyed(k)
    ensures Listing(k) != [] && exists id :: id in k && k[id].strength == Strongest(Listing(k))
  {
    var items := Listing(k);
    assert |items| == |k.Keys| && k.Keys != {};
    StrongestIsMaximum(items);
    var i :| 0 <= i < |items| && items[i].strength == Strongest(items);
    assert Sorted(k.Keys)[i] in k && items[i] == k[Sorted(k.Keys)[i]];
  }

  // The draft's strength is at least that of every item of its group, which is matched by a
  // kept one of at least its rank.
  lemma DraftDominates(name: Naming, group: seq<Evidence>, f: Finding, e: Evidence) returns (d: Evidence)
    requires DraftRight(name, group, f) && e in group
    ensures Rank(e.strength) <= Rank(f.strength)
    ensures d in group && d.id in f.evidence && Rank(d.strength) >= Rank(e.strength)
  {
    var m: map<string, Evidence>, p: map<string, Evidence>, k: map<string, Evidence> :| DraftOf(name, group, f, m, p, k);
    var i :| 0 <= i < |group| && group[i] == e;
    DroppedIsDominated(group, m, p, k, i);
    var id :| id in k && Rank(k[id].strength) >= Rank(e.strength);
    KeptIsListed(group, m, p, k, id);
    d := k[id];
  }

  // Some kept item has the draft's strength.
  lemma DraftIsAttained(name: Naming, group: seq<Evidence>, f: Finding) returns (d: Evidence)
    requires DraftRight(name, group, f)
    ensures d in group && d.id in f.evidence && d.strength == f.strength
  {
    var m: map<string, Evidence>, p: map<string, Evidence>, k: map<string, Evidence> :| DraftOf(name, group, f, m, p, k);
    StrongestIsKept(k);
    var id :| id in k && k[id].strength == Strongest(Listing(k));
    KeptIsListed(group, m, p, k, id);
    d := k[id];
  }

  // ---------------------------------------------------------- with unique evidence IDs

  lemma UniqueLeaves(all: set<Evidence>, key: Key, group: seq<Evidence>, m: map<string, Evidence>, p: map<string, Evidence>, k: map<string, Evidence>)
    requires ById(group, m) && ByProvenance(m, p) && Kept(m, p, k) && Members(group) == Group(all, key) && UniqueIds(all)
    ensures Leaves(Group(all, key), k)
  {
    forall e ensures e in Group(all, key) <==> e.id in m && m[e.id] == e {
      UniqueMember(all, key, group, m, e);
    }
    forall e ensures IsBest(Group(all, key), e) <==> e.id in k && k[e.id] == e {
      BestIsKept(Group(all, key), m, p, k, e);
    }
  }

  lemma UniqueMember(all: set<Evidence>, key: Key, group: seq<Evidence>, m: map<string, Evidence>, e: Evidence)
    requires ById(group, m) && Members(group) == Group(all, key) && UniqueIds(all)
    ensures e in Group(all, key) <==> e.id in m && m[e.id] == e
  {
    if e in Group(all, key) {
      assert e in Members(group);
      var i :| 0 <= i < |group| && group[i] == e;
      assert m[e.id] in Members(group);
    }
    if e.id in m && m[e.id] == e {
      assert e in Members(group);
    }
  }

  lemma BestIsKept(group: set<Evidence>, m: map<string, Evidence>, p: map<string, Evidence>, k: map<string, Evidence>, e: Evidence)
    requires (forall x :: x in group <==> x.id in m && m[x.id] == x) && ByProvenance(m, p) && Kept(m, p, k)
    ensures IsBest(group, e) <==> e.id in k && k[e.id] == e
  {
    if e in group {
      var best := p[e.provenance];
      assert best in group;
      BetterOrder(best, e, e);
    }
  }

  lemma BuiltIsRight(name: Naming, all: set<Evidence>, groups: Groups, f: Finding)
    requires BuiltAt(name, groups, f) && Grouped(all, groups) && UniqueIds(all) && groups.Keys == Keys(all)
    ensures FindingRight(name, all, f)
  {
    var draft := f.(conflicts := []);
    var m: map<string, Evidence>, p: map<string, Evidence>, k: map<string, Evidence> :| DraftOf(name, groups[f.key], draft, m, p, k);
    assert GroupRight(all, groups, f.key);
    UniqueLeaves(all, f.key, groups[f.key], m, p, k);
    assert f == FindingOf(name, Keys(all), f.key, k);
  }

  lemma BuiltAggregates(name: Naming, all: set<Evidence>, groups: Groups, fs: seq<Finding>)
    requires Built(name, groups, fs) && Grouped(all, groups) && UniqueIds(all)
    ensures Aggregates(name, all, fs)
  {
    forall k ensures k in groups <==> k in Keys(all) { assert GroupRight(all, groups, k); }
    assert groups.Keys == Keys(all);
    forall k ensures Covers(Keys(all), fs, k) { assert Covers(groups.Keys, fs, k); }
    forall i | 0 <= i < |fs| ensures FindingRight(name, all, fs[i]) {
      assert BuiltAt(name, groups, fs[i]);
      BuiltIsRight(name, all, groups, fs[i]);
    }
  }

  // ------------------------------------------------------------------- the operation

  // What Build promises of its result.
  ghost predicate Findings(name: Naming, all: set<Evidence>, fs: seq<Finding>) {
    exists groups: Groups :: Grouped(all, groups) && Built(name, groups, fs)
  }

  // Whatever order the maps are walked in: the result is built from the groups, each finding
  // is as strong as its whole group, and with unique evidence IDs it is the one list of
  // findings of the evidence.
  method Build(items: seq<Evidence>, name: Naming) returns (fs: seq<Finding>)
    requires Injective(name)
    ensures Findings(name, Members(items), fs)
    ensures UniqueIds(Members(items)) ==> Aggregates(name, Members(items), fs)
  {
    var groups := GroupByKey(items);
    forall k | k in groups ensures groups[k] != [] { assert GroupRight(Members(items), groups, k); }
    var drafts := MakeDrafts(groups, name);
    fs := LinkAndSort(groups, drafts, name);
    if UniqueIds(Members(items)) {
      BuiltAggregates(name, Members(items), groups, fs);
    }
  }

  // A finding's strength is the greatest rank of all evidence with its key, and every such
  // item, dropped or not, is matched by a kept one of at least its rank.
  lemma FindingsAreStrong(name: Naming, all: set<Evidence>, fs: seq<Finding>, i: nat, e: Evidence) returns (d: Evidence, top: Evidence)
    requires Findings(name, all, fs) && i < |fs| && e in Group(all, fs[i].key)
    ensures Rank(e.strength) <= Rank(fs[i].strength)
    ensures d in Group(all, fs[i].key) && d.id in fs[i].evidence && Rank(d.strength) >= Rank(e.strength)
    ensures top in Group(all, fs[i].key) && top.id in fs[i].evidence && top.strength == fs[i].strength
  {
    var groups: Groups :| Grouped(all, groups) && Built(name, groups, fs);
    var f := fs[i];
    var group := groups[f.key];
    assert BuiltAt(name, groups, f) && GroupRight(all, groups, f.key);
    assert e in Members(group);
    d := DraftDominates(name, group, f.(conflicts := []), e);
    top := DraftIsAttained(name, group, f.(conflicts := []));
    assert d in Members(group) && top in Members(group);
  }

  // Order and repetition of the input, and the order of every map walk, do not matter.
  lemma BuildIsDeterministic(name: Naming, a: seq<Evidence>, b: seq<Evidence>, fs: seq<Finding>, gs: seq<Finding>)
    requires Injective(name) && Members(a) == Members(b) && UniqueIds(Members(a))
    requires Findings(name, Members(a), fs) && Findings(name, Members(b), gs)
    ensures fs == gs
  {
    var x: Groups :| Grouped(Members(a), x) && Built(name, x, fs);
    var y: Groups :| Grouped(Members(b), y) && Built(name, y, gs);
    BuiltAggregates(name, Members(a), x, fs);
    BuiltAggregates(name, Members(b), y, gs);
    FindingsAreUnique(name, Members(a), fs, gs);
  }
}
