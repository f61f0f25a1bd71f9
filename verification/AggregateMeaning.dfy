// What a finding says, in words: its strength, the evidence it lists and its conflicts.
module AggregateMeaning {
  import opened Lex
  import opened Aggregate

  // Strong before moderate before weak before anything else.
  predicate Stronger(a: string, b: string) {
    || (a == "strong" && b != "strong")
    || (a == "moderate" && b != "strong" && b != "moderate")
    || (a == "weak" && b != "strong" && b != "moderate" && b != "weak")
  }

  lemma StrongerRanks(a: string, b: string)
    ensures Stronger(a, b) <==> Rank(a) > Rank(b)
  {
  }

  ghost predicate Some(group: set<Evidence>, strength: string) { exists e :: e in group && e.strength == strength }

  // A finding is strong if any evidence with its key is, kept or not; else moderate if any is;
  // else weak if any is; and otherwise of a strength some evidence with its key has.
  lemma {:induction false} StrengthInWords(name: Naming, all: set<Evidence>, fs: seq<Finding>, i: nat)
    requires Findings(name, all, fs) && i < |fs|
    ensures var group, strength := Group(all, fs[i].key), fs[i].strength;
            && (strength == "strong" <==> Some(group, "strong"))
            && (strength == "moderate" <==> Some(group, "moderate") && !Some(group, "strong"))
            && (strength == "weak" <==> Some(group, "weak") && !Some(group, "moderate") && !Some(group, "strong"))
            && Some(group, strength)
  {
    var group := Group(all, fs[i].key);
    var first := FindingHasEvidence(name, all, fs, i);
    var _, top := FindingsAreStrong(name, all, fs, i, first);
    forall e | e in group ensures !Stronger(e.strength, fs[i].strength) {
      var _, _ := FindingsAreStrong(name, all, fs, i, e);
      StrongerRanks(e.strength, fs[i].strength);
    }
  }

  lemma {:induction false} FindingHasEvidence(name: Naming, all: set<Evidence>, fs: seq<Finding>, i: nat) returns (e: Evidence)
    requires Findings(name, all, fs) && i < |fs|
    ensures e in Group(all, fs[i].key)
  {
    var groups: Groups :| Grouped(all, groups) && Built(name, groups, fs);
    assert BuiltAt(name, groups, fs[i]) && GroupRight(all, groups, fs[i].key);
    e := groups[fs[i].key][0];
    assert e in Members(groups[fs[i].key]);
  }

  // The item its provenance is represented by: no other item of the group with the same
  // provenance is stronger, or as strong with a smaller ID.
  ghost predicate Represents(group: set<Evidence>, e: Evidence) {
    && e in group
    && forall o :: o in group && o.provenance == e.provenance && o != e ==>
         Stronger(e.strength, o.strength) || (!Stronger(o.strength, e.strength) && Less(e.id, o.id))
  }

  lemma BestRepresents(group: set<Evidence>, e: Evidence)
    ensures IsBest(group, e) <==> Represents(group, e)
  {
    forall o ensures Better(e, o) <==> Stronger(e.strength, o.strength) || (!Stronger(o.strength, e.strength) && Less(e.id, o.id)) {
      StrongerRanks(e.strength, o.strength);
      StrongerRanks(o.strength, e.strength);
    }
  }

  // A finding lists, in ID order, exactly the items that represent a provenance of its key;
  // its category and activity are those of the first.
  lemma {:induction false} EvidenceInWords(name: Naming, all: set<Evidence>, fs: seq<Finding>, i: nat, e: Evidence)
    requires Aggregates(name, all, fs) && UniqueIds(all) && i < |fs|
    ensures fs[i].id == name(fs[i].key) && fs[i].key in Keys(all) && Ascending(fs[i].evidence) && fs[i].evidence != []
    ensures e in Group(all, fs[i].key) ==> (e.id in fs[i].evidence <==> Represents(Group(all, fs[i].key), e))
    ensures e in Group(all, fs[i].key) && e.id == fs[i].evidence[0] ==> fs[i].category == e.category && fs[i].activity == e.activity
  {
    assert FindingRight(name, all, fs[i]);
    var group := Group(all, fs[i].key);
    var k :| Leaves(group, k) && k != map[] && fs[i] == FindingOf(name, Keys(all), fs[i].key, k);
    assert |Listing(k)| == |k.Keys| && k.Keys != {};
    BestRepresents(group, e);
    if e.id in k {
      assert IsBest(group, k[e.id]);
    }
    if e.id == fs[i].evidence[0] {
      assert Listing(k)[0] == k[e.id];
    }
  }

  // Every key with evidence has exactly one finding.
  lemma {:induction false} OneFindingPerKey(name: Naming, all: set<Evidence>, fs: seq<Finding>, e: Evidence)
    requires Aggregates(name, all, fs) && Injective(name) && e in all
    ensures exists i :: 0 <= i < |fs| && fs[i].key == e.key
    ensures forall i, j :: 0 <= i < |fs| && 0 <= j < |fs| && fs[i].key == fs[j].key ==> i == j
  {
    assert Covers(Keys(all), fs, e.key);
    forall i, j | 0 <= i < |fs| && 0 <= j < |fs| && fs[i].key == fs[j].key ensures i == j {
      assert FindingRight(name, all, fs[i]) && FindingRight(name, all, fs[j]);
      assert Ids(fs)[i] == Ids(fs)[j];
      Irreflexive(fs[i].id);
    }
  }

  predicate Disagree(a: Key, b: Key) {
    && (a.relation == "network_provider" || a.relation == "network_origin" || a.relation == "service_range")
    && b.relation == a.relation && b.subject == a.subject && b.scope == a.scope && (b.provider != a.provider || b.product != a.product)
  }

  lemma ConflictDisagrees(a: Key, b: Key)
    ensures Conflict(a, b) <==> Disagree(a, b)
  {
  }

  // Two findings conflict exactly when they place the same subject in the same scope by the
  // same network relation at different providers or products.
  lemma {:induction false} ConflictsInWords(name: Naming, all: set<Evidence>, fs: seq<Finding>, i: nat, j: nat)
    requires Injective(name) && Aggregates(name, all, fs) && i < |fs| && j < |fs|
    ensures fs[j].id in fs[i].conflicts <==> Disagree(fs[i].key, fs[j].key)
  {
    ConflictsAreMutual(name, all, fs, i, j);
    ConflictDisagrees(fs[i].key, fs[j].key);
  }

  // Conflicts are listed in order and name findings.
  lemma {:induction false} ConflictsNameFindings(name: Naming, all: set<Evidence>, fs: seq<Finding>, i: nat, id: string)
    requires Aggregates(name, all, fs) && i < |fs|
    ensures Ascending(fs[i].conflicts) && (id in fs[i].conflicts ==> id in Ids(fs))
  {
    ConflictsListed(name, all, fs, i);
    AggregatesIds(name, all, fs, id);
  }
}
