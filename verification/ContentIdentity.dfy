// canonicalReport and contentCanonicalJSON: the text a report's content ID is taken from.
module ContentIdentity {
  import opened Options
  import opened Lex
  import opened CanonicalJson

  // --------------------------------------------------------------------- sorting

  // A sort key; single-field keys leave the second part empty.
  datatype Key = Key(first: string, second: string)

  predicate Below(a: Key, b: Key) { Less(a.first, b.first) || (a.first == b.first && Less(a.second, b.second)) }

  lemma BelowOrder(a: Key, b: Key, c: Key)
    ensures Below(a, b) && Below(b, c) ==> Below(a, c)
    ensures !(Below(a, b) && Below(b, a))
    ensures Below(a, b) || a == b || Below(b, a)
  {
    StringOrder(a.first, b.first, c.first);
    StringOrder(a.second, b.second, c.second);
  }

  lemma StringOrder(a: string, b: string, c: string)
    ensures Less(a, b) && Less(b, c) ==> Less(a, c)
    ensures !(Less(a, b) && Less(b, a)) && !Less(a, a)
    ensures Less(a, b) || a == b || Less(b, a)
  {
    if Less(a, b) && Less(b, c) {
      Transitive(a, b, c);
    }
    if Less(a, b) {
      Asymmetric(a, b);
    }
    Irreflexive(a);
    Total(a, b);
  }

  function Insert<T>(key: T -> Key, s: seq<T>, x: T): seq<T> {
    if s == [] then [x]
    else if Below(key(x), key(s[0])) then [x] + s
    else [s[0]] + Insert(key, s[1..], x)
  }

  function SortBy<T>(key: T -> Key, s: seq<T>): seq<T> {
    if s == [] then [] else Insert(key, SortBy(key, s[..|s| - 1]), s[|s| - 1])
  }

  predicate Ordered<T>(key: T -> Key, s: seq<T>) { forall i, j :: 0 <= i < j < |s| ==> !Below(key(s[j]), key(s[i])) }

  // Elements with one key are one element.
  ghost predicate Identified<T(!new)>(key: T -> Key, s: seq<T>) { forall x, y :: x in s && y in s && key(x) == key(y) ==> x == y }

  lemma {:induction false} InsertPermutes<T>(key: T -> Key, s: seq<T>, x: T)
    ensures multiset(Insert(key, s, x)) == multiset(s) + multiset{x}
  {
    if s != [] {
      assert s == [s[0]] + s[1..];
      if !Below(key(x), key(s[0])) {
        InsertPermutes(key, s[1..], x);
      }
    }
  }

  lemma {:induction false} SortPermutes<T>(key: T -> Key, s: seq<T>)
    ensures multiset(SortBy(key, s)) == multiset(s)
  {
    if s != [] {
      SortPermutes(key, s[..|s| - 1]);
      InsertPermutes(key, SortBy(key, s[..|s| - 1]), s[|s| - 1]);
      assert s == s[..|s| - 1] + [s[|s| - 1]];
    }
  }

  lemma Prepend<T(!new)>(key: T -> Key, x: T, s: seq<T>)
    requires Ordered(key, s) && forall y :: y in s ==> !Below(key(y), key(x))
    ensures Ordered(key, [x] + s)
  {
  }

  lemma {:induction false} InsertOrders<T(!new)>(key: T -> Key, s: seq<T>, x: T)
    requires Ordered(key, s)
    ensures Ordered(key, Insert(key, s, x))
  {
    if s == [] {
    } else if Below(key(x), key(s[0])) {
      forall y | y in s ensures !Below(key(y), key(x)) {
        BelowOrder(key(y), key(x), key(s[0]));
        BelowOrder(key(x), key(s[0]), key(s[0]));
      }
      Prepend(key, x, s);
    } else {
      InsertOrders(key, s[1..], x);
      InsertPermutes(key, s[1..], x);
      var t := Insert(key, s[1..], x);
      forall y | y in t ensures !Below(key(y), key(s[0])) {
        assert y in multiset(t);
        assert y in s[1..] || y == x;
      }
      Prepend(key, s[0], t);
    }
  }

  lemma {:induction false} SortOrders<T(!new)>(key: T -> Key, s: seq<T>)
    ensures Ordered(key, SortBy(key, s))
  {
    if s != [] {
      SortOrders(key, s[..|s| - 1]);
      InsertOrders(key, SortBy(key, s[..|s| - 1]), s[|s| - 1]);
    }
  }

  lemma SameFirst<T(!new)>(key: T -> Key, a: seq<T>, b: seq<T>)
    requires multiset(a) == multiset(b) && Ordered(key, a) && Ordered(key, b) && Identified(key, a) && a != []
    ensures b != [] && a[0] == b[0]
  {
    assert |multiset(a)| == |a| && |multiset(b)| == |b|;
    assert a[0] in multiset(b) && b[0] in multiset(a);
    var i :| 0 <= i < |b| && b[i] == a[0];
    var j :| 0 <= j < |a| && a[j] == b[0];
    BelowOrder(key(a[0]), key(b[0]), key(b[0]));
    assert a[0] in a && b[0] in a;
  }

  // Ordered listings of the same elements are equal, whatever the sorting algorithm.
  lemma {:induction false} OrderedIsUnique<T(!new)>(key: T -> Key, a: seq<T>, b: seq<T>)
    requires multiset(a) == multiset(b) && Ordered(key, a) && Ordered(key, b) && Identified(key, a)
    ensures a == b
  {
    if a == [] {
      assert |multiset(b)| == |b|;
    } else {
      SameFirst(key, a, b);
      assert a == [a[0]] + a[1..] && b == [b[0]] + b[1..];
      assert multiset(a[1..]) == multiset(a) - multiset{a[0]} && multiset(b[1..]) == multiset(b) - multiset{b[0]};
      OrderedIsUnique(key, a[1..], b[1..]);
    }
  }

  lemma SortIgnoresOrder<T(!new)>(key: T -> Key, a: seq<T>, b: seq<T>)
    requires multiset(a) == multiset(b) && Identified(key, a)
    ensures SortBy(key, a) == SortBy(key, b)
  {
    SortPermutes(key, a);
    SortPermutes(key, b);
    SortOrders(key, a);
    SortOrders(key, b);
    SameMembers(a, SortBy(key, a));
    OrderedIsUnique(key, SortBy(key, a), SortBy(key, b));
  }

  lemma SameMembers<T>(a: seq<T>, b: seq<T>)
    requires multiset(a) == multiset(b)
    ensures forall x :: x in b ==> x in a
  {
    forall x | x in b ensures x in a { assert x in multiset(b); }
  }

  function MapSeq<T, U>(f: T -> U, s: seq<T>): (r: seq<U>)
    ensures |r| == |s| && forall i :: 0 <= i < |s| ==> r[i] == f(s[i])
  {
    if s == [] then [] else MapSeq(f, s[..|s| - 1]) + [f(s[|s| - 1])]
  }

  // Rewriting elements without touching their keys commutes with sorting.
  lemma {:induction false} MapInsert<T>(key: T -> Key, f: T -> T, s: seq<T>, x: T)
    requires forall y :: key(f(y)) == key(y)
    ensures MapSeq(f, Insert(key, s, x)) == Insert(key, MapSeq(f, s), f(x))
  {
    if s != [] {
      assert MapSeq(f, s)[1..] == MapSeq(f, s[1..]);
      if !Below(key(x), key(s[0])) {
        MapInsert(key, f, s[1..], x);
      }
    }
  }

  lemma {:induction false} MapSort<T>(key: T -> Key, f: T -> T, s: seq<T>)
    requires forall y :: key(f(y)) == key(y)
    ensures MapSeq(f, SortBy(key, s)) == SortBy(key, MapSeq(f, s))
  {
    if s != [] {
      MapSort(key, f, s[..|s| - 1]);
      MapInsert(key, f, SortBy(key, s[..|s| - 1]), s[|s| - 1]);
      assert MapSeq(f, s)[..|s| - 1] == MapSeq(f, s[..|s| - 1]);
    }
  }

  // --------------------------------------------------------------------- reports

  // A clock reading with its zone; only the instant is content.
  datatype Stamp = Stamp(instant: int, offset: int)

  // An observation, finding, coverage entry or dataset record: its sort key, the string lists
  // that are sorted, its times and its other members.
  datatype Part = Part(key: Key, lists: map<string, seq<string>>, times: map<string, Stamp>, rest: map<string, Json>)
  datatype Evidence = Evidence(part: Part, records: seq<Part>)

  datatype Report = Report(id: string, version: string, observations: seq<Part>, evidence: seq<Evidence>, findings: seq<Part>,
                           coverage: seq<Part>, warnings: seq<string>, times: map<string, Stamp>, provenance: Option<Json>,
                           rest: map<string, Json>)

  const CONTENT_VERSION := "2"

  type Format = Stamp -> string

  function StringKey(s: string): Key { Key(s, "") }
  function PartKey(p: Part): Key { p.key }
  function EvidenceKey(e: Evidence): Key { e.part.key }

  function SortStrings(s: seq<string>): seq<string> { SortBy(StringKey, s) }
  function Utc(s: Stamp): Stamp { Stamp(s.instant, 0) }

  function CanonicalPart(p: Part): Part {
    p.(lists := map k | k in p.lists :: SortStrings(p.lists[k]), times := map k | k in p.times :: Utc(p.times[k]))
  }

  function CanonicalEvidence(e: Evidence): Evidence {
    Evidence(CanonicalPart(e.part), MapSeq(CanonicalPart, SortBy(PartKey, e.records)))
  }

  // canonicalReport, and the UTC pass of contentCanonicalJSON.
  function CanonicalReport(r: Report): Report {
    r.(observations := MapSeq(CanonicalPart, SortBy(PartKey, r.observations)),
       evidence := MapSeq(CanonicalEvidence, SortBy(EvidenceKey, r.evidence)),
       findings := MapSeq(CanonicalPart, SortBy(PartKey, r.findings)),
       coverage := MapSeq(CanonicalPart, SortBy(PartKey, r.coverage)),
       warnings := SortStrings(r.warnings),
       times := map k | k in r.times :: Utc(r.times[k]))
  }

  function Strings(s: seq<string>): Json { Arr(MapSeq((x: string) => Str(x), s)) }

  function Times(times: map<string, Stamp>, format: Format): map<string, Json> { map k | k in times :: Str(format(times[k])) }

  function PartFields(p: Part, format: Format): map<string, Json> {
    p.rest + Times(p.times, format) + map k | k in p.lists :: Strings(p.lists[k])
  }

  function PartJson(p: Part, format: Format): Json { Obj(PartFields(p, format)) }

  function Parts(s: seq<Part>, format: Format): Json { Arr(MapSeq((p: Part) => PartJson(p, format), s)) }

  function EvidenceJson(e: Evidence, format: Format): Json {
    Obj(PartFields(e.part, format)["dataset_records" := Parts(e.records, format)])
  }

  function ProvenanceJson(p: Option<Json>): map<string, Json> { if p.Some? then map["provenance" := p.value] else map[] }

  function Collections(r: Report, format: Format): map<string, Json> {
    map["observations" := Parts(r.observations, format),
        "evidence" := Arr(MapSeq((e: Evidence) => EvidenceJson(e, format), r.evidence)),
        "findings" := Parts(r.findings, format), "coverage" := Parts(r.coverage, format), "warnings" := Strings(r.warnings)]
  }

  function Header(r: Report): map<string, Json> { map["report_id" := Str(r.id), "content_id_version" := Str(r.version)] }

  // The decoded document of a report.
  function Document(r: Report, format: Format): map<string, Json> {
    r.rest + Times(r.times, format) + ProvenanceJson(r.provenance)
    + Header(r) + Collections(r, format)
  }

  function Version(r: Report): string { if r.version == "" then CONTENT_VERSION else r.version }

  predicate Supported(r: Report) { Version(r) in {"1", CONTENT_VERSION} }

  // The content projection.
  function Content(r: Report, format: Format): Json {
    var document := Document(CanonicalReport(r).(version := Version(r)), format) - {"report_id"};
    Obj(if Version(r) == "1" then document - {"provenance"} else document)
  }

  // contentCanonicalJSON
  function ContentText(r: Report, format: Format): Option<string>
    requires Decoded(Content(r, format))
  {
    if Supported(r) then Some(Write(Content(r, format))) else None
  }

  // --------------------------------------------------------------------- theorems

  // The same part with its lists in another order and its times in other zones.
  predicate SamePart(p: Part, q: Part) {
    && p.key == q.key && p.rest == q.rest
    && p.lists.Keys == q.lists.Keys && (forall k :: k in p.lists ==> multiset(p.lists[k]) == multiset(q.lists[k]))
    && p.times.Keys == q.times.Keys && (forall k :: k in p.times ==> p.times[k].instant == q.times[k].instant)
  }

  ghost predicate UniqueKeys<T(!new)>(key: T -> Key, s: seq<T>) { forall i, j :: 0 <= i < |s| && 0 <= j < |s| && key(s[i]) == key(s[j]) ==> i == j }

  // b lists the elements of a in another order, each the same up to the relation.
  ghost predicate Permuted<T(!new)>(same: (T, T) -> bool, a: seq<T>, b: seq<T>) {
    exists c :: multiset(a) == multiset(c) && Pointwise(same, c, b)
  }

  predicate Pointwise<T>(same: (T, T) -> bool, c: seq<T>, b: seq<T>) { |c| == |b| && forall i :: 0 <= i < |b| ==> same(c[i], b[i]) }

  // The same evidence: also with its dataset records, which have unique keys, permuted.
  ghost predicate SameItem(e: Evidence, f: Evidence) {
    SamePart(e.part, f.part) && UniqueKeys(PartKey, e.records) && Permuted(SamePart, e.records, f.records)
  }

  ghost predicate SameParts(a: seq<Part>, b: seq<Part>) { UniqueKeys(PartKey, a) && Permuted(SamePart, a, b) }

  ghost predicate SameEvidence(a: seq<Evidence>, b: seq<Evidence>) {
    UniqueKeys(EvidenceKey, a) && exists c :: multiset(a) == multiset(c) && PointwiseItems(c, b)
  }

  ghost predicate PointwiseItems(c: seq<Evidence>, b: seq<Evidence>) { |c| == |b| && forall i :: 0 <= i < |b| ==> SameItem(c[i], b[i]) }

  ghost predicate Rearranged(r: Report, s: Report) {
    && SameParts(r.observations, s.observations) && SameEvidence(r.evidence, s.evidence)
    && SameParts(r.findings, s.findings) && SameParts(r.coverage, s.coverage)
    && multiset(r.warnings) == multiset(s.warnings)
    && r.times.Keys == s.times.Keys && (forall k :: k in r.times ==> r.times[k].instant == s.times[k].instant)
    && Version(r) == Version(s) && r.rest == s.rest
    && (Version(r) == "1" || r.provenance == s.provenance)
  }

  lemma StringsAgree(a: seq<string>, b: seq<string>)
    requires multiset(a) == multiset(b)
    ensures SortStrings(a) == SortStrings(b)
  {
    SortIgnoresOrder(StringKey, a, b);
  }

  // Sorting the lists and moving to UTC undoes the difference.
  lemma SamePartAgrees(p: Part, q: Part)
    requires SamePart(p, q)
    ensures CanonicalPart(p) == CanonicalPart(q)
  {
    forall k | k in p.lists ensures SortStrings(p.lists[k]) == SortStrings(q.lists[k]) {
      StringsAgree(p.lists[k], q.lists[k]);
    }
  }

  function Drop<T>(s: seq<T>, i: nat): seq<T>
    requires i < |s|
  {
    s[..i] + s[i + 1..]
  }

  lemma DropCounts<T>(s: seq<T>, i: nat)
    requires i < |s|
    ensures multiset(s) == multiset(Drop(s, i)) + multiset{s[i]}
    ensures multiset(Drop(s, i)) == multiset(s) - multiset{s[i]}
  {
    assert s == s[..i] + [s[i]] + s[i + 1..];
  }

  lemma MapDrop<T, U>(f: T -> U, s: seq<T>, i: nat)
    requires i < |s|
    ensures MapSeq(f, Drop(s, i)) == Drop(MapSeq(f, s), i)
  {
    var a, b := MapSeq(f, Drop(s, i)), Drop(MapSeq(f, s), i);
    forall j | 0 <= j < |a| ensures a[j] == b[j] {
      assert Drop(s, i)[j] == s[if j < i then j else j + 1];
    }
  }

  // Mapping permuted elements gives permuted results.
  lemma {:induction false} MapPermutes<T(!new), U>(f: T -> U, a: seq<T>, b: seq<T>)
    requires multiset(a) == multiset(b)
    ensures multiset(MapSeq(f, a)) == multiset(MapSeq(f, b))
  {
    if a == [] {
      assert |multiset(b)| == |b|;
    } else {
      var n := |a| - 1;
      assert a[n] in multiset(b);
      var i :| 0 <= i < |b| && b[i] == a[n];
      DropCounts(a, n);
      DropCounts(b, i);
      MapPermutes(f, Drop(a, n), Drop(b, i));
      MapDrop(f, a, n);
      MapDrop(f, b, i);
      DropCounts(MapSeq(f, a), n);
      DropCounts(MapSeq(f, b), i);
    }
  }

  // Unique keys stay unique under a map that keeps keys.
  lemma UniqueIdentified<T(!new)>(key: T -> Key, f: T -> T, s: seq<T>)
    requires UniqueKeys(key, s) && forall y :: key(f(y)) == key(y)
    ensures Identified(key, MapSeq(f, s))
  {
    var r := MapSeq(f, s);
    forall x, y | x in r && y in r && key(x) == key(y) ensures x == y {
      var i :| 0 <= i < |r| && r[i] == x;
      var j :| 0 <= j < |r| && r[j] == y;
      assert key(s[i]) == key(s[j]);
    }
  }

  // Sorted and rewritten, permuted elements come out the same.
  lemma PermutedAgree<T(!new)>(key: T -> Key, f: T -> T, a: seq<T>, c: seq<T>, b: seq<T>)
    requires (forall y :: key(f(y)) == key(y)) && UniqueKeys(key, a) && multiset(a) == multiset(c)
    requires |c| == |b| && forall i :: 0 <= i < |b| ==> f(c[i]) == f(b[i])
    ensures MapSeq(f, SortBy(key, a)) == MapSeq(f, SortBy(key, b))
  {
    MapSort(key, f, a);
    MapSort(key, f, b);
    MapPermutes(f, a, c);
    assert MapSeq(f, c) == MapSeq(f, b);
    UniqueIdentified(key, f, a);
    SortIgnoresOrder(key, MapSeq(f, a), MapSeq(f, b));
  }

  lemma SamePartsAgree(a: seq<Part>, b: seq<Part>)
    requires SameParts(a, b)
    ensures MapSeq(CanonicalPart, SortBy(PartKey, a)) == MapSeq(CanonicalPart, SortBy(PartKey, b))
  {
    var c: seq<Part> :| multiset(a) == multiset(c) && Pointwise(SamePart, c, b);
    forall i | 0 <= i < |b| ensures CanonicalPart(c[i]) == CanonicalPart(b[i]) { SamePartAgrees(c[i], b[i]); }
    PermutedAgree(PartKey, CanonicalPart, a, c, b);
  }

  lemma SameItemAgrees(e: Evidence, f: Evidence)
    requires SameItem(e, f)
    ensures CanonicalEvidence(e) == CanonicalEvidence(f)
  {
    SamePartAgrees(e.part, f.part);
    SamePartsAgree(e.records, f.records);
  }

  lemma SameEvidenceAgree(a: seq<Evidence>, b: seq<Evidence>)
    requires SameEvidence(a, b)
    ensures MapSeq(CanonicalEvidence, SortBy(EvidenceKey, a)) == MapSeq(CanonicalEvidence, SortBy(EvidenceKey, b))
  {
    var c: seq<Evidence> :| multiset(a) == multiset(c) && PointwiseItems(c, b);
    forall i | 0 <= i < |b| ensures CanonicalEvidence(c[i]) == CanonicalEvidence(b[i]) { SameItemAgrees(c[i], b[i]); }
    PermutedAgree(EvidenceKey, CanonicalEvidence, a, c, b);
  }

  lemma SameTimes(a: map<string, Stamp>, b: map<string, Stamp>)
    requires a.Keys == b.Keys && forall k :: k in a ==> a[k].instant == b[k].instant
    ensures (map k | k in a :: Utc(a[k])) == (map k | k in b :: Utc(b[k]))
  {
  }

  // A rearranged report with another ID has the same canonical form.
  lemma RearrangedCanonical(r: Report, s: Report)
    requires Rearranged(r, s)
    ensures CanonicalReport(r) == CanonicalReport(s).(id := r.id, version := r.version, provenance := r.provenance)
  {
    SamePartsAgree(r.observations, s.observations);
    SameEvidenceAgree(r.evidence, s.evidence);
    SamePartsAgree(r.findings, s.findings);
    SamePartsAgree(r.coverage, s.coverage);
    StringsAgree(r.warnings, s.warnings);
    SameTimes(r.times, s.times);
  }

  // The report ID never shows, and under version 1 neither does the provenance.
  lemma ContentHides(r: Report, s: Report, format: Format)
    requires Version(r) == Version(s) && (Version(r) == "1" || r.provenance == s.provenance)
    requires CanonicalReport(r) == CanonicalReport(s).(id := r.id, version := r.version, provenance := r.provenance)
    requires "provenance" !in r.rest && "provenance" !in r.times
    ensures Content(r, format) == Content(s, format)
  {
    var a, b := CanonicalReport(r).(version := Version(r)), CanonicalReport(s).(version := Version(s));
    assert a == b.(id := a.id, provenance := a.provenance);
    DocumentHides(a, b, format);
  }

  lemma DocumentHides(a: Report, b: Report, format: Format)
    requires a == b.(id := a.id, provenance := a.provenance) && "provenance" !in a.rest && "provenance" !in a.times
    ensures a.provenance == b.provenance ==> Document(a, format) - {"report_id"} == Document(b, format) - {"report_id"}
    ensures Document(a, format) - {"report_id"} - {"provenance"} == Document(b, format) - {"report_id"} - {"provenance"}
  {
    var m, c := a.rest + Times(a.times, format), Collections(a, format);
    var p, q := ProvenanceJson(a.provenance), ProvenanceJson(b.provenance);
    var j := Header(b);
    ForgetId(m + p, a, b, c);
    ForgetProvenance(m, p, q, j, c);
    Unorder(m + p + j + c);
    Unorder(m + q + j + c);
  }

  lemma ForgetId(m: map<string, Json>, a: Report, b: Report, c: map<string, Json>)
    requires a.version == b.version
    ensures (m + Header(a) + c) - {"report_id"} == (m + Header(b) + c) - {"report_id"}
  {
  }

  lemma ForgetProvenance(m: map<string, Json>, p: map<string, Json>, q: map<string, Json>, j: map<string, Json>, c: map<string, Json>)
    requires p.Keys <= {"provenance"} && q.Keys <= {"provenance"}
    ensures (m + p + j + c) - {"provenance"} == (m + q + j + c) - {"provenance"}
  {
  }

  lemma Unorder(m: map<string, Json>)
    ensures m - {"report_id"} - {"provenance"} == m - {"provenance"} - {"report_id"}
  {
  }

  // Content text does not depend on the order of observations, evidence, findings, coverage
  // entries or warnings, of the ID lists and records inside them, on time zones or on the
  // report's own ID.
  lemma ContentIgnoresOrder(r: Report, s: Report, format: Format)
    requires Rearranged(r, s) && "provenance" !in r.rest && "provenance" !in r.times
    requires Decoded(Content(r, format)) && Decoded(Content(s, format))
    ensures ContentText(r, format) == ContentText(s, format)
  {
    RearrangedCanonical(r, s);
    ContentHides(r, s, format);
  }

  // Reports have one content text exactly when their projections are equal up to the value
  // of numbers.
  lemma ContentDecides(r: Report, s: Report, format: Format)
    requires Decoded(Content(r, format)) && Decoded(Content(s, format)) && Supported(r) && Supported(s)
    ensures ContentText(r, format) == ContentText(s, format) <==> Same(Content(r, format), Content(s, format))
  {
    CanonicalTextDecides(Content(r, format), Content(s, format));
  }
}
