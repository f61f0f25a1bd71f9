// The converse of order independence: a content text gives away everything but order, zones,
// the report's own ID and, under version 1, its provenance.
module ContentReveals {
  import opened Options
  import opened Lex
  import opened CanonicalJson
  import opened ContentIdentity

  // Different instants print differently in UTC.
  ghost predicate Distinguishes(format: Format) { forall a, b :: format(Stamp(a, 0)) == format(Stamp(b, 0)) ==> a == b }

  // The members of a part that are sorted lists and times, by name; the others have other names.
  predicate Typed(p: Part, lists: set<string>, times: set<string>) {
    lists !! times && p.lists.Keys <= lists && p.times.Keys <= times && p.rest.Keys !! lists && p.rest.Keys !! times
  }

  ghost predicate AllTyped(ps: seq<Part>, lists: set<string>, times: set<string>) { forall p :: p in ps ==> Typed(p, lists, times) }

  // Equal up to the order of lists, zones and the value of numbers.
  predicate SameMembersOf(a: map<string, Json>, b: map<string, Json>) { a.Keys == b.Keys && forall k :: k in a ==> Same(a[k], b[k]) }
  predicate SameLists(a: map<string, seq<string>>, b: map<string, seq<string>>) {
    a.Keys == b.Keys && forall k :: k in a ==> multiset(a[k]) == multiset(b[k])
  }
  predicate SameInstants(a: map<string, Stamp>, b: map<string, Stamp>) { a.Keys == b.Keys && forall k :: k in a ==> a[k].instant == b[k].instant }

  predicate Alike(p: Part, q: Part) { SameMembersOf(p.rest, q.rest) && SameLists(p.lists, q.lists) && SameInstants(p.times, q.times) }

  // In some order each, the two list alike parts.
  ghost predicate AlikeInOrder(a: seq<Part>, b: seq<Part>) { exists c, d :: multiset(a) == multiset(c) && multiset(b) == multiset(d) && Pointwise(Alike, c, d) }

  ghost predicate AlikeEvidence(e: Evidence, f: Evidence) { Alike(e.part, f.part) && AlikeInOrder(e.records, f.records) }

  ghost predicate AlikeItems(c: seq<Evidence>, d: seq<Evidence>) { |c| == |d| && forall i :: 0 <= i < |c| ==> AlikeEvidence(c[i], d[i]) }

  ghost predicate EvidenceInOrder(a: seq<Evidence>, b: seq<Evidence>) {
    exists c, d :: multiset(a) == multiset(c) && multiset(b) == multiset(d) && AlikeItems(c, d)
  }

  // ---------------------------------------------------------------------------- parts

  lemma StringsReveal(a: seq<string>, b: seq<string>)
    requires Same(Strings(SortStrings(a)), Strings(SortStrings(b)))
    ensures multiset(a) == multiset(b)
  {
    var x, y := SortStrings(a), SortStrings(b);
    forall i | 0 <= i < |x| ensures x[i] == y[i] { assert Same(Strings(x).items[i], Strings(y).items[i]); }
    assert x == y;
    SortPermutes(StringKey, a);
    SortPermutes(StringKey, b);
  }

  // Where a field of a part comes from.
  lemma PartFieldAt(p: Part, format: Format, lists: set<string>, times: set<string>, k: string)
    requires Typed(p, lists, times)
    ensures var f := PartFields(CanonicalPart(p), format);
            && (k in f <==> k in p.rest || k in p.times || k in p.lists)
            && (k in p.rest ==> f[k] == p.rest[k])
            && (k in p.times ==> f[k] == Str(format(Utc(p.times[k]))))
            && (k in p.lists ==> f[k] == Strings(SortStrings(p.lists[k])))
  {
  }

  // Two objects agree on a field, and two parts on a member.
  predicate Agrees(f: map<string, Json>, g: map<string, Json>, k: string) { (k in f <==> k in g) && (k in f ==> Same(f[k], g[k])) }

  predicate MemberAlike(p: Part, q: Part, k: string) {
    && Agrees(p.rest, q.rest, k)
    && (k in p.times <==> k in q.times) && (k in p.times ==> p.times[k].instant == q.times[k].instant)
    && (k in p.lists <==> k in q.lists) && (k in p.lists ==> multiset(p.lists[k]) == multiset(q.lists[k]))
  }

  lemma FieldReveals(p: Part, q: Part, format: Format, lists: set<string>, times: set<string>, k: string)
    requires Typed(p, lists, times) && Typed(q, lists, times) && Distinguishes(format)
    requires Agrees(PartFields(CanonicalPart(p), format), PartFields(CanonicalPart(q), format), k)
    ensures MemberAlike(p, q, k)
  {
    PartFieldAt(p, format, lists, times, k);
    PartFieldAt(q, format, lists, times, k);
    if k in p.lists {
      StringsReveal(p.lists[k], q.lists[k]);
    }
  }

  lemma MembersAlike(p: Part, q: Part)
    requires forall k :: MemberAlike(p, q, k)
    ensures Alike(p, q)
  {
    assert SameMembersOf(p.rest, q.rest) by {
      forall k ensures (k in p.rest <==> k in q.rest) && (k in p.rest ==> Same(p.rest[k], q.rest[k])) { assert MemberAlike(p, q, k); }
    }
    assert SameInstants(p.times, q.times) by {
      forall k ensures (k in p.times <==> k in q.times) && (k in p.times ==> p.times[k].instant == q.times[k].instant) { assert MemberAlike(p, q, k); }
    }
    assert SameLists(p.lists, q.lists) by {
      forall k ensures (k in p.lists <==> k in q.lists) && (k in p.lists ==> multiset(p.lists[k]) == multiset(q.lists[k])) { assert MemberAlike(p, q, k); }
    }
  }

  lemma FieldsReveal(p: Part, q: Part, format: Format, lists: set<string>, times: set<string>, except: set<string>)
    requires Typed(p, lists, times) && Typed(q, lists, times) && Distinguishes(format)
    requires forall k :: k in except ==> k !in p.rest && k !in q.rest && k !in lists && k !in times
    requires forall k :: k !in except ==> Agrees(PartFields(CanonicalPart(p), format), PartFields(CanonicalPart(q), format), k)
    ensures Alike(p, q)
  {
    forall k ensures MemberAlike(p, q, k) {
      if k !in except {
        FieldReveals(p, q, format, lists, times, k);
      }
    }
    MembersAlike(p, q);
  }

  lemma ObjectsAgree(f: map<string, Json>, g: map<string, Json>, k: string)
    requires Same(Obj(f), Obj(g))
    ensures Agrees(f, g, k)
  {
    assert k in f.Keys <==> k in g.Keys;
  }

  lemma PartReveals(p: Part, q: Part, format: Format, lists: set<string>, times: set<string>)
    requires Typed(p, lists, times) && Typed(q, lists, times) && Distinguishes(format)
    requires Same(PartJson(CanonicalPart(p), format), PartJson(CanonicalPart(q), format))
    ensures Alike(p, q)
  {
    var f, g := PartFields(CanonicalPart(p), format), PartFields(CanonicalPart(q), format);
    forall k ensures Agrees(f, g, k) { ObjectsAgree(f, g, k); }
    FieldsReveal(p, q, format, lists, times, {});
  }

  lemma PartsReveal(a: seq<Part>, b: seq<Part>, format: Format, lists: set<string>, times: set<string>)
    requires AllTyped(a, lists, times) && AllTyped(b, lists, times) && Distinguishes(format)
    requires Same(Parts(MapSeq(CanonicalPart, SortBy(PartKey, a)), format), Parts(MapSeq(CanonicalPart, SortBy(PartKey, b)), format))
    ensures AlikeInOrder(a, b)
  {
    var c, d := SortBy(PartKey, a), SortBy(PartKey, b);
    SortPermutes(PartKey, a);
    SortPermutes(PartKey, b);
    ContentIdentity.SameMembers(a, c);
    ContentIdentity.SameMembers(b, d);
    var x, y := Parts(MapSeq(CanonicalPart, c), format), Parts(MapSeq(CanonicalPart, d), format);
    forall i | 0 <= i < |c| ensures Alike(c[i], d[i]) {
      assert Same(x.items[i], y.items[i]);
      PartReveals(c[i], d[i], format, lists, times);
    }
    assert Pointwise(Alike, c, d);
  }

  // ------------------------------------------------------------------------- evidence

  ghost predicate ItemTyped(e: Evidence, lists: set<string>, times: set<string>) {
    Typed(e.part, lists, times) && AllTyped(e.records, lists, times)
    && "dataset_records" !in e.part.rest && "dataset_records" !in lists && "dataset_records" !in times
  }

  lemma WithRecords(a: map<string, Json>, x: Json, b: map<string, Json>, y: Json)
    requires Same(Obj(a["dataset_records" := x]), Obj(b["dataset_records" := y]))
    ensures Same(x, y) && forall k :: k !in {"dataset_records"} ==> Agrees(a, b, k)
  {
    var f, g := a["dataset_records" := x], b["dataset_records" := y];
    ObjectsAgree(f, g, "dataset_records");
    forall k | k !in {"dataset_records"} ensures Agrees(a, b, k) { ObjectsAgree(f, g, k); }
  }

  lemma ItemReveals(e: Evidence, f: Evidence, format: Format, lists: set<string>, times: set<string>)
    requires ItemTyped(e, lists, times) && ItemTyped(f, lists, times) && Distinguishes(format)
    requires Same(EvidenceJson(CanonicalEvidence(e), format), EvidenceJson(CanonicalEvidence(f), format))
    ensures AlikeEvidence(e, f)
  {
    var a, b := PartFields(CanonicalPart(e.part), format), PartFields(CanonicalPart(f.part), format);
    var x, y := Parts(CanonicalEvidence(e).records, format), Parts(CanonicalEvidence(f).records, format);
    WithRecords(a, x, b, y);
    PartsReveal(e.records, f.records, format, lists, times);
    FieldsReveal(e.part, f.part, format, lists, times, {"dataset_records"});
  }

  lemma EvidenceReveals(a: seq<Evidence>, b: seq<Evidence>, format: Format, lists: set<string>, times: set<string>)
    requires (forall e :: e in a ==> ItemTyped(e, lists, times)) && (forall e :: e in b ==> ItemTyped(e, lists, times)) && Distinguishes(format)
    requires Same(EvidenceArray(MapSeq(CanonicalEvidence, SortBy(EvidenceKey, a)), format), EvidenceArray(MapSeq(CanonicalEvidence, SortBy(EvidenceKey, b)), format))
    ensures EvidenceInOrder(a, b)
  {
    var c, d := SortBy(EvidenceKey, a), SortBy(EvidenceKey, b);
    SortPermutes(EvidenceKey, a);
    SortPermutes(EvidenceKey, b);
    ContentIdentity.SameMembers(a, c);
    ContentIdentity.SameMembers(b, d);
    var x, y := EvidenceArray(MapSeq(CanonicalEvidence, c), format), EvidenceArray(MapSeq(CanonicalEvidence, d), format);
    forall i | 0 <= i < |c| ensures AlikeEvidence(c[i], d[i]) {
      assert Same(x.items[i], y.items[i]);
      ItemReveals(c[i], d[i], format, lists, times);
    }
    assert AlikeItems(c, d);
  }

  function EvidenceArray(es: seq<Evidence>, format: Format): Json { Arr(MapSeq((e: Evidence) => EvidenceJson(e, format), es)) }

  // -------------------------------------------------------------------------- reports

  const RESERVED := {"report_id", "content_id_version", "provenance", "observations", "evidence", "findings", "coverage", "warnings"}

  ghost predicate ReportTyped(r: Report, lists: set<string>, times: set<string>) {
    && lists !! times && times !! RESERVED && r.times.Keys <= times && r.rest.Keys !! times && r.rest.Keys !! RESERVED
    && AllTyped(r.observations, lists, times) && AllTyped(r.findings, lists, times) && AllTyped(r.coverage, lists, times)
    && forall e :: e in r.evidence ==> ItemTyped(e, lists, times)
  }

  // Where a field of the content comes from.
  lemma MergedAt(a: map<string, Json>, b: map<string, Json>, p: map<string, Json>, h: map<string, Json>, c: map<string, Json>, k: string)
    ensures var m := a + b + p + h + c;
            && (k in m <==> k in a || k in b || k in p || k in h || k in c)
            && (k in c ==> m[k] == c[k])
            && (k in h && k !in c ==> m[k] == h[k])
            && (k in p && k !in h && k !in c ==> m[k] == p[k])
            && (k in b && k !in p && k !in h && k !in c ==> m[k] == b[k])
            && (k in a && k !in b && k !in p && k !in h && k !in c ==> m[k] == a[k])
  {
  }

  lemma ContentAt(r: Report, format: Format, k: string)
    requires k != "report_id" && (Version(r) == "1" ==> k != "provenance")
    ensures var d := Document(CanonicalReport(r).(version := Version(r)), format);
            (k in Content(r, format).fields <==> k in d) && (k in d ==> Content(r, format).fields[k] == d[k])
  {
  }

  function Canonical(r: Report): Report { CanonicalReport(r).(version := Version(r)) }

  lemma FieldAt(r: Report, format: Format, k: string)
    requires k != "report_id" && (Version(r) == "1" ==> k != "provenance")
    ensures var f := Content(r, format).fields; var c := Canonical(r); var t := Times(c.times, format); var p := ProvenanceJson(r.provenance);
            && (k in f <==> k in r.rest || k in t || k in p || k in Header(c) || k in Collections(c, format))
            && (k in Collections(c, format) ==> f[k] == Collections(c, format)[k])
            && (k in Header(c) && k !in Collections(c, format) ==> f[k] == Header(c)[k])
            && (k in p && k !in Header(c) && k !in Collections(c, format) ==> f[k] == p[k])
            && (k in t && k !in p && k !in Header(c) && k !in Collections(c, format) ==> f[k] == t[k])
            && (k in r.rest && k !in t && k !in p && k !in Header(c) && k !in Collections(c, format) ==> f[k] == r.rest[k])
  {
    var c := Canonical(r);
    ContentAt(r, format, k);
    MergedAt(r.rest, Times(c.times, format), ProvenanceJson(r.provenance), Header(c), Collections(c, format), k);
  }

  const COLLECTIONS := {"observations", "evidence", "findings", "coverage", "warnings"}

  lemma CollectionAgrees(r: Report, s: Report, format: Format, k: string)
    requires k in COLLECTIONS && Same(Content(r, format), Content(s, format))
    ensures var a, b := Collections(Canonical(r), format), Collections(Canonical(s), format); k in a && k in b && Same(a[k], b[k])
  {
    FieldAt(r, format, k);
    FieldAt(s, format, k);
    ObjectsAgree(Content(r, format).fields, Content(s, format).fields, k);
  }

  lemma VersionField(r: Report, format: Format)
    ensures var f := Content(r, format).fields; "content_id_version" in f && f["content_id_version"] == Str(Version(r))
  {
    FieldAt(r, format, "content_id_version");
    VersionIsHeader(Canonical(r), format);
  }

  lemma VersionIsHeader(c: Report, format: Format)
    ensures "content_id_version" !in Collections(c, format) && "content_id_version" in Header(c) && Header(c)["content_id_version"] == Str(c.version)
  {
    assert |"content_id_version"| == 18 && |"observations"| == 12 && |"report_id"| == 9;
    assert |"evidence"| == 8 && |"findings"| == 8 && |"coverage"| == 8 && |"warnings"| == 8;
  }

  lemma CollectionsHold(c: Report, format: Format)
    ensures var m := Collections(c, format);
            && m["observations"] == Parts(c.observations, format) && m["findings"] == Parts(c.findings, format)
            && m["coverage"] == Parts(c.coverage, format)
  {
    assert "observations"[0] == 'o' && "evidence"[0] == 'e' && "findings"[0] == 'f' && "coverage"[0] == 'c' && "warnings"[0] == 'w';
  }

  lemma VersionAgrees(r: Report, s: Report, format: Format)
    requires Same(Content(r, format), Content(s, format))
    ensures Version(r) == Version(s)
  {
    VersionField(r, format);
    VersionField(s, format);
    ObjectsAgree(Content(r, format).fields, Content(s, format).fields, "content_id_version");
  }

  // A collection of parts in the content.
  lemma PartsFieldReveals(r: Report, s: Report, format: Format, lists: set<string>, times: set<string>, k: string, a: seq<Part>, b: seq<Part>)
    requires AllTyped(a, lists, times) && AllTyped(b, lists, times) && Distinguishes(format)
    requires k in COLLECTIONS && Same(Content(r, format), Content(s, format))
    requires Collections(Canonical(r), format)[k] == Parts(MapSeq(CanonicalPart, SortBy(PartKey, a)), format)
    requires Collections(Canonical(s), format)[k] == Parts(MapSeq(CanonicalPart, SortBy(PartKey, b)), format)
    ensures AlikeInOrder(a, b)
  {
    CollectionAgrees(r, s, format, k);
    PartsReveal(a, b, format, lists, times);
  }

  lemma OtherFields(r: Report, format: Format, times: set<string>, k: string)
    requires r.times.Keys <= times && r.rest.Keys !! times && k !in RESERVED
    ensures var f := Content(r, format).fields;
            && (k in f <==> k in r.rest || k in r.times)
            && (k in r.rest ==> f[k] == r.rest[k])
            && (k in r.times ==> f[k] == Str(format(Utc(r.times[k]))))
  {
    FieldAt(r, format, k);
  }

  lemma ProvenanceField(r: Report, format: Format)
    requires "provenance" !in r.rest && "provenance" !in r.times && Version(r) != "1"
    ensures var f := Content(r, format).fields; ("provenance" in f <==> r.provenance.Some?) && (r.provenance.Some? ==> f["provenance"] == r.provenance.value)
  {
    FieldAt(r, format, "provenance");
  }

  ghost predicate SameProvenance(a: Option<Json>, b: Option<Json>) { (a.Some? <==> b.Some?) && (a.Some? ==> Same(a.value, b.value)) }

  // The version a report is taken to have: 2 when it states none.
  function Stated(version: string): string { if version == "" then "2" else version }

  // A text exists exactly for the versions 1 and 2.
  lemma TextExists(r: Report, format: Format)
    requires Decoded(Content(r, format))
    ensures ContentText(r, format).Some? <==> r.version in {"", "1", "2"}
  {
  }

  // What reports with one content text share.
  ghost predicate SameContent(r: Report, s: Report) {
    && Stated(r.version) == Stated(s.version) && multiset(r.warnings) == multiset(s.warnings)
    && SameMembersOf(r.rest, s.rest) && SameInstants(r.times, s.times)
    && AlikeInOrder(r.observations, s.observations) && AlikeInOrder(r.findings, s.findings) && AlikeInOrder(r.coverage, s.coverage)
    && EvidenceInOrder(r.evidence, s.evidence)
    && (r.version != "1" ==> SameProvenance(r.provenance, s.provenance))
  }

  lemma OthersReveal(r: Report, s: Report, format: Format, times: set<string>)
    requires times !! RESERVED && r.times.Keys <= times && r.rest.Keys !! times && r.rest.Keys !! RESERVED
    requires s.times.Keys <= times && s.rest.Keys !! times && s.rest.Keys !! RESERVED
    requires Distinguishes(format) && Same(Content(r, format), Content(s, format))
    ensures SameMembersOf(r.rest, s.rest) && SameInstants(r.times, s.times)
  {
    forall k | k !in RESERVED
      ensures (k in r.rest <==> k in s.rest) && (k in r.times <==> k in s.times)
      ensures k in r.rest ==> Same(r.rest[k], s.rest[k])
      ensures k in r.times ==> r.times[k].instant == s.times[k].instant
    {
      OtherFields(r, format, times, k);
      OtherFields(s, format, times, k);
      ObjectsAgree(Content(r, format).fields, Content(s, format).fields, k);
    }
  }

  lemma CollectionsReveal(r: Report, s: Report, format: Format, lists: set<string>, times: set<string>)
    requires ReportTyped(r, lists, times) && ReportTyped(s, lists, times) && Distinguishes(format)
    requires Same(Content(r, format), Content(s, format))
    ensures Version(r) == Version(s) && multiset(r.warnings) == multiset(s.warnings)
    ensures AlikeInOrder(r.observations, s.observations) && AlikeInOrder(r.findings, s.findings) && AlikeInOrder(r.coverage, s.coverage)
    ensures EvidenceInOrder(r.evidence, s.evidence)
  {
    VersionAgrees(r, s, format);
    CollectionsHold(Canonical(r), format);
    CollectionsHold(Canonical(s), format);
    PartsFieldReveals(r, s, format, lists, times, "observations", r.observations, s.observations);
    PartsFieldReveals(r, s, format, lists, times, "findings", r.findings, s.findings);
    PartsFieldReveals(r, s, format, lists, times, "coverage", r.coverage, s.coverage);
    WarningsReveal(r, s, format);
    EvidenceFieldReveals(r, s, format, lists, times);
  }

  lemma WarningsReveal(r: Report, s: Report, format: Format)
    requires Same(Content(r, format), Content(s, format))
    ensures multiset(r.warnings) == multiset(s.warnings)
  {
    CollectionAgrees(r, s, format, "warnings");
    StringsReveal(r.warnings, s.warnings);
  }

  lemma EvidenceFieldReveals(r: Report, s: Report, format: Format, lists: set<string>, times: set<string>)
    requires (forall e :: e in r.evidence ==> ItemTyped(e, lists, times)) && (forall e :: e in s.evidence ==> ItemTyped(e, lists, times))
    requires Distinguishes(format) && Same(Content(r, format), Content(s, format))
    ensures EvidenceInOrder(r.evidence, s.evidence)
  {
    CollectionAgrees(r, s, format, "evidence");
    EvidenceReveals(r.evidence, s.evidence, format, lists, times);
  }

  // Reports with one content text have the same version, warnings, times and other members
  // and, each in some order, alike observations, evidence with its records, findings and
  // coverage entries, and under version 2 the same provenance.
  lemma ContentReveals(r: Report, s: Report, format: Format, lists: set<string>, times: set<string>)
    requires ReportTyped(r, lists, times) && ReportTyped(s, lists, times) && Distinguishes(format)
    requires Decoded(Content(r, format)) && Decoded(Content(s, format)) && Supported(r) && Supported(s)
    requires ContentText(r, format) == ContentText(s, format)
    ensures SameContent(r, s)
  {
    ContentDecides(r, s, format);
    CollectionsReveal(r, s, format, lists, times);
    OthersReveal(r, s, format, times);
    if Version(r) != "1" {
      ProvenanceField(r, format);
      ProvenanceField(s, format);
      ObjectsAgree(Content(r, format).fields, Content(s, format).fields, "provenance");
    }
  }
}
