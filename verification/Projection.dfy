// Inventory projection: reports arrive in any order and with repeats, and update the
// "latest" registers of one asset context.
module Projection {
  import opened Options
  import opened Lex

  // Times are clock readings; zero is the unset time.
  type Time = nat

  // A register holds the value of the greatest (time, report ID) position seen.
  datatype Entry<V> = Entry(at: Time, report: string, value: V)

  datatype Observation =
    | HttpResponse(subject: string, externalRedirect: bool, observedAt: Time, statusCode: int)
    | DnsQuery(subject: string, dependencyScope: bool, observedAt: Time, outcome: string, owner: string, rrtype: string)
    | OtherObservation

  // What DescribeReport extracts from a report for its hostname.
  datatype Facts = Facts(attemptedAt: Time, observedAt: Time, positive: bool, coverage: seq<string>, format: string)

  datatype Report = Report(id: string, original: string, fullMode: bool, capabilities: seq<string>, classifiedAt: Time,
                           observations: seq<Observation>, facts: Facts)

  datatype Question = Question(owner: string, rrtype: string)
  datatype DnsRow = DnsRow(latest: Entry<string>, positive: Option<Entry<()>>)
  datatype HttpAttempt = HttpAttempt(at: Time, status: Option<int>)
  datatype Described = Described(at: Time, classifiedAt: Time, report: string, format: string)

  datatype Row = Row(latest: Option<Entry<seq<string>>>, latestHttp: Option<HttpAttempt>, lastHttp: Option<Entry<int>>,
                     positive: Option<Entry<()>>, description: Option<Described>, dns: map<Question, DnsRow>)

  const EMPTY := Row(None, None, None, None, None, map[])

  // ---------------------------------------------------------------- registers

  predicate LaterPosition<V>(at: Time, report: string, old_: Option<Entry<V>>) {
    old_.None? || at > old_.value.at || (at == old_.value.at && Less(old_.value.report, report))
  }

  function Put<V>(r: Option<Entry<V>>, e: Entry<V>): Option<Entry<V>> {
    if LaterPosition(e.at, e.report, r) then Some(e) else r
  }

  function PutAll<V>(r: Option<Entry<V>>, es: seq<Entry<V>>): Option<Entry<V>> {
    if es == [] then r else Put(PutAll(r, es[..|es| - 1]), es[|es| - 1])
  }

  // ------------------------------------------------------- what a report feeds

  predicate Replay(r: Report) { r.original != "" }

  predicate IsResponse(o: Observation, hostname: string) {
    o.HttpResponse? && o.subject == hostname && !o.externalRedirect && 100 <= o.statusCode <= 599
  }

  predicate IsQuestion(o: Observation, hostname: string) {
    o.DnsQuery? && o.subject == hostname && !o.dependencyScope && o.observedAt != 0 && o.rrtype != "" && o.owner != ""
  }

  function AttemptedAt(f: Facts): Time { if f.attemptedAt == 0 then f.observedAt else f.attemptedAt }

  function LatestFeed(r: Report): seq<Entry<seq<string>>> {
    if !Replay(r) && AttemptedAt(r.facts) != 0 then [Entry(AttemptedAt(r.facts), r.id, r.facts.coverage)] else []
  }

  function PositiveFeed(r: Report): seq<Entry<()>> {
    if !Replay(r) && r.facts.positive && r.facts.observedAt != 0 then [Entry(r.facts.observedAt, r.id, ())] else []
  }

  function HttpEntries(id: string, hostname: string, observations: seq<Observation>): seq<Entry<int>> {
    if observations == [] then []
    else
      var o := observations[|observations| - 1];
      HttpEntries(id, hostname, observations[..|observations| - 1])
      + if IsResponse(o, hostname) then [Entry(o.observedAt, id, o.statusCode)] else []
  }

  function HttpFeed(hostname: string, r: Report): seq<Entry<int>> {
    if Replay(r) then [] else HttpEntries(r.id, hostname, r.observations)
  }

  predicate Answers(o: Observation, hostname: string, q: Question) {
    IsQuestion(o, hostname) && Question(o.owner, o.rrtype) == q
  }

  function DnsEntries(id: string, hostname: string, q: Question, observations: seq<Observation>): seq<Entry<string>> {
    if observations == [] then []
    else
      var o := observations[|observations| - 1];
      DnsEntries(id, hostname, q, observations[..|observations| - 1])
      + if Answers(o, hostname, q) then [Entry(o.observedAt, id, o.outcome)] else []
  }

  function DnsPositives(id: string, hostname: string, q: Question, observations: seq<Observation>): seq<Entry<()>> {
    if observations == [] then []
    else
      var o := observations[|observations| - 1];
      DnsPositives(id, hostname, q, observations[..|observations| - 1])
      + if Answers(o, hostname, q) && o.outcome == "answered" then [Entry(o.observedAt, id, ())] else []
  }

  function DnsFeed(hostname: string, q: Question, r: Report): seq<Entry<string>> {
    if Replay(r) then [] else DnsEntries(r.id, hostname, q, r.observations)
  }

  function DnsPositiveFeed(hostname: string, q: Question, r: Report): seq<Entry<()>> {
    if Replay(r) then [] else DnsPositives(r.id, hostname, q, r.observations)
  }

  // --------------------------------------------------------------- projection

  function LatestIn(dns: map<Question, DnsRow>, q: Question): Option<Entry<string>> {
    if q in dns then Some(dns[q].latest) else None
  }

  function PositiveIn(dns: map<Question, DnsRow>, q: Question): Option<Entry<()>> {
    if q in dns then dns[q].positive else None
  }

  // The upsert of one DNS observation.
  function UpsertDns(dns: map<Question, DnsRow>, id: string, hostname: string, o: Observation): map<Question, DnsRow> {
    if !IsQuestion(o, hostname) then dns
    else
      var q := Question(o.owner, o.rrtype);
      var seen := Entry(o.observedAt, id, o.outcome);
      var positive := if o.outcome == "answered" then Some(Entry(o.observedAt, id, ())) else None;
      if q !in dns then dns[q := DnsRow(seen, positive)]
      else
        var row := dns[q];
        dns[q := DnsRow(if LaterPosition(seen.at, seen.report, Some(row.latest)) then seen else row.latest,
                        if positive.Some? && LaterPosition(o.observedAt, id, row.positive) then positive else row.positive)]
  }

  function UpsertAll(dns: map<Question, DnsRow>, id: string, hostname: string, observations: seq<Observation>): map<Question, DnsRow> {
    if observations == [] then dns
    else UpsertDns(UpsertAll(dns, id, hostname, observations[..|observations| - 1]), id, hostname, observations[|observations| - 1])
  }

  predicate ReplacesDescription(row: Row, r: Report) { row.description.None? || Takes(row.description.value, r) }

  predicate Responded(observations: seq<Observation>, hostname: string) {
    exists i :: 0 <= i < |observations| && IsResponse(observations[i], hostname)
  }

  predicate HttpAttempted(r: Report, hostname: string) {
    r.fullMode || "http" in r.capabilities || Responded(r.observations, hostname)
  }

  // The register that depends on arrival order: it only moves when the report becomes latest.
  function LatestHttp(before: Option<HttpAttempt>, hostname: string, observations: seq<Observation>): Option<HttpAttempt> {
    if observations == [] then before
    else
      var o := observations[|observations| - 1];
      var r := LatestHttp(before, hostname, observations[..|observations| - 1]);
      if IsResponse(o, hostname) && (r.None? || o.observedAt > r.value.at) then Some(HttpAttempt(o.observedAt, Some(o.statusCode))) else r
  }

  function NextLatestHttp(row: Row, hostname: string, r: Report): Option<HttpAttempt> {
    if Replay(r) || AttemptedAt(r.facts) == 0 || !LaterPosition(AttemptedAt(r.facts), r.id, row.latest) then row.latestHttp
    else if Responded(r.observations, hostname) then LatestHttp(row.latestHttp, hostname, r.observations)
    else if HttpAttempted(r, hostname) then Some(HttpAttempt(AttemptedAt(r.facts), None))
    else row.latestHttp
  }

  // updateInventoryContext
  function Project(row: Row, hostname: string, r: Report): Row {
    Row(PutAll(row.latest, LatestFeed(r)),
        NextLatestHttp(row, hostname, r),
        PutAll(row.lastHttp, HttpFeed(hostname, r)),
        PutAll(row.positive, PositiveFeed(r)),
        if ReplacesDescription(row, r) then Some(Described(r.facts.observedAt, r.classifiedAt, r.id, r.facts.format)) else row.description,
        if Replay(r) then row.dns else UpsertAll(row.dns, r.id, hostname, r.observations))
  }

  function ProjectAll(row: Row, hostname: string, rs: seq<Report>): Row {
    if rs == [] then row else Project(ProjectAll(row, hostname, rs[..|rs| - 1]), hostname, rs[|rs| - 1])
  }

  // -------------------------------------------------------------- convergence

  type Feed<!V> = Report -> seq<Entry<V>>

  // The register that only one feed reaches.
  function Reduce<V>(feed: Feed<V>, rs: seq<Report>): Option<Entry<V>> {
    if rs == [] then None else PutAll(Reduce(feed, rs[..|rs| - 1]), feed(rs[|rs| - 1]))
  }

  predicate Before<V>(a: Entry<V>, b: Entry<V>) { a.at < b.at || (a.at == b.at && Less(a.report, b.report)) }

  // Entries of a report carry its ID, and an ID names one report.
  ghost predicate Signed<V>(feed: Feed<V>) { forall r, i :: 0 <= i < |feed(r)| ==> feed(r)[i].report == r.id }

  predicate UniqueIds(rs: seq<Report>) { forall i, j :: 0 <= i < |rs| && 0 <= j < |rs| && rs[i].id == rs[j].id ==> rs[i] == rs[j] }

  // The entry a report contributes: its own latest, earliest listed among equals.
  function Best<V>(feed: Feed<V>, r: Report): Option<Entry<V>> { PutAll(None, feed(r)) }

  // e is the lexicographic maximum by (time, report ID) of what the reports contribute.
  ghost predicate IsMaximum<V>(feed: Feed<V>, rs: seq<Report>, e: Option<Entry<V>>) {
    && (e.None? ==> forall r :: r in rs ==> Best(feed, r).None?)
    && (e.Some? ==> (exists r :: r in rs && Best(feed, r) == e)
                    && forall r :: r in rs && Best(feed, r).Some? ==> Best(feed, r) == e || Before(Best(feed, r).value, e.value))
  }

  lemma {:induction false} PutAllOnce<V>(r: Option<Entry<V>>, es: seq<Entry<V>>)
    ensures PutAll(r, es) == if PutAll(None, es).None? then r else Put(r, PutAll(None, es).value)
  {
    if es != [] {
      PutAllOnce(r, es[..|es| - 1]);
      var best := PutAll(None, es[..|es| - 1]);
      if best.Some? {
        PutTwice(r, best.value, es[|es| - 1]);
      }
    }
  }

  lemma PutTwice<V>(r: Option<Entry<V>>, a: Entry<V>, b: Entry<V>)
    ensures Put(Put(r, a), b) == Put(r, Put(Some(a), b).value)
  {
    if r.Some? {
      BeforeOrder(r.value, a, b);
      BeforeOrder(b, a, r.value);
      BeforeOrder(r.value, b, a);
    }
  }

  // Positions are totally ordered.
  lemma BeforeOrder<V>(a: Entry<V>, b: Entry<V>, c: Entry<V>)
    ensures Before(a, b) && Before(b, c) ==> Before(a, c)
    ensures !(Before(a, b) && Before(b, a))
    ensures Before(a, b) || Before(b, a) || (a.at == b.at && a.report == b.report)
  {
    if Less(a.report, b.report) && Less(b.report, c.report) {
      Transitive(a.report, b.report, c.report);
    }
    if Less(a.report, b.report) {
      Asymmetric(a.report, b.report);
    }
    Total(a.report, b.report);
  }

  lemma {:induction false} PutAllSigned<V>(es: seq<Entry<V>>, id: string)
    requires forall i :: 0 <= i < |es| ==> es[i].report == id
    ensures PutAll(None, es).Some? ==> PutAll(None, es).value.report == id
  {
    if es != [] {
      PutAllSigned(es[..|es| - 1], id);
    }
  }

  // Folding reports in arrival order yields the maximum of what they contribute.
  lemma {:induction false} ReduceIsMaximum<V>(feed: Feed<V>, rs: seq<Report>)
    requires Signed(feed) && UniqueIds(rs)
    ensures IsMaximum(feed, rs, Reduce(feed, rs))
  {
    if rs != [] {
      var front, r := rs[..|rs| - 1], rs[|rs| - 1];
      assert rs == front + [r];
      ReduceIsMaximum(feed, front);
      PutAllOnce(Reduce(feed, front), feed(r));
      ExtendMaximum(feed, front, r, Reduce(feed, front));
    }
  }

  lemma ExtendMaximum<V>(feed: Feed<V>, front: seq<Report>, r: Report, e: Option<Entry<V>>)
    requires Signed(feed) && UniqueIds(front + [r]) && IsMaximum(feed, front, e)
    ensures IsMaximum(feed, front + [r], if Best(feed, r).None? then e else Put(e, Best(feed, r).value))
  {
    var rs := front + [r];
    var best := Best(feed, r);
    var n := if best.None? then e else Put(e, best.value);
    PutAllSigned(feed(r), r.id);
    assert r in rs && forall q :: q in front ==> q in rs;
    if n.Some? {
      forall q | q in rs && Best(feed, q).Some? ensures Best(feed, q) == n || Before(Best(feed, q).value, n.value) {
        PutAllSigned(feed(q), q.id);
        if e.Some? && best.Some? {
          BeforeOrder(Best(feed, q).value, e.value, best.value);
          BeforeOrder(best.value, e.value, e.value);
          var owner :| owner in front && Best(feed, owner) == e;
          PutAllSigned(feed(owner), owner.id);
          SameId(rs, owner, r);
          assert q == r || q in front;
        }
      }
    }
  }

  lemma SameId(rs: seq<Report>, a: Report, b: Report)
    requires UniqueIds(rs) && a in rs && b in rs
    ensures a.id == b.id ==> a == b
  {
  }

  // A set of contributions has one maximum.
  lemma MaximumIsUnique<V>(feed: Feed<V>, xs: seq<Report>, ys: seq<Report>, a: Option<Entry<V>>, b: Option<Entry<V>>)
    requires IsMaximum(feed, xs, a) && IsMaximum(feed, ys, b)
    requires forall r :: r in xs <==> r in ys
    ensures a == b
  {
    if a.Some? {
      var p :| p in xs && Best(feed, p) == a;
      assert p in ys;
      if b.Some? {
        var q :| q in ys && Best(feed, q) == b;
        assert q in xs;
        BeforeOrder(a.value, b.value, a.value);
      }
    }
    if b.Some? {
      var q :| q in ys && Best(feed, q) == b;
      assert q in xs;
    }
  }

  // Order and repetition of reports do not matter to a register.
  lemma Converges<V>(feed: Feed<V>, xs: seq<Report>, ys: seq<Report>)
    requires Signed(feed) && UniqueIds(xs) && UniqueIds(ys) && forall r :: r in xs <==> r in ys
    ensures Reduce(feed, xs) == Reduce(feed, ys)
  {
    ReduceIsMaximum(feed, xs);
    ReduceIsMaximum(feed, ys);
    MaximumIsUnique(feed, xs, ys, Reduce(feed, xs), Reduce(feed, ys));
  }

  // ----------------------------------------- the row's registers are such folds

  lemma {:induction false} SimpleRegisters(hostname: string, rs: seq<Report>)
    ensures var row := ProjectAll(EMPTY, hostname, rs);
            && row.latest == Reduce(LatestFeed, rs)
            && row.positive == Reduce(PositiveFeed, rs)
            && row.lastHttp == Reduce((r: Report) => HttpFeed(hostname, r), rs)
  {
    if rs != [] {
      SimpleRegisters(hostname, rs[..|rs| - 1]);
    }
  }

  function DnsEntry(id: string, hostname: string, q: Question, o: Observation): seq<Entry<string>> {
    if Answers(o, hostname, q) then [Entry(o.observedAt, id, o.outcome)] else []
  }

  function DnsPositiveEntry(id: string, hostname: string, q: Question, o: Observation): seq<Entry<()>> {
    if Answers(o, hostname, q) && o.outcome == "answered" then [Entry(o.observedAt, id, ())] else []
  }

  lemma UpsertOne(dns: map<Question, DnsRow>, id: string, hostname: string, q: Question, o: Observation)
    ensures var n := UpsertDns(dns, id, hostname, o);
            && LatestIn(n, q) == PutAll(LatestIn(dns, q), DnsEntry(id, hostname, q, o))
            && PositiveIn(n, q) == PutAll(PositiveIn(dns, q), DnsPositiveEntry(id, hostname, q, o))
  {
  }

  lemma {:induction false} UpsertRegisters(dns: map<Question, DnsRow>, id: string, hostname: string, q: Question, observations: seq<Observation>)
    ensures var n := UpsertAll(dns, id, hostname, observations);
            && LatestIn(n, q) == PutAll(LatestIn(dns, q), DnsEntries(id, hostname, q, observations))
            && PositiveIn(n, q) == PutAll(PositiveIn(dns, q), DnsPositives(id, hostname, q, observations))
  {
    if observations != [] {
      var front, o := observations[..|observations| - 1], observations[|observations| - 1];
      UpsertRegisters(dns, id, hostname, q, front);
      UpsertOne(UpsertAll(dns, id, hostname, front), id, hostname, q, o);
      PutAllAppend(LatestIn(dns, q), DnsEntries(id, hostname, q, front), DnsEntry(id, hostname, q, o));
      PutAllAppend(PositiveIn(dns, q), DnsPositives(id, hostname, q, front), DnsPositiveEntry(id, hostname, q, o));
    }
  }

  lemma {:induction false} PutAllAppend<V>(r: Option<Entry<V>>, a: seq<Entry<V>>, b: seq<Entry<V>>)
    ensures PutAll(r, a + b) == PutAll(PutAll(r, a), b)
  {
    if b == [] {
      assert a + b == a;
    } else {
      assert (a + b)[..|a + b| - 1] == a + b[..|b| - 1];
      PutAllAppend(r, a, b[..|b| - 1]);
    }
  }

  lemma {:induction false} DnsRegisters(hostname: string, rs: seq<Report>, q: Question)
    ensures var row := ProjectAll(EMPTY, hostname, rs);
            && LatestIn(row.dns, q) == Reduce((r: Report) => DnsFeed(hostname, q, r), rs)
            && PositiveIn(row.dns, q) == Reduce((r: Report) => DnsPositiveFeed(hostname, q, r), rs)
  {
    if rs != [] {
      var front, r := rs[..|rs| - 1], rs[|rs| - 1];
      DnsRegisters(hostname, front, q);
      UpsertRegisters(ProjectAll(EMPTY, hostname, front).dns, r.id, hostname, q, r.observations);
    }
  }

  // ----------------------------------------------------------------- signatures

  lemma {:induction false} HttpSigned(id: string, hostname: string, observations: seq<Observation>, i: nat)
    requires i < |HttpEntries(id, hostname, observations)|
    ensures HttpEntries(id, hostname, observations)[i].report == id
  {
    var front := observations[..|observations| - 1];
    if i < |HttpEntries(id, hostname, front)| {
      HttpSigned(id, hostname, front, i);
    }
  }

  lemma {:induction false} DnsSigned(id: string, hostname: string, q: Question, observations: seq<Observation>, i: nat)
    ensures i < |DnsEntries(id, hostname, q, observations)| ==> DnsEntries(id, hostname, q, observations)[i].report == id
    ensures i < |DnsPositives(id, hostname, q, observations)| ==> DnsPositives(id, hostname, q, observations)[i].report == id
  {
    if observations != [] {
      DnsSigned(id, hostname, q, observations[..|observations| - 1], i);
    }
  }

  lemma FeedsSigned(hostname: string, q: Question)
    ensures Signed(LatestFeed) && Signed(PositiveFeed)
    ensures Signed((r: Report) => HttpFeed(hostname, r))
    ensures Signed((r: Report) => DnsFeed(hostname, q, r)) && Signed((r: Report) => DnsPositiveFeed(hostname, q, r))
  {
    forall r: Report, i | 0 <= i < |HttpFeed(hostname, r)| ensures HttpFeed(hostname, r)[i].report == r.id {
      HttpSigned(r.id, hostname, r.observations, i);
    }
    forall r: Report, i | 0 <= i < |DnsFeed(hostname, q, r)| ensures DnsFeed(hostname, q, r)[i].report == r.id {
      DnsSigned(r.id, hostname, q, r.observations, i);
    }
    forall r: Report, i | 0 <= i < |DnsPositiveFeed(hostname, q, r)| ensures DnsPositiveFeed(hostname, q, r)[i].report == r.id {
      DnsSigned(r.id, hostname, q, r.observations, i);
    }
  }

  // ---------------------------------------------------------------- theorems

  // Whatever the order and however often each report is processed, the latest attempt with
  // its coverage, the last positive, the last HTTP response and every DNS question's latest
  // and last positive state come out the same.
  lemma ProjectionConverges(hostname: string, xs: seq<Report>, ys: seq<Report>, q: Question)
    requires UniqueIds(xs) && UniqueIds(ys) && forall r :: r in xs <==> r in ys
    ensures var a, b := ProjectAll(EMPTY, hostname, xs), ProjectAll(EMPTY, hostname, ys);
            && a.latest == b.latest && a.positive == b.positive && a.lastHttp == b.lastHttp
            && LatestIn(a.dns, q) == LatestIn(b.dns, q) && PositiveIn(a.dns, q) == PositiveIn(b.dns, q)
            && (q in a.dns <==> q in b.dns)
  {
    SimpleRegisters(hostname, xs);
    SimpleRegisters(hostname, ys);
    DnsRegisters(hostname, xs, q);
    DnsRegisters(hostname, ys, q);
    FeedsSigned(hostname, q);
    Converges(LatestFeed, xs, ys);
    Converges(PositiveFeed, xs, ys);
    Converges((r: Report) => HttpFeed(hostname, r), xs, ys);
    Converges((r: Report) => DnsFeed(hostname, q, r), xs, ys);
    Converges((r: Report) => DnsPositiveFeed(hostname, q, r), xs, ys);
  }

  // What they converge to: the lexicographic maximum by (time, report ID).
  lemma ProjectionIsMaximum(hostname: string, rs: seq<Report>, q: Question)
    requires UniqueIds(rs)
    ensures var row := ProjectAll(EMPTY, hostname, rs);
            && IsMaximum(LatestFeed, rs, row.latest) && IsMaximum(PositiveFeed, rs, row.positive)
            && IsMaximum((r: Report) => HttpFeed(hostname, r), rs, row.lastHttp)
            && IsMaximum((r: Report) => DnsFeed(hostname, q, r), rs, LatestIn(row.dns, q))
            && IsMaximum((r: Report) => DnsPositiveFeed(hostname, q, r), rs, PositiveIn(row.dns, q))
  {
    SimpleRegisters(hostname, rs);
    DnsRegisters(hostname, rs, q);
    FeedsSigned(hostname, q);
    ReduceIsMaximum(LatestFeed, rs);
    ReduceIsMaximum(PositiveFeed, rs);
    ReduceIsMaximum((r: Report) => HttpFeed(hostname, r), rs);
    ReduceIsMaximum((r: Report) => DnsFeed(hostname, q, r), rs);
    ReduceIsMaximum((r: Report) => DnsPositiveFeed(hostname, q, r), rs);
  }

  lemma PutOne<V>(r: Option<Entry<V>>, e: Entry<V>)
    ensures PutAll(r, [e]) == Put(r, e)
  {
  }

  // A report whose only observation is a response.
  lemma OneResponse(row: Row, hostname: string, r: Report, o: Observation)
    requires !Replay(r) && AttemptedAt(r.facts) != 0 && r.observations == [o] && IsResponse(o, hostname)
    ensures NextLatestHttp(row, hostname, r)
            == if LaterPosition(AttemptedAt(r.facts), r.id, row.latest) && (row.latestHttp.None? || o.observedAt > row.latestHttp.value.at)
               then Some(HttpAttempt(o.observedAt, Some(o.statusCode))) else row.latestHttp
  {
    assert IsResponse(r.observations[0], hostname);
    assert Responded(r.observations, hostname);
    assert r.observations[..0] == [] && r.observations[|r.observations| - 1] == o;
    assert LatestHttp(row.latestHttp, hostname, r.observations[..0]) == row.latestHttp;
  }

  lemma ProjectTwo(hostname: string, a: Report, b: Report)
    ensures ProjectAll(EMPTY, hostname, [a, b]) == Project(Project(EMPTY, hostname, a), hostname, b)
  {
    assert [a, b][..1] == [a] && [a][..0] == [];
    assert ProjectAll(EMPTY, hostname, []) == EMPTY;
    assert ProjectAll(EMPTY, hostname, [a]) == Project(EMPTY, hostname, a);
  }

  // The latest HTTP attempt is not one of them: it stays with the first of two reports of
  // which the later attempt carries the earlier response.
  lemma LatestHttpDependsOnOrder(h: string, a: Report, b: Report, x: Observation, y: Observation)
    requires !Replay(a) && a.observations == [x] && IsResponse(x, h)
    requires !Replay(b) && b.observations == [y] && IsResponse(y, h)
    requires 0 < AttemptedAt(a.facts) < AttemptedAt(b.facts) && y.observedAt < x.observedAt
    ensures ProjectAll(EMPTY, h, [a, b]).latestHttp == Some(HttpAttempt(x.observedAt, Some(x.statusCode)))
    ensures ProjectAll(EMPTY, h, [b, a]).latestHttp == Some(HttpAttempt(y.observedAt, Some(y.statusCode)))
  {
    ProjectTwo(h, a, b);
    ProjectTwo(h, b, a);
    PutOne(EMPTY.latest, Entry(AttemptedAt(a.facts), a.id, a.facts.coverage));
    PutOne(EMPTY.latest, Entry(AttemptedAt(b.facts), b.id, b.facts.coverage));
    OneResponse(EMPTY, h, a, x);
    OneResponse(EMPTY, h, b, y);
    OneResponse(Project(EMPTY, h, a), h, b, y);
    OneResponse(Project(EMPTY, h, b), h, a, x);
  }

  // ------------------------------------------ when the latest HTTP attempt converges

  // Whether a report can become the latest attempt.
  predicate CanBeLatest(r: Report) { !Replay(r) && AttemptedAt(r.facts) != 0 }

  // What an eligible report sets the latest HTTP attempt to when nothing came before it.
  function Attempt(h: string, r: Report): Option<HttpAttempt> {
    if !CanBeLatest(r) then None
    else if Responded(r.observations, h) then LatestHttp(None, h, r.observations)
    else if HttpAttempted(r, h) then Some(HttpAttempt(AttemptedAt(r.facts), None))
    else None
  }

  // The report latest leaves its own attempt behind, whatever other set before it.
  predicate Settles(h: string, latest: Report, other: Report) {
    var a, b := Attempt(h, latest), Attempt(h, other);
    || (HttpAttempted(latest, h) && !Responded(latest.observations, h))
    || b.None? || (a.Some? && (b.value.at < a.value.at || b == a))
  }

  predicate IsLatest(rs: seq<Report>, m: Report) {
    m in rs && CanBeLatest(m) && forall r :: r in rs && CanBeLatest(r) ==> r == m || Before(Position(r), Position(m))
  }

  function Position(r: Report): Entry<()> { Entry(AttemptedAt(r.facts), r.id, ()) }

  // The same reports in any order and with repeats.
  ghost predicate SameReports(xs: seq<Report>, ys: seq<Report>) { forall r :: r in xs <==> r in ys }

  ghost predicate OrderFree(h: string, rs: seq<Report>) {
    forall xs, ys :: SameReports(rs, xs) && SameReports(rs, ys) ==>
      ProjectAll(EMPTY, h, xs).latestHttp == ProjectAll(EMPTY, h, ys).latestHttp
  }

  // The scan of a report's responses keeps what was there unless its own best is later.
  lemma {:induction false} LatestHttpOnce(before: Option<HttpAttempt>, h: string, observations: seq<Observation>)
    ensures LatestHttp(None, h, observations).Some? <==> Responded(observations, h)
    ensures var best := LatestHttp(None, h, observations);
            LatestHttp(before, h, observations)
            == if best.Some? && (before.None? || best.value.at > before.value.at) then best else before
  {
    if observations != [] {
      var front, o := observations[..|observations| - 1], observations[|observations| - 1];
      LatestHttpOnce(before, h, front);
      RespondedNext(observations, h);
    }
  }

  lemma RespondedNext(observations: seq<Observation>, h: string)
    requires observations != []
    ensures var n := |observations| - 1;
            Responded(observations, h) <==> Responded(observations[..n], h) || IsResponse(observations[n], h)
  {
    var n := |observations| - 1;
    if i :| 0 <= i < n && IsResponse(observations[..n][i], h) {
      assert IsResponse(observations[i], h);
    }
    if i :| 0 <= i <= n && IsResponse(observations[i], h) {
      assert i < n ==> IsResponse(observations[..n][i], h);
    }
  }

  predicate Supersedes(row: Row, r: Report) { CanBeLatest(r) && LaterPosition(AttemptedAt(r.facts), r.id, row.latest) }

  // One report's effect: none unless it becomes latest, and then its own attempt or what was there.
  lemma NextAttempt(row: Row, h: string, r: Report)
    ensures !Supersedes(row, r) ==> NextLatestHttp(row, h, r) == row.latestHttp
    ensures Supersedes(row, r) && HttpAttempted(r, h) && !Responded(r.observations, h) ==> NextLatestHttp(row, h, r) == Attempt(h, r)
    ensures Supersedes(row, r) && Responded(r.observations, h) ==>
              var a := Attempt(h, r);
              a.Some? && NextLatestHttp(row, h, r) == if row.latestHttp.None? || a.value.at > row.latestHttp.value.at then a else row.latestHttp
    ensures Supersedes(row, r) && !HttpAttempted(r, h) ==> NextLatestHttp(row, h, r) == row.latestHttp && Attempt(h, r) == None
  {
    LatestHttpOnce(row.latestHttp, h, r.observations);
  }

  // The register holds nothing or the attempt of some report that came.
  ghost predicate Comes(h: string, rs: seq<Report>, a: Option<HttpAttempt>) { a.None? || exists r :: r in rs && Attempt(h, r) == a }

  lemma {:induction false} RegisterComes(h: string, rs: seq<Report>)
    ensures Comes(h, rs, ProjectAll(EMPTY, h, rs).latestHttp)
  {
    if rs != [] {
      var front, r := rs[..|rs| - 1], rs[|rs| - 1];
      RegisterComes(h, front);
      var row := ProjectAll(EMPTY, h, front);
      NextAttempt(row, h, r);
      assert r in rs && forall q :: q in front ==> q in rs;
    }
  }

  // The latest register is the position of the latest report that came.
  lemma LatestRegister(h: string, rs: seq<Report>, all: seq<Report>, m: Report)
    requires UniqueIds(all) && (forall r :: r in rs ==> r in all) && IsLatest(all, m)
    ensures var e := ProjectAll(EMPTY, h, rs).latest;
            && (e.Some? ==> (e.value.at == Position(m).at && e.value.report == m.id) || Before(Entry(e.value.at, e.value.report, ()), Position(m)))
            && (m in rs ==> e.Some? && e.value.at == Position(m).at && e.value.report == m.id)
            && (m !in rs && e.Some? ==> Before(Entry(e.value.at, e.value.report, ()), Position(m)))
  {
    SimpleRegisters(h, rs);
    UniqueSubset(rs, all);
    ReduceIsMaximum(LatestFeed, rs);
    var e := Reduce(LatestFeed, rs);
    if e.Some? {
      var r :| r in rs && Best(LatestFeed, r) == e;
      LatestBest(r);
      if m in rs {
        LatestBest(m);
        BeforeOrder(e.value, Best(LatestFeed, m).value, e.value);
      }
    }
    if m in rs {
      LatestBest(m);
    }
  }

  lemma LatestBest(r: Report)
    ensures Best(LatestFeed, r) == if CanBeLatest(r) then Some(Entry(AttemptedAt(r.facts), r.id, r.facts.coverage)) else None
  {
    PutOne(None, Entry(AttemptedAt(r.facts), r.id, r.facts.coverage));
  }

  lemma UniqueSubset(rs: seq<Report>, all: seq<Report>)
    requires UniqueIds(all) && forall r :: r in rs ==> r in all
    ensures UniqueIds(rs)
  {
    forall i, j | 0 <= i < |rs| && 0 <= j < |rs| && rs[i].id == rs[j].id ensures rs[i] == rs[j] {
      SameId(all, rs[i], rs[j]);
    }
  }

  lemma NoneSupersedes(h: string, rs: seq<Report>, all: seq<Report>, m: Report, r: Report)
    requires UniqueIds(all) && (forall q :: q in rs ==> q in all) && IsLatest(all, m) && r in all
    ensures m in rs ==> !Supersedes(ProjectAll(EMPTY, h, rs), r)
    ensures m !in rs ==> Supersedes(ProjectAll(EMPTY, h, rs), m)
  {
    LatestRegister(h, rs, all, m);
    if CanBeLatest(r) {
      BeforeOrder(Position(r), Position(m), Position(r));
      if r == m {
        Irreflexive(m.id);
      }
    }
  }

  // With every other report settled, the register ends at the latest report's own attempt.
  lemma {:induction false} SettledEnds(h: string, rs: seq<Report>, all: seq<Report>, m: Report)
    requires UniqueIds(all) && (forall r :: r in rs ==> r in all) && IsLatest(all, m) && forall r :: r in all ==> Settles(h, m, r)
    ensures m in rs ==> ProjectAll(EMPTY, h, rs).latestHttp == Attempt(h, m)
  {
    if rs != [] {
      var front, r := rs[..|rs| - 1], rs[|rs| - 1];
      assert rs == front + [r];
      SettledEnds(h, front, all, m);
      var row := ProjectAll(EMPTY, h, front);
      NoneSupersedes(h, front, all, m, r);
      NextAttempt(row, h, r);
      if m !in front && r == m {
        RegisterComes(h, front);
        if row.latestHttp.Some? {
          var q :| q in front && Attempt(h, q) == row.latestHttp;
          assert Settles(h, m, q);
        }
      }
    }
  }

  // A report that is not settled shows: just before the latest one, it decides the register.
  lemma UnsettledShows(h: string, rs: seq<Report>, m: Report, r: Report)
    requires UniqueIds(rs) && IsLatest(rs, m) && r in rs && !Settles(h, m, r)
    ensures ProjectAll(EMPTY, h, [r, m] + rs).latestHttp != Attempt(h, m)
    ensures ProjectAll(EMPTY, h, [m] + rs).latestHttp == Attempt(h, m)
  {
    AloneEnds(h, rs, m);
    PairEnds(h, rs, m, r);
    TailIsInert(h, [r, m], rs, rs, m);
    TailIsInert(h, [m], rs, rs, m);
  }

  // Once the latest report has come, nothing moves the register.
  lemma {:induction false} TailIsInert(h: string, front: seq<Report>, tail: seq<Report>, all: seq<Report>, m: Report)
    requires UniqueIds(all) && IsLatest(all, m) && m in front
    requires (forall r :: r in front ==> r in all) && (forall r :: r in tail ==> r in all)
    ensures ProjectAll(EMPTY, h, front + tail).latestHttp == ProjectAll(EMPTY, h, front).latestHttp
  {
    if tail == [] {
      assert front + tail == front;
    } else {
      var some := tail[..|tail| - 1];
      TailIsInert(h, front, some, all, m);
      assert (front + tail)[..|front + tail| - 1] == front + some;
      NoneSupersedes(h, front + some, all, m, tail[|tail| - 1]);
      NextAttempt(ProjectAll(EMPTY, h, front + some), h, tail[|tail| - 1]);
    }
  }

  lemma AloneEnds(h: string, rs: seq<Report>, m: Report)
    requires UniqueIds(rs) && IsLatest(rs, m)
    ensures ProjectAll(EMPTY, h, [m]).latestHttp == Attempt(h, m)
  {
    assert [m][..0] == [];
    assert ProjectAll(EMPTY, h, []) == EMPTY;
    NextAttempt(EMPTY, h, m);
  }

  lemma PairEnds(h: string, rs: seq<Report>, m: Report, r: Report)
    requires UniqueIds(rs) && IsLatest(rs, m) && r in rs && !Settles(h, m, r)
    ensures ProjectAll(EMPTY, h, [r, m]).latestHttp != Attempt(h, m)
  {
    ProjectTwo(h, r, m);
    var row := Project(EMPTY, h, r);
    NextAttempt(EMPTY, h, r);
    assert row.latestHttp == Attempt(h, r);
    assert [r][..0] == [] && ProjectAll(EMPTY, h, []) == EMPTY;
    assert ProjectAll(EMPTY, h, [r]) == row;
    NoneSupersedes(h, [r], rs, m, m);
    NextAttempt(row, h, m);
  }

  lemma SettledIsOrderFree(h: string, rs: seq<Report>, m: Report)
    requires UniqueIds(rs) && IsLatest(rs, m) && forall r :: r in rs ==> Settles(h, m, r)
    ensures OrderFree(h, rs)
  {
    forall xs, ys | SameReports(rs, xs) && SameReports(rs, ys)
      ensures ProjectAll(EMPTY, h, xs).latestHttp == ProjectAll(EMPTY, h, ys).latestHttp
    {
      SettledEnds(h, xs, rs, m);
      SettledEnds(h, ys, rs, m);
    }
  }

  lemma UnsettledIsOrdered(h: string, rs: seq<Report>, m: Report, r: Report)
    requires UniqueIds(rs) && IsLatest(rs, m) && r in rs && !Settles(h, m, r)
    ensures !OrderFree(h, rs)
  {
    UnsettledShows(h, rs, m, r);
    SameWith(rs, [m]);
    SameWith(rs, [r, m]);
    Differ(h, rs, [m] + rs, [r, m] + rs);
  }

  lemma SameWith(rs: seq<Report>, more: seq<Report>)
    requires forall r :: r in more ==> r in rs
    ensures SameReports(rs, more + rs)
  {
  }

  lemma Differ(h: string, rs: seq<Report>, xs: seq<Report>, ys: seq<Report>)
    requires SameReports(rs, xs) && SameReports(rs, ys)
    requires ProjectAll(EMPTY, h, xs).latestHttp != ProjectAll(EMPTY, h, ys).latestHttp
    ensures !OrderFree(h, rs)
  {
  }

  // The latest HTTP attempt is the same for every order and repetition of the reports exactly
  // when the latest report settles all others: it attempted HTTP without a response, or the
  // attempt each other report would leave alone is older than its own, or the same.
  lemma LatestHttpConverges(h: string, rs: seq<Report>, m: Report)
    requires UniqueIds(rs) && IsLatest(rs, m)
    ensures OrderFree(h, rs) <==> forall r :: r in rs ==> Settles(h, m, r)
    ensures OrderFree(h, rs) ==> ProjectAll(EMPTY, h, rs).latestHttp == Attempt(h, m)
  {
    if forall r :: r in rs ==> Settles(h, m, r) {
      SettledIsOrderFree(h, rs, m);
      SettledEnds(h, rs, rs, m);
    } else {
      var r :| r in rs && !Settles(h, m, r);
      UnsettledIsOrdered(h, rs, m, r);
    }
  }

  // Reports of which none can become latest leave the register empty.
  lemma {:induction false} NothingEligible(h: string, rs: seq<Report>)
    requires forall r :: r in rs ==> !CanBeLatest(r)
    ensures ProjectAll(EMPTY, h, rs).latestHttp == None
  {
    if rs != [] {
      NothingEligible(h, rs[..|rs| - 1]);
      NextAttempt(ProjectAll(EMPTY, h, rs[..|rs| - 1]), h, rs[|rs| - 1]);
    }
  }

  // ---------------------------------------------- when the description converges

  function DescribedBy(r: Report): Described { Described(r.facts.observedAt, r.classifiedAt, r.id, r.facts.format) }

  // Whether a report replaces a description.
  predicate Takes(d: Described, r: Report) {
    || (r.facts.positive && LaterPosition(r.facts.observedAt, r.id, Some(Entry(d.at, d.report, ()))))
    || (d.report == r.id && d.format != r.facts.format)
    || (Replay(r) && r.facts.observedAt == d.at && r.classifiedAt > d.classifiedAt)
  }

  // w replaces what any other report leaves and is replaced by none.
  predicate Wins(rs: seq<Report>, w: Report) {
    w in rs && forall r :: r in rs && r != w ==> Takes(DescribedBy(r), w) && !Takes(DescribedBy(w), r)
  }

  ghost predicate DescriptionOrderFree(h: string, rs: seq<Report>) {
    forall xs, ys :: SameReports(rs, xs) && SameReports(rs, ys) ==>
      ProjectAll(EMPTY, h, xs).description == ProjectAll(EMPTY, h, ys).description
  }

  lemma NextDescription(row: Row, h: string, r: Report)
    ensures Project(row, h, r).description
            == if row.description.None? || Takes(row.description.value, r) then Some(DescribedBy(r)) else row.description
  {
  }

  // The description is always that of a report that came.
  lemma {:induction false} DescriptionComes(h: string, rs: seq<Report>) returns (r: Report)
    requires rs != []
    ensures r in rs && ProjectAll(EMPTY, h, rs).description == Some(DescribedBy(r))
  {
    var n := |rs| - 1;
    NextDescription(ProjectAll(EMPTY, h, rs[..n]), h, rs[n]);
    r := rs[n];
    if ProjectAll(EMPTY, h, rs).description != Some(DescribedBy(r)) {
      assert rs[..n] != [];
      r := DescriptionComes(h, rs[..n]);
    }
  }

  lemma {:induction false} WinnerEnds(h: string, rs: seq<Report>, all: seq<Report>, w: Report)
    requires (forall r :: r in rs ==> r in all) && Wins(all, w) && w in rs
    ensures ProjectAll(EMPTY, h, rs).description == Some(DescribedBy(w))
  {
    var front, r := rs[..|rs| - 1], rs[|rs| - 1];
    assert rs == front + [r];
    NextDescription(ProjectAll(EMPTY, h, front), h, r);
    if w in front {
      WinnerEnds(h, front, all, w);
    } else if front != [] {
      var q := DescriptionComes(h, front);
    }
  }

  lemma WinnerIsOrderFree(h: string, rs: seq<Report>, w: Report)
    requires Wins(rs, w)
    ensures DescriptionOrderFree(h, rs)
  {
    forall xs, ys | SameReports(rs, xs) && SameReports(rs, ys)
      ensures ProjectAll(EMPTY, h, xs).description == ProjectAll(EMPTY, h, ys).description
    {
      WinnerEnds(h, xs, rs, w);
      WinnerEnds(h, ys, rs, w);
    }
  }

  // From a description w cannot take, reports other than w never lead to w's.
  lemma {:induction false} OthersStay(h: string, front: seq<Report>, tail: seq<Report>, all: seq<Report>, w: Report)
    requires UniqueIds(all) && w in all && (forall r :: r in tail ==> r in all && r != w)
    requires front != [] && ProjectAll(EMPTY, h, front).description.Some? && ProjectAll(EMPTY, h, front).description.value.report != w.id
    ensures ProjectAll(EMPTY, h, front + tail).description != Some(DescribedBy(w))
    ensures ProjectAll(EMPTY, h, front + tail).description.Some? && ProjectAll(EMPTY, h, front + tail).description.value.report != w.id
  {
    if tail == [] {
      assert front + tail == front;
    } else {
      var some, r := tail[..|tail| - 1], tail[|tail| - 1];
      OthersStay(h, front, some, all, w);
      assert (front + tail)[..|front + tail| - 1] == front + some;
      NextDescription(ProjectAll(EMPTY, h, front + some), h, r);
      SameId(all, r, w);
    }
  }

  function Except(rs: seq<Report>, w: Report): (others: seq<Report>)
    ensures forall r :: r in others <==> r in rs && r != w
  {
    if rs == [] then []
    else
      var last := rs[|rs| - 1];
      assert rs == rs[..|rs| - 1] + [last];
      Except(rs[..|rs| - 1], w) + if last == w then [] else [last]
  }

  // The order in which w comes second and fails to take.
  lemma CannotTake(h: string, rs: seq<Report>, w: Report, r: Report)
    requires UniqueIds(rs) && w in rs && r in rs && r != w && !Takes(DescribedBy(r), w)
    ensures SameReports(rs, [r, w] + Except(rs, w))
    ensures ProjectAll(EMPTY, h, [r, w] + Except(rs, w)).description != Some(DescribedBy(w))
  {
    ProjectTwo(h, r, w);
    NextDescription(EMPTY, h, r);
    NextDescription(Project(EMPTY, h, r), h, w);
    SameId(rs, r, w);
    OthersStay(h, [r, w], Except(rs, w), rs, w);
  }

  // The order that ends with a report that takes over.
  lemma TakesOver(h: string, rs: seq<Report>, w: Report, r: Report)
    requires UniqueIds(rs) && w in rs && r in rs && r != w && Takes(DescribedBy(w), r)
    requires ProjectAll(EMPTY, h, rs).description == Some(DescribedBy(w))
    ensures SameReports(rs, rs + [r]) && ProjectAll(EMPTY, h, rs + [r]).description != Some(DescribedBy(w))
  {
    assert (rs + [r])[..|rs|] == rs;
    NextDescription(ProjectAll(EMPTY, h, rs), h, r);
    SameId(rs, r, w);
  }

  lemma LoserIsOrdered(h: string, rs: seq<Report>, w: Report, r: Report)
    requires UniqueIds(rs) && w in rs && r in rs && r != w && ProjectAll(EMPTY, h, rs).description == Some(DescribedBy(w))
    requires !Takes(DescribedBy(r), w) || Takes(DescribedBy(w), r)
    ensures !DescriptionOrderFree(h, rs)
  {
    assert SameReports(rs, rs);
    if Takes(DescribedBy(w), r) {
      TakesOver(h, rs, w, r);
      DescriptionsDiffer(h, rs, rs, rs + [r]);
    } else {
      CannotTake(h, rs, w, r);
      DescriptionsDiffer(h, rs, rs, [r, w] + Except(rs, w));
    }
  }

  lemma DescriptionsDiffer(h: string, rs: seq<Report>, xs: seq<Report>, ys: seq<Report>)
    requires SameReports(rs, xs) && SameReports(rs, ys) && ProjectAll(EMPTY, h, xs).description != ProjectAll(EMPTY, h, ys).description
    ensures !DescriptionOrderFree(h, rs)
  {
  }

  // It is not always so: of two reports without positive findings the first keeps it.
  lemma FirstDescriptionSticks(h: string, a: Report, b: Report)
    requires a.id != b.id && !a.facts.positive && !b.facts.positive && !Replay(a) && !Replay(b)
    ensures ProjectAll(EMPTY, h, [a, b]).description == Some(DescribedBy(a))
    ensures ProjectAll(EMPTY, h, [b, a]).description == Some(DescribedBy(b))
  {
    ProjectTwo(h, a, b);
    ProjectTwo(h, b, a);
  }

  // The chosen description is the same for every order and repetition of the reports exactly
  // when some report wins: it takes over from each of the others and none takes over from it.
  lemma DescriptionConverges(h: string, rs: seq<Report>)
    requires UniqueIds(rs) && rs != []
    ensures DescriptionOrderFree(h, rs) <==> exists w :: Wins(rs, w)
  {
    if w :| Wins(rs, w) {
      WinnerIsOrderFree(h, rs, w);
    } else {
      var w := DescriptionComes(h, rs);
      assert !Wins(rs, w);
      var r :| r in rs && r != w && !(Takes(DescribedBy(r), w) && !Takes(DescribedBy(w), r));
      LoserIsOrdered(h, rs, w, r);
    }
  }

  // --------------------------------------------------------------- the update

  lemma HttpNext(id: string, hostname: string, observations: seq<Observation>, i: nat, r: Option<Entry<int>>)
    requires i < |observations|
    ensures var o := observations[i];
            PutAll(r, HttpEntries(id, hostname, observations[..i + 1]))
            == if IsResponse(o, hostname) then Put(PutAll(r, HttpEntries(id, hostname, observations[..i])), Entry(o.observedAt, id, o.statusCode))
               else PutAll(r, HttpEntries(id, hostname, observations[..i]))
  {
    assert observations[..i + 1][..i] == observations[..i];
    var o := observations[i];
    var es := HttpEntries(id, hostname, observations[..i]);
    PutAllAppend(r, es, if IsResponse(o, hostname) then [Entry(o.observedAt, id, o.statusCode)] else []);
  }

  // updateInventoryContext's two passes over the HTTP observations.
  method ScanLatestHttp(before: Option<HttpAttempt>, hostname: string, r: Report) returns (after: Option<HttpAttempt>)
    ensures after == if Responded(r.observations, hostname) then LatestHttp(before, hostname, r.observations)
                     else if HttpAttempted(r, hostname) then Some(HttpAttempt(AttemptedAt(r.facts), None))
                     else before
  {
    after := before;
    var attempted := r.fullMode;
    for i := 0 to |r.capabilities|
      invariant attempted <==> r.fullMode || "http" in r.capabilities[..i]
    {
      assert r.capabilities[..i + 1] == r.capabilities[..i] + [r.capabilities[i]];
      if r.capabilities[i] == "http" {
        attempted := true;
      }
    }
    assert r.capabilities[..|r.capabilities|] == r.capabilities;
    var seen := false;
    for i := 0 to |r.observations|
      invariant seen <==> exists j :: 0 <= j < i && IsResponse(r.observations[j], hostname)
      invariant attempted <==> r.fullMode || "http" in r.capabilities || seen
      invariant after == LatestHttp(before, hostname, r.observations[..i])
    {
      assert r.observations[..i + 1][..i] == r.observations[..i];
      var o := r.observations[i];
      if !IsResponse(o, hostname) {
        continue;
      }
      attempted, seen := true, true;
      if after.None? || o.observedAt > after.value.at {
        after := Some(HttpAttempt(o.observedAt, Some(o.statusCode)));
      }
    }
    assert r.observations[..|r.observations|] == r.observations;
    if !seen {
      after := if attempted then Some(HttpAttempt(AttemptedAt(r.facts), None)) else before;
    }
  }

  method ScanLastHttp(before: Option<Entry<int>>, hostname: string, r: Report) returns (after: Option<Entry<int>>)
    ensures after == PutAll(before, HttpEntries(r.id, hostname, r.observations))
  {
    after := before;
    for i := 0 to |r.observations|
      invariant after == PutAll(before, HttpEntries(r.id, hostname, r.observations[..i]))
    {
      HttpNext(r.id, hostname, r.observations, i, before);
      var o := r.observations[i];
      if !IsResponse(o, hostname) {
        continue;
      }
      if after.None? || LaterPosition(o.observedAt, r.id, after) {
        after := Some(Entry(o.observedAt, r.id, o.statusCode));
      }
    }
    assert r.observations[..|r.observations|] == r.observations;
  }

  method PublishDns(before: map<Question, DnsRow>, hostname: string, r: Report) returns (after: map<Question, DnsRow>)
    ensures after == UpsertAll(before, r.id, hostname, r.observations)
  {
    after := before;
    for i := 0 to |r.observations|
      invariant after == UpsertAll(before, r.id, hostname, r.observations[..i])
    {
      assert r.observations[..i + 1][..i] == r.observations[..i];
      after := UpsertDns(after, r.id, hostname, r.observations[i]);
    }
    assert r.observations[..|r.observations|] == r.observations;
  }

  // The whole update of one context row.
  method UpdateContext(row: Row, hostname: string, r: Report) returns (n: Row)
    ensures n == Project(row, hostname, r)
  {
    var latest, latestHttp, lastHttp, positive, description, dns := row.latest, row.latestHttp, row.lastHttp, row.positive, row.description, row.dns;
    var replay := r.original != "";
    var attemptedAt := r.facts.attemptedAt;
    if attemptedAt == 0 {
      attemptedAt := r.facts.observedAt;
    }
    PutOne(latest, Entry(attemptedAt, r.id, r.facts.coverage));
    if !replay && attemptedAt != 0 && LaterPosition(attemptedAt, r.id, latest) {
      latest := Some(Entry(attemptedAt, r.id, r.facts.coverage));
      latestHttp := ScanLatestHttp(latestHttp, hostname, r);
    }
    if !replay {
      lastHttp := ScanLastHttp(lastHttp, hostname, r);
    }
    PutOne(positive, Entry(r.facts.observedAt, r.id, ()));
    if !replay && r.facts.positive && r.facts.observedAt != 0 && LaterPosition(r.facts.observedAt, r.id, positive) {
      positive := Some(Entry(r.facts.observedAt, r.id, ()));
    }
    var replace := description.None? ||
      (r.facts.positive && LaterPosition(r.facts.observedAt, r.id, Some(Entry(description.value.at, description.value.report, ()))));
    if description.Some? && description.value.report == r.id && description.value.format != r.facts.format {
      replace := true;
    }
    if replay && description.Some? && r.facts.observedAt == description.value.at && r.classifiedAt > description.value.classifiedAt {
      replace := true;
    }
    if replace {
      description := Some(Described(r.facts.observedAt, r.classifiedAt, r.id, r.facts.format));
    }
    if !replay {
      dns := PublishDns(dns, hostname, r);
    }
    n := Row(latest, latestHttp, lastHttp, positive, description, dns);
  }
}
