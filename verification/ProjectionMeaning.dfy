// The registers of a context in the reports' own terms: which observations count, and that
// each register holds the greatest of them by time and report ID.
module ProjectionMeaning {
  import opened Options
  import opened Lex
  import opened Projection

  // ------------------------------------------------------- which observations count

  // An attempt: a report that is no replay and has a time, its own or its observation's.
  predicate GivesAttempt(r: Report, e: Entry<seq<string>>) {
    && r.original == "" && e.report == r.id && e.value == r.facts.coverage && e.at != 0
    && e.at == if r.facts.attemptedAt != 0 then r.facts.attemptedAt else r.facts.observedAt
  }

  // A positive: a report that is no replay, found something and has an observation time.
  predicate GivesPositive(r: Report, e: Entry<()>) {
    r.original == "" && r.facts.positive && r.facts.observedAt != 0 && e == Entry(r.facts.observedAt, r.id, ())
  }

  // A response: of the hostname itself, not behind an external redirect, with a valid status.
  predicate GivesResponse(h: string, r: Report, o: Observation, e: Entry<int>) {
    && r.original == "" && o.HttpResponse? && o.subject == h && !o.externalRedirect && 100 <= o.statusCode <= 599
    && e == Entry(o.observedAt, r.id, o.statusCode)
  }

  // An answer to a question: of the hostname itself, outside dependencies, with a time.
  predicate GivesAnswer(h: string, q: Question, r: Report, o: Observation, e: Entry<string>) {
    && r.original == "" && o.DnsQuery? && o.subject == h && !o.dependencyScope && o.observedAt != 0
    && o.owner == q.owner && o.rrtype == q.rrtype && o.owner != "" && o.rrtype != ""
    && e == Entry(o.observedAt, r.id, o.outcome)
  }

  // A positive answer: one whose outcome is "answered".
  predicate GivesPositiveAnswer(h: string, q: Question, r: Report, o: Observation, e: Entry<()>) {
    && r.original == "" && o.DnsQuery? && o.subject == h && !o.dependencyScope && o.observedAt != 0
    && o.owner == q.owner && o.rrtype == q.rrtype && o.owner != "" && o.rrtype != ""
    && o.outcome == "answered" && e == Entry(o.observedAt, r.id, ())
  }

  // ------------------------------------------------------------------ what feeds hold

  lemma LatestFeedHolds(r: Report, e: Entry<seq<string>>)
    ensures e in LatestFeed(r) <==> GivesAttempt(r, e)
  {
  }

  lemma PositiveFeedHolds(r: Report, e: Entry<()>)
    ensures e in PositiveFeed(r) <==> GivesPositive(r, e)
  {
  }

  lemma {:induction false} HttpEntriesHold(h: string, r: Report, observations: seq<Observation>, e: Entry<int>)
    requires r.original == ""
    ensures e in HttpEntries(r.id, h, observations) <==> exists o :: o in observations && GivesResponse(h, r, o, e)
  {
    if observations != [] {
      var front, o := observations[..|observations| - 1], observations[|observations| - 1];
      assert observations == front + [o];
      HttpEntriesHold(h, r, front, e);
      assert e in HttpEntries(r.id, h, observations) <==> e in HttpEntries(r.id, h, front) || GivesResponse(h, r, o, e);
    }
  }

  lemma HttpFeedHolds(h: string, r: Report, e: Entry<int>)
    ensures e in HttpFeed(h, r) <==> exists o :: o in r.observations && GivesResponse(h, r, o, e)
  {
    if r.original == "" {
      HttpEntriesHold(h, r, r.observations, e);
    }
  }

  lemma {:induction false} DnsEntriesHold(h: string, q: Question, r: Report, observations: seq<Observation>, e: Entry<string>)
    requires r.original == ""
    ensures e in DnsEntries(r.id, h, q, observations) <==> exists o :: o in observations && GivesAnswer(h, q, r, o, e)
  {
    if observations != [] {
      var front, o := observations[..|observations| - 1], observations[|observations| - 1];
      assert observations == front + [o];
      DnsEntriesHold(h, q, r, front, e);
      assert e in DnsEntries(r.id, h, q, observations) <==> e in DnsEntries(r.id, h, q, front) || GivesAnswer(h, q, r, o, e);
    }
  }

  lemma DnsFeedHolds(h: string, q: Question, r: Report, e: Entry<string>)
    ensures e in DnsFeed(h, q, r) <==> exists o :: o in r.observations && GivesAnswer(h, q, r, o, e)
  {
    if r.original == "" {
      DnsEntriesHold(h, q, r, r.observations, e);
    }
  }

  lemma {:induction false} DnsPositivesHold(h: string, q: Question, r: Report, observations: seq<Observation>, e: Entry<()>)
    requires r.original == ""
    ensures e in DnsPositives(r.id, h, q, observations) <==> exists o :: o in observations && GivesPositiveAnswer(h, q, r, o, e)
  {
    if observations != [] {
      var front, o := observations[..|observations| - 1], observations[|observations| - 1];
      assert observations == front + [o];
      DnsPositivesHold(h, q, r, front, e);
      assert e in DnsPositives(r.id, h, q, observations) <==> e in DnsPositives(r.id, h, q, front) || GivesPositiveAnswer(h, q, r, o, e);
    }
  }

  lemma DnsPositiveFeedHolds(h: string, q: Question, r: Report, e: Entry<()>)
    ensures e in DnsPositiveFeed(h, q, r) <==> exists o :: o in r.observations && GivesPositiveAnswer(h, q, r, o, e)
  {
    if r.original == "" {
      DnsPositivesHold(h, q, r, r.observations, e);
    }
  }

  // ------------------------------------------------- the first of equals within a report

  // The response at i gives e, and those listed before it are earlier.
  ghost predicate FirstResponse(h: string, r: Report, observations: seq<Observation>, i: nat, e: Entry<int>) {
    && i < |observations| && GivesResponse(h, r, observations[i], e)
    && forall k, x :: 0 <= k < i && GivesResponse(h, r, observations[k], x) ==> x.at < e.at
  }

  lemma TopIsLaterResponse(h: string, r: Report, observations: seq<Observation>, o: Observation, x: Entry<int>)
    requires o in observations && GivesResponse(h, r, o, x)
    ensures var top := PutAll(None, HttpEntries(r.id, h, observations));
            top.Some? && x.at <= top.value.at && forall at: Time :: LaterPosition(at, r.id, top) ==> at > top.value.at
  {
    var es := HttpEntries(r.id, h, observations);
    HttpEntriesHold(h, r, observations, x);
    PutAllIsLatest(es);
    HttpEntriesHold(h, r, observations, PutAll(None, es).value);
    Irreflexive(r.id);
  }

  lemma {:induction false} TopIsFirstResponse(h: string, r: Report, observations: seq<Observation>) returns (i: nat)
    requires r.original == "" && HttpEntries(r.id, h, observations) != []
    ensures PutAll(None, HttpEntries(r.id, h, observations)).Some?
    ensures FirstResponse(h, r, observations, i, PutAll(None, HttpEntries(r.id, h, observations)).value)
  {
    var n := |observations| - 1;
    var front, o := observations[..n], observations[n];
    var es, was := HttpEntries(r.id, h, observations), HttpEntries(r.id, h, front);
    var top := PutAll(None, was);
    if IsResponse(o, h) {
      assert es[..|es| - 1] == was && PutAll(None, es) == Put(top, es[|es| - 1]);
    } else {
      assert es == was;
    }
    if IsResponse(o, h) && LaterPosition(o.observedAt, r.id, top) {
      i := n;
      forall k, x | 0 <= k < i && GivesResponse(h, r, observations[k], x) ensures x.at < o.observedAt {
        assert observations[k] == front[k];
        TopIsLaterResponse(h, r, front, front[k], x);
      }
    } else {
      i := TopIsFirstResponse(h, r, front);
      assert forall k :: 0 <= k <= i ==> front[k] == observations[k];
    }
  }

  // The answer at i gives e, and those listed before it are earlier.
  ghost predicate FirstAnswer(h: string, q: Question, r: Report, observations: seq<Observation>, i: nat, e: Entry<string>) {
    && i < |observations| && GivesAnswer(h, q, r, observations[i], e)
    && forall k, x :: 0 <= k < i && GivesAnswer(h, q, r, observations[k], x) ==> x.at < e.at
  }

  lemma TopIsLaterAnswer(h: string, q: Question, r: Report, observations: seq<Observation>, o: Observation, x: Entry<string>)
    requires o in observations && GivesAnswer(h, q, r, o, x)
    ensures var top := PutAll(None, DnsEntries(r.id, h, q, observations));
            top.Some? && x.at <= top.value.at && forall at: Time :: LaterPosition(at, r.id, top) ==> at > top.value.at
  {
    var es := DnsEntries(r.id, h, q, observations);
    DnsEntriesHold(h, q, r, observations, x);
    PutAllIsLatest(es);
    DnsEntriesHold(h, q, r, observations, PutAll(None, es).value);
    Irreflexive(r.id);
  }

  lemma {:induction false} TopIsFirstAnswer(h: string, q: Question, r: Report, observations: seq<Observation>) returns (i: nat)
    requires r.original == "" && DnsEntries(r.id, h, q, observations) != []
    ensures PutAll(None, DnsEntries(r.id, h, q, observations)).Some?
    ensures FirstAnswer(h, q, r, observations, i, PutAll(None, DnsEntries(r.id, h, q, observations)).value)
  {
    var n := |observations| - 1;
    var front, o := observations[..n], observations[n];
    var es, was := DnsEntries(r.id, h, q, observations), DnsEntries(r.id, h, q, front);
    var top := PutAll(None, was);
    if Answers(o, h, q) {
      assert es[..|es| - 1] == was && PutAll(None, es) == Put(top, es[|es| - 1]);
    } else {
      assert es == was;
    }
    if Answers(o, h, q) && LaterPosition(o.observedAt, r.id, top) {
      i := n;
      forall k, x | 0 <= k < i && GivesAnswer(h, q, r, observations[k], x) ensures x.at < o.observedAt {
        assert observations[k] == front[k];
        TopIsLaterAnswer(h, q, r, front, front[k], x);
      }
    } else {
      i := TopIsFirstAnswer(h, q, r, front);
      assert forall k :: 0 <= k <= i ==> front[k] == observations[k];
    }
  }

  // ------------------------------------------------------------- registers hold maxima

  // One of the entries is at least as late as all of them.
  lemma {:induction false} PutAllIsLatest<V>(es: seq<Entry<V>>)
    ensures PutAll(None, es).Some? <==> es != []
    ensures PutAll(None, es).Some? ==> PutAll(None, es).value in es && forall x :: x in es ==> !Before(PutAll(None, es).value, x)
  {
    if es != [] {
      var front, last := es[..|es| - 1], es[|es| - 1];
      assert es == front + [last];
      PutAllIsLatest(front);
      if front != [] {
        var top, now := PutAll(None, front).value, PutAll(None, es).value;
        forall x | x in es ensures !Before(now, x) {
          BeforeOrder(top, last, x);
          BeforeOrder(x, top, last);
          BeforeOrder(now, x, top);
          BeforeOrder(last, x, top);
        }
      } else {
        BeforeOrder(last, last, last);
      }
    }
  }

  // Nothing was contributed, or the register is a contribution that none is later than.
  ghost predicate IsLatestOf<V(!new)>(e: Option<Entry<V>>, given: Entry<V> -> bool) {
    && (e.None? ==> forall x :: !given(x))
    && (e.Some? ==> given(e.value) && forall x :: given(x) ==> !Before(e.value, x))
  }

  lemma MaximumIsLatest<V(!new)>(feed: Feed<V>, rs: seq<Report>, e: Option<Entry<V>>, given: Entry<V> -> bool)
    requires IsMaximum(feed, rs, e) && forall x :: given(x) <==> exists r :: r in rs && x in feed(r)
    ensures IsLatestOf(e, given)
  {
    forall x | given(x) ensures e.Some? && !Before(e.value, x) {
      var r :| r in rs && x in feed(r);
      PutAllIsLatest(feed(r));
      if e.Some? {
        var best := Best(feed, r).value;
        BeforeOrder(e.value, x, best);
        BeforeOrder(best, e.value, x);
        BeforeOrder(x, best, e.value);
      }
    }
    if e.Some? {
      var r :| r in rs && Best(feed, r) == e;
      PutAllIsLatest(feed(r));
    }
  }

  // ------------------------------------------------------------------------- theorems

  // The latest attempt is, with its coverage, the last of the attempts of reports that are no
  // replays, by time and report ID.
  lemma LatestAttempt(h: string, rs: seq<Report>)
    requires UniqueIds(rs)
    ensures IsLatestOf(ProjectAll(EMPTY, h, rs).latest, (e: Entry<seq<string>>) => exists r :: r in rs && GivesAttempt(r, e))
  {
    ProjectionIsMaximum(h, rs, Question("", ""));
    var given := (e: Entry<seq<string>>) => exists r :: r in rs && GivesAttempt(r, e);
    forall x ensures given(x) <==> exists r :: r in rs && x in LatestFeed(r) {
      forall r ensures x in LatestFeed(r) <==> GivesAttempt(r, x) { LatestFeedHolds(r, x); }
    }
    MaximumIsLatest(LatestFeed, rs, ProjectAll(EMPTY, h, rs).latest, given);
  }

  // The last positive is the last of the positive reports that are no replays.
  lemma LastPositive(h: string, rs: seq<Report>)
    requires UniqueIds(rs)
    ensures IsLatestOf(ProjectAll(EMPTY, h, rs).positive, (e: Entry<()>) => exists r :: r in rs && GivesPositive(r, e))
  {
    ProjectionIsMaximum(h, rs, Question("", ""));
    var given := (e: Entry<()>) => exists r :: r in rs && GivesPositive(r, e);
    forall x ensures given(x) <==> exists r :: r in rs && x in PositiveFeed(r) {
      forall r ensures x in PositiveFeed(r) <==> GivesPositive(r, x) { PositiveFeedHolds(r, x); }
    }
    MaximumIsLatest(PositiveFeed, rs, ProjectAll(EMPTY, h, rs).positive, given);
  }

  ghost predicate ResponseIn(h: string, rs: seq<Report>, e: Entry<int>) { exists r, o :: r in rs && o in r.observations && GivesResponse(h, r, o, e) }

  // The last HTTP response is the last of the hostname's own responses, the first listed of
  // those at one time.
  lemma LastResponse(h: string, rs: seq<Report>)
    requires UniqueIds(rs)
    ensures IsLatestOf(ProjectAll(EMPTY, h, rs).lastHttp, (e: Entry<int>) => ResponseIn(h, rs, e))
    ensures var e := ProjectAll(EMPTY, h, rs).lastHttp; e.Some? ==> exists r, i :: r in rs && FirstResponse(h, r, r.observations, i, e.value)
  {
    ProjectionIsMaximum(h, rs, Question("", ""));
    var feed := (r: Report) => HttpFeed(h, r);
    forall x ensures ResponseIn(h, rs, x) <==> exists r :: r in rs && x in feed(r) {
      forall r ensures x in feed(r) <==> exists o :: o in r.observations && GivesResponse(h, r, o, x) { HttpFeedHolds(h, r, x); }
    }
    var e := ProjectAll(EMPTY, h, rs).lastHttp;
    MaximumIsLatest(feed, rs, e, (e: Entry<int>) => ResponseIn(h, rs, e));
    if e.Some? {
      var r :| r in rs && Best(feed, r) == e;
      var i := TopIsFirstResponse(h, r, r.observations);
    }
  }

  ghost predicate AnswerIn(h: string, q: Question, rs: seq<Report>, e: Entry<string>) {
    exists r, o :: r in rs && o in r.observations && GivesAnswer(h, q, r, o, e)
  }

  ghost predicate PositiveAnswerIn(h: string, q: Question, rs: seq<Report>, e: Entry<()>) {
    exists r, o :: r in rs && o in r.observations && GivesPositiveAnswer(h, q, r, o, e)
  }

  // A question's latest state is the last of its answers, of whatever outcome, the first
  // listed of those at one time.
  lemma LatestAnswer(h: string, rs: seq<Report>, q: Question)
    requires UniqueIds(rs)
    ensures IsLatestOf(LatestIn(ProjectAll(EMPTY, h, rs).dns, q), (e: Entry<string>) => AnswerIn(h, q, rs, e))
    ensures var e := LatestIn(ProjectAll(EMPTY, h, rs).dns, q); e.Some? ==> exists r, i :: r in rs && FirstAnswer(h, q, r, r.observations, i, e.value)
  {
    ProjectionIsMaximum(h, rs, q);
    var feed := (r: Report) => DnsFeed(h, q, r);
    forall x ensures AnswerIn(h, q, rs, x) <==> exists r :: r in rs && x in feed(r) {
      forall r ensures x in feed(r) <==> exists o :: o in r.observations && GivesAnswer(h, q, r, o, x) { DnsFeedHolds(h, q, r, x); }
    }
    var e := LatestIn(ProjectAll(EMPTY, h, rs).dns, q);
    MaximumIsLatest(feed, rs, e, (e: Entry<string>) => AnswerIn(h, q, rs, e));
    if e.Some? {
      var r :| r in rs && Best(feed, r) == e;
      var i := TopIsFirstAnswer(h, q, r, r.observations);
    }
  }

  // Its last positive state is the last of those answered.
  lemma LastPositiveAnswer(h: string, rs: seq<Report>, q: Question)
    requires UniqueIds(rs)
    ensures IsLatestOf(PositiveIn(ProjectAll(EMPTY, h, rs).dns, q), (e: Entry<()>) => PositiveAnswerIn(h, q, rs, e))
  {
    ProjectionIsMaximum(h, rs, q);
    var feed := (r: Report) => DnsPositiveFeed(h, q, r);
    forall x ensures PositiveAnswerIn(h, q, rs, x) <==> exists r :: r in rs && x in feed(r) {
      forall r ensures x in feed(r) <==> exists o :: o in r.observations && GivesPositiveAnswer(h, q, r, o, x) { DnsPositiveFeedHolds(h, q, r, x); }
    }
    MaximumIsLatest(feed, rs, PositiveIn(ProjectAll(EMPTY, h, rs).dns, q), (e: Entry<()>) => PositiveAnswerIn(h, q, rs, e));
  }

  // ------------------------------------------------ the latest HTTP attempt and descriptions

  // What one report's HTTP attempt is: its last response, the first listed of those at one
  // time; without a response the attempt itself if the report attempted HTTP at all.
  lemma {:induction false} LastResponseOf(h: string, r: Report, observations: seq<Observation>) returns (i: nat, e: Entry<int>)
    requires r.original == "" && exists o, x :: o in observations && GivesResponse(h, r, o, x)
    ensures FirstResponse(h, r, observations, i, e) && LatestHttp(None, h, observations) == Some(HttpAttempt(e.at, Some(e.value)))
    ensures forall o, x :: o in observations && GivesResponse(h, r, o, x) ==> x.at <= e.at
  {
    var n := |observations| - 1;
    var front, o := observations[..n], observations[n];
    assert observations == front + [o];
    LatestHttpOnce(None, h, front);
    if IsResponse(o, h) {
      i, e := n, Entry(o.observedAt, r.id, o.statusCode);
      assert GivesResponse(h, r, observations[n], e);
    }
    if exists p, x :: p in front && GivesResponse(h, r, p, x) {
      var j, f := LastResponseOf(h, r, front);
      if !IsResponse(o, h) || o.observedAt <= f.at {
        i, e := j, f;
        assert forall k :: 0 <= k <= i ==> front[k] == observations[k];
      } else {
        forall k, x | 0 <= k < i && GivesResponse(h, r, observations[k], x) ensures x.at < e.at { assert observations[k] == front[k]; }
      }
    } else {
      assert forall k :: 0 <= k < n ==> observations[k] == front[k];
      if Responded(front, h) {
        var k :| 0 <= k < |front| && IsResponse(front[k], h);
        assert GivesResponse(h, r, front[k], Entry(front[k].observedAt, r.id, front[k].statusCode));
      }
    }
  }

  ghost predicate HasResponse(h: string, r: Report) { exists o, x :: o in r.observations && GivesResponse(h, r, o, x) }

  lemma AttemptMeaning(h: string, r: Report)
    requires r.original == "" && (r.facts.attemptedAt != 0 || r.facts.observedAt != 0)
    ensures HasResponse(h, r) ==> exists i, e :: FirstResponse(h, r, r.observations, i, e) && Attempt(h, r) == Some(HttpAttempt(e.at, Some(e.value)))
                                                 && forall o, x :: o in r.observations && GivesResponse(h, r, o, x) ==> x.at <= e.at
    ensures !HasResponse(h, r) && (r.fullMode || "http" in r.capabilities) ==>
              Attempt(h, r) == Some(HttpAttempt(if r.facts.attemptedAt != 0 then r.facts.attemptedAt else r.facts.observedAt, None))
    ensures !HasResponse(h, r) && !r.fullMode && "http" !in r.capabilities ==> Attempt(h, r) == None
  {
    if HasResponse(h, r) {
      var i, e := LastResponseOf(h, r, r.observations);
      LatestHttpOnce(None, h, r.observations);
    } else if Responded(r.observations, h) {
      var k :| 0 <= k < |r.observations| && IsResponse(r.observations[k], h);
      assert GivesResponse(h, r, r.observations[k], Entry(r.observations[k].observedAt, r.id, r.observations[k].statusCode));
    }
  }

  // What one report does to the description d of a row.
  lemma DescriptionRule(row: Row, h: string, r: Report)
    ensures var n := Project(row, h, r).description; var f := r.facts;
            var own := Some(Described(f.observedAt, r.classifiedAt, r.id, f.format));
            && (row.description.None? ==> n == own)
            && (row.description.Some? ==>
                  var d := row.description.value;
                  && (f.positive && (f.observedAt > d.at || (f.observedAt == d.at && Less(d.report, r.id))) ==> n == own)
                  && (d.report == r.id && d.format != f.format ==> n == own)
                  && (r.original != "" && f.observedAt == d.at && r.classifiedAt > d.classifiedAt ==> n == own)
                  && (d.report != r.id && !f.positive && (r.original == "" || f.observedAt != d.at || r.classifiedAt <= d.classifiedAt) ==> n == row.description)
                  && (d.report != r.id && f.observedAt < d.at ==> n == row.description)
                  && (d == own.value ==> n == row.description))
  {
    NextDescription(row, h, r);
    Irreflexive(r.id);
  }

  // A positive report after which no other was observed, and no replay of the same time was
  // classified later, describes the context whatever the order of arrival.
  lemma LatestPositiveDescribes(h: string, rs: seq<Report>, w: Report)
    requires UniqueIds(rs) && w in rs && w.facts.positive
    requires forall r :: r in rs && r != w ==>
               && (r.facts.observedAt < w.facts.observedAt || (r.facts.observedAt == w.facts.observedAt && Less(r.id, w.id)))
               && (r.original != "" && r.facts.observedAt == w.facts.observedAt ==> r.classifiedAt <= w.classifiedAt)
    ensures ProjectAll(EMPTY, h, rs).description == Some(Described(w.facts.observedAt, w.classifiedAt, w.id, w.facts.format))
  {
    forall r | r in rs && r != w ensures Takes(DescribedBy(r), w) && !Takes(DescribedBy(w), r) {
      SameId(rs, r, w);
      if Less(r.id, w.id) {
        Asymmetric(r.id, w.id);
      }
    }
    WinnerEnds(h, rs, rs, w);
  }
}
