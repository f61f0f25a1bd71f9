// Job.query: a single-flight cache whose answers expire with their records. Each lock body,
// resolver return and wakeup is one step.
module DnsCache {
  import opened Options

  type Time = nat
  type Caller = nat
  type EntryId = nat
  type Question = string

  datatype Outcome = Answered | NoData | NxDomain | OtherOutcome
  // ttls: the TTL of each record, 0 when its payload cannot be decoded.
  datatype Reply = Reply(failed: bool, outcome: Outcome, negativeTtl: nat, ttls: seq<nat>)

  // ---------------------------------------------------------------- time to live

  function Least(ttls: seq<nat>): nat
    requires ttls != []
  {
    if |ttls| == 1 then ttls[0]
    else
      var rest := Least(ttls[..|ttls| - 1]);
      if ttls[|ttls| - 1] < rest then ttls[|ttls| - 1] else rest
  }

  lemma {:induction false} LeastIsMinimum(ttls: seq<nat>)
    requires ttls != []
    ensures Least(ttls) in ttls && forall i :: 0 <= i < |ttls| ==> Least(ttls) <= ttls[i]
  {
    if |ttls| > 1 {
      LeastIsMinimum(ttls[..|ttls| - 1]);
    }
  }

  function CacheTtl(r: Reply): nat {
    if r.failed then 0
    else match r.outcome
      case NoData => r.negativeTtl
      case NxDomain => r.negativeTtl
      case Answered => if r.ttls == [] then 0 else Least(r.ttls)
      case OtherOutcome => 0
  }

  // cacheTTL's loop: it stops at the first record without a TTL.
  method ComputeTtl(r: Reply) returns (ttl: nat)
    ensures ttl == CacheTtl(r)
  {
    if r.failed {
      return 0;
    }
    match r.outcome
    case NoData => return r.negativeTtl;
    case NxDomain => return r.negativeTtl;
    case OtherOutcome => return 0;
    case Answered =>
      ttl := 0;
      for i := 0 to |r.ttls|
        invariant i == 0 ==> ttl == 0
        invariant i > 0 ==> ttl == Least(r.ttls[..i]) && ttl > 0
      {
        assert r.ttls[..i + 1][..i] == r.ttls[..i];
        if r.ttls[i] == 0 {
          LeastIsMinimum(r.ttls);
          return 0;
        }
        if ttl == 0 || r.ttls[i] < ttl {
          ttl := r.ttls[i];
        }
      }
      assert r.ttls[..|r.ttls|] == r.ttls;
  }

  // -------------------------------------------------------------------- the cache

  // A finished entry. publishedAt is auxiliary: when it was stored and its channel closed.
  datatype Done = Done(question: Question, reply: Reply, observedAt: Time, expiresAt: Option<Time>, publishedAt: Time)
  // leader is auxiliary: the caller that created the entry.
  datatype Entry = Entry(question: Question, leader: Caller, done: Option<Done>)

  datatype Phase =
    | Asking                                                       // about to take the lock
    | Leading(entry: EntryId)                                      // its resolver call is outstanding
    | Resolved(entry: EntryId, reply: Reply, observedAt: Time)     // the resolver returned
    | Joined(entry: EntryId, behind: bool)                         // waiting; behind: the reply came before the call began
    | Returned(answer: Done, at: Time, joinedBehind: bool)
    | Refused
    | Abandoned
  datatype Call = Call(question: Question, began: Time, phase: Phase)

  datatype System = System(limit: nat, clock: Time, used: nat, queries: map<Question, EntryId>, entries: map<EntryId, Entry>,
                           calls: map<Caller, Call>)

  function Start(limit: nat): System { System(limit, 0, 0, map[], map[], map[]) }

  function Expiry(r: Reply, observedAt: Time): Option<Time> { if CacheTtl(r) > 0 then Some(observedAt + CacheTtl(r)) else None }

  predicate Expired(d: Done, now: Time) { d.expiresAt.None? || d.expiresAt.value <= now }

  datatype Step =
    | Begin(c: Caller, q: Question)
    | Look(c: Caller, made: EntryId)
    | Resolve(c: Caller, reply: Reply)
    | Publish(c: Caller)
    | Wake(c: Caller)
    | GiveUp(c: Caller)
    | Tick(amount: nat)

  function To(s: System, c: Caller, phase: Phase): System
    requires c in s.calls
  {
    s.(calls := s.calls[c := s.calls[c].(phase := phase)])
  }

  predicate LeaderResolved(s: System, e: EntryId) {
    e in s.entries && s.entries[e].leader in s.calls && s.calls[s.entries[e].leader].phase.Resolved?
  }

  // The entry's resolver call had already returned when the caller's call began.
  predicate Behind(s: System, c: Caller, e: EntryId)
    requires c in s.calls
  {
    LeaderResolved(s, e) && s.calls[s.entries[e].leader].phase.observedAt < s.calls[c].began
  }

  // The body of query's loop under the lock.
  function LookUp(s: System, c: Caller, made: EntryId): System
    requires c in s.calls
  {
    var q := s.calls[c].question;
    if q in s.queries && s.queries[q] in s.entries then
      var e := s.queries[q];
      var done := s.entries[e].done;
      if done.None? then To(s, c, Joined(e, Behind(s, c, e)))
      else if Expired(done.value, s.clock) then s.(queries := s.queries - {q})
      else To(s, c, Returned(done.value, s.clock, false))
    else if s.used >= s.limit then To(s, c, Refused)
    else To(s, c, Leading(made)).(queries := s.queries[q := made], entries := s.entries[made := Entry(q, c, None)], used := s.used + 1)
  }

  predicate Enabled(s: System, step: Step) {
    match step
    case Begin(c, _) => c !in s.calls
    case Look(c, made) => c in s.calls && s.calls[c].phase.Asking? && made !in s.entries
    case Resolve(c, _) => c in s.calls && s.calls[c].phase.Leading?
    case Publish(c) => c in s.calls && s.calls[c].phase.Resolved?
    case Wake(c) => c in s.calls && s.calls[c].phase.Joined? && s.calls[c].phase.entry in s.entries
                    && s.entries[s.calls[c].phase.entry].done.Some?
    case GiveUp(c) => c in s.calls && (s.calls[c].phase.Asking? || s.calls[c].phase.Joined?)
    case Tick(_) => true
  }

  function Finished(s: System, c: Caller): Done
    requires c in s.calls && s.calls[c].phase.Resolved?
  {
    var p := s.calls[c].phase;
    Done(s.calls[c].question, p.reply, p.observedAt, Expiry(p.reply, p.observedAt), s.clock)
  }

  function Published(s: System, c: Caller): System
    requires c in s.calls && s.calls[c].phase.Resolved?
  {
    var e := s.calls[c].phase.entry;
    To(s, c, Returned(Finished(s, c), s.clock, false)).(entries := s.entries[e := Entry(s.calls[c].question, c, Some(Finished(s, c)))])
  }

  function Next(s: System, step: Step): System
    requires Enabled(s, step)
  {
    match step
    case Begin(c, q) => s.(calls := s.calls[c := Call(q, s.clock, Asking)])
    case Look(c, made) => LookUp(s, c, made)
    case Resolve(c, reply) => To(s, c, Resolved(s.calls[c].phase.entry, reply, s.clock))
    case Publish(c) => Published(s, c)
    case Wake(c) => To(s, c, Returned(s.entries[s.calls[c].phase.entry].done.value, s.clock, s.calls[c].phase.behind))
    case GiveUp(c) => To(s, c, Abandoned)
    case Tick(amount) => s.(clock := s.clock + amount)
  }

  predicate Reaches(s: System, steps: seq<Step>, n: System)
    decreases |steps|
  {
    if steps == [] then n == s else Enabled(s, steps[0]) && Reaches(Next(s, steps[0]), steps[1..], n)
  }

  // -------------------------------------------------------------------- invariant

  // An entry being led is the one its question maps to, and it is unfinished.
  predicate Leads(s: System, c: Caller, e: EntryId)
    requires c in s.calls
  {
    var q := s.calls[c].question;
    q in s.queries && s.queries[q] == e && e in s.entries && s.entries[e] == Entry(q, c, None)
  }

  // Published after the call began or unexpired; and, unless the caller joined behind, the
  // resolver returned after it began or the answer is unexpired.
  predicate FreshFor(began: Time, behind: bool, d: Done, at: Time) {
    && (d.publishedAt >= began || !Expired(d, at))
    && (!behind ==> d.observedAt >= began || !Expired(d, at))
    && (behind ==> d.observedAt < began)
  }

  predicate CallRight(s: System, c: Caller) {
    c in s.calls ==>
      var k := s.calls[c];
      && k.began <= s.clock
      && match k.phase
         case Leading(e) => Leads(s, c, e)
         case Resolved(e, _, at) => Leads(s, c, e) && k.began <= at <= s.clock
         case Joined(e, behind) => JoinRight(s, c, e, behind)
         case Returned(d, at, behind) => d.question == k.question && k.began <= at <= s.clock && FreshFor(k.began, behind, d, at)
         case _ => true
  }

  // A waiting caller will get something finished after it began.
  predicate JoinRight(s: System, c: Caller, e: EntryId, behind: bool)
    requires c in s.calls
  {
    && e in s.entries && s.entries[e].question == s.calls[c].question
    && (s.entries[e].done.Some? ==> s.entries[e].done.value.publishedAt >= s.calls[c].began
                                    && (behind <==> s.entries[e].done.value.observedAt < s.calls[c].began))
    && (s.entries[e].done.None? ==> (behind <==> Behind(s, c, e)))
  }

  predicate EntryRight(s: System, e: EntryId) {
    e in s.entries ==>
      var x := s.entries[e];
      && x.leader in s.calls
      && (x.done.None? ==> (s.calls[x.leader].phase.Leading? || s.calls[x.leader].phase.Resolved?) && s.calls[x.leader].phase.entry == e)
      && (x.done.Some? ==> x.done.value.question == x.question && x.done.value.expiresAt == Expiry(x.done.value.reply, x.done.value.observedAt)
                           && x.done.value.observedAt <= x.done.value.publishedAt <= s.clock)
  }

  predicate QueryRight(s: System, q: Question) { q in s.queries ==> s.queries[q] in s.entries && s.entries[s.queries[q]].question == q }

  ghost predicate CallsRight(s: System) { forall c :: CallRight(s, c) }
  ghost predicate EntriesRight(s: System) { forall e :: EntryRight(s, e) }
  ghost predicate QueriesRight(s: System) { forall q :: QueryRight(s, q) }

  ghost predicate Inv(s: System) { CallsRight(s) && EntriesRight(s) && QueriesRight(s) && |s.entries| == s.used <= s.limit }

  // -------------------------------------------------------------- what a step keeps

  lemma LookCalls(s: System, c: Caller, made: EntryId)
    requires Inv(s) && Enabled(s, Look(c, made))
    ensures CallsRight(LookUp(s, c, made))
  {
    var n := LookUp(s, c, made);
    var q := s.calls[c].question;
    assert QueryRight(s, q) && CallRight(s, c);
    forall b ensures CallRight(n, b) {
      assert CallRight(s, b);
      LookOther(s, c, made, b);
    }
  }

  lemma LookOther(s: System, c: Caller, made: EntryId, b: Caller)
    requires Inv(s) && Enabled(s, Look(c, made)) && CallRight(s, b)
    ensures CallRight(LookUp(s, c, made), b)
  {
    var q := s.calls[c].question;
    assert QueryRight(s, q) && CallRight(s, c);
    if q in s.queries {
      assert EntryRight(s, s.queries[q]);
    }
    if b in s.calls && s.calls[b].phase.Joined? {
      assert EntryRight(s, s.calls[b].phase.entry);
      LookJoined(s, c, made, b);
    }
  }

  lemma LookJoined(s: System, c: Caller, made: EntryId, b: Caller)
    requires Inv(s) && Enabled(s, Look(c, made)) && b in s.calls && s.calls[b].phase.Joined? && CallRight(s, b)
    ensures LookUp(s, c, made).calls[b] == s.calls[b] && JoinRight(LookUp(s, c, made), b, s.calls[b].phase.entry, s.calls[b].phase.behind)
  {
  }

  lemma LookEntries(s: System, c: Caller, made: EntryId)
    requires Inv(s) && Enabled(s, Look(c, made))
    ensures EntriesRight(LookUp(s, c, made))
  {
    var n := LookUp(s, c, made);
    assert QueryRight(s, s.calls[c].question);
    forall e ensures EntryRight(n, e) { assert EntryRight(s, e); }
  }

  lemma LookRest(s: System, c: Caller, made: EntryId)
    requires Inv(s) && Enabled(s, Look(c, made))
    ensures QueriesRight(LookUp(s, c, made))
    ensures |LookUp(s, c, made).entries| == LookUp(s, c, made).used <= s.limit
  {
    var n := LookUp(s, c, made);
    assert QueryRight(s, s.calls[c].question);
    forall q ensures QueryRight(n, q) { assert QueryRight(s, q); }
  }

  lemma PublishCalls(s: System, c: Caller)
    requires Inv(s) && Enabled(s, Publish(c))
    ensures CallsRight(Published(s, c))
  {
    var n := Published(s, c);
    assert CallRight(s, c);
    forall b ensures CallRight(n, b) {
      assert CallRight(s, b);
      PublishOther(s, c, b);
    }
  }

  lemma PublishOther(s: System, c: Caller, b: Caller)
    requires Inv(s) && Enabled(s, Publish(c)) && CallRight(s, b)
    ensures CallRight(Published(s, c), b)
  {
    assert CallRight(s, c) && EntryRight(s, s.calls[c].phase.entry);
    if b in s.calls && s.calls[b].phase.Joined? {
      assert EntryRight(s, s.calls[b].phase.entry);
    }
  }

  lemma PublishRest(s: System, c: Caller)
    requires Inv(s) && Enabled(s, Publish(c))
    ensures EntriesRight(Published(s, c)) && QueriesRight(Published(s, c))
    ensures |Published(s, c).entries| == s.used
  {
    var n := Published(s, c);
    assert CallRight(s, c);
    forall e ensures EntryRight(n, e) { assert EntryRight(s, e); }
    forall q ensures QueryRight(n, q) { assert QueryRight(s, q); }
    assert n.entries.Keys == s.entries.Keys && |n.entries| == |n.entries.Keys| && |s.entries| == |s.entries.Keys|;
  }

  // The steps that move one caller or the clock and no table.
  lemma QuietCalls(s: System, step: Step)
    requires Inv(s) && Enabled(s, step) && !step.Look? && !step.Publish?
    ensures CallsRight(Next(s, step))
  {
    var n := Next(s, step);
    forall b ensures CallRight(n, b) {
      assert CallRight(s, b);
      QuietOther(s, step, b);
    }
  }

  lemma QuietOther(s: System, step: Step, b: Caller)
    requires Inv(s) && Enabled(s, step) && !step.Look? && !step.Publish? && CallRight(s, b)
    ensures CallRight(Next(s, step), b)
  {
    if !step.Tick? && !step.Begin? {
      assert CallRight(s, step.c);
    }
    if b in s.calls && s.calls[b].phase.Joined? {
      assert EntryRight(s, s.calls[b].phase.entry);
    }
  }

  lemma QuietEntries(s: System, step: Step)
    requires Inv(s) && Enabled(s, step) && !step.Look? && !step.Publish?
    ensures EntriesRight(Next(s, step)) && QueriesRight(Next(s, step))
  {
    var n := Next(s, step);
    forall e ensures EntryRight(n, e) {
      assert EntryRight(s, e);
      if e in s.entries {
        assert CallRight(s, s.entries[e].leader);
      }
    }
    forall q ensures QueryRight(n, q) { assert QueryRight(s, q); }
  }

  lemma NextKeeps(s: System, step: Step)
    requires Inv(s) && Enabled(s, step)
    ensures Inv(Next(s, step)) && Next(s, step).limit == s.limit
  {
    match step
    case Look(c, made) =>
      LookCalls(s, c, made);
      LookEntries(s, c, made);
      LookRest(s, c, made);
    case Publish(c) =>
      PublishCalls(s, c);
      PublishRest(s, c);
    case _ =>
      QuietCalls(s, step);
      QuietEntries(s, step);
  }

  lemma {:induction false} RunKeeps(s: System, steps: seq<Step>, n: System)
    requires Inv(s) && Reaches(s, steps, n)
    ensures Inv(n) && n.limit == s.limit
    decreases |steps|
  {
    if steps != [] {
      NextKeeps(s, steps[0]);
      RunKeeps(Next(s, steps[0]), steps[1..], n);
    }
  }

  // --------------------------------------------------------------------- theorems

  // By the resolver's return: it came after the call began, or the answer had not expired.
  predicate FreshByReturn(k: Call)
    requires k.phase.Returned?
  {
    k.phase.answer.observedAt >= k.began || !Expired(k.phase.answer, k.phase.at)
  }

  // Every answer a call returns is one for its question that was published after the call
  // began or had not expired when it was returned. Measured by the resolver's return, it is
  // fresh exactly when the call did not join behind a finished resolver call or the answer
  // outlived the wait.
  lemma AnswersAreFresh(limit: nat, steps: seq<Step>, s: System, c: Caller)
    requires Reaches(Start(limit), steps, s) && c in s.calls && s.calls[c].phase.Returned?
    ensures var k := s.calls[c]; var d := k.phase.answer;
            && d.question == k.question
            && (d.publishedAt >= k.began || !Expired(d, k.phase.at))
            && (FreshByReturn(k) <==> !k.phase.joinedBehind || !Expired(d, k.phase.at))
  {
    RunKeeps(Start(limit), steps, s);
    assert CallRight(s, c);
  }

  // A waiting caller keeps waiting on its entry, or returns or gives up for good.
  predicate Follows(s: System, n: System, c: Caller)
    requires c in s.calls
  {
    && c in n.calls && n.calls[c].began == s.calls[c].began
    && match s.calls[c].phase
       case Joined(e, behind) =>
         n.calls[c].phase == Joined(e, behind) || n.calls[c].phase == Abandoned
         || (n.calls[c].phase.Returned? && n.calls[c].phase.joinedBehind == behind)
       case Returned(_, _, _) => n.calls[c] == s.calls[c]
       case Abandoned => n.calls[c] == s.calls[c]
       case _ => true
  }

  lemma {:induction false} RunFollows(s: System, steps: seq<Step>, n: System, c: Caller)
    requires Reaches(s, steps, n) && c in s.calls
    ensures Follows(s, n, c)
    decreases |steps|
  {
    if steps != [] {
      StepFollows(s, steps[0], c);
      RunFollows(Next(s, steps[0]), steps[1..], n, c);
    }
  }

  lemma StepFollows(s: System, step: Step, c: Caller)
    requires Enabled(s, step) && c in s.calls
    ensures Follows(s, Next(s, step), c)
  {
  }

  // Everything the caller may still be given is fresh by the resolver's return.
  ghost predicate AlwaysFresh(s: System, c: Caller) {
    forall steps, n :: Reaches(s, steps, n) && c in n.calls && n.calls[c].phase.Returned? ==> FreshByReturn(n.calls[c])
  }

  // A caller waiting on an unfinished entry is safe from stale answers exactly when the
  // entry's resolver call had not returned before its own call began.
  lemma WaitIsFreshUnlessBehind(limit: nat, before: seq<Step>, s: System, c: Caller)
    requires Reaches(Start(limit), before, s) && c in s.calls && s.calls[c].phase.Joined?
    requires s.calls[c].phase.entry in s.entries && s.entries[s.calls[c].phase.entry].done.None?
    ensures AlwaysFresh(s, c) <==> !Behind(s, c, s.calls[c].phase.entry)
  {
    RunKeeps(Start(limit), before, s);
    assert CallRight(s, c);
    if Behind(s, c, s.calls[c].phase.entry) {
      BehindCanBeStale(s, c);
    } else {
      forall steps, n | Reaches(s, steps, n) && c in n.calls && n.calls[c].phase.Returned? ensures FreshByReturn(n.calls[c]) {
        RunFollows(s, steps, n, c);
        RunKeeps(s, steps, n);
        assert CallRight(n, c);
      }
    }
  }

  // The leader outlasts the answer's life, publishes and wakes the caller.
  lemma BehindCanBeStale(s: System, c: Caller)
    requires Inv(s) && c in s.calls && s.calls[c].phase.Joined? && s.calls[c].phase.entry in s.entries
    requires s.entries[s.calls[c].phase.entry].done.None? && Behind(s, c, s.calls[c].phase.entry)
    ensures !AlwaysFresh(s, c)
  {
    var e := s.calls[c].phase.entry;
    var leader := s.entries[e].leader;
    assert CallRight(s, leader) && EntryRight(s, e);
    var reply := s.calls[leader].phase.reply;
    var s1 := Next(s, Tick(CacheTtl(reply)));
    var s2 := Next(s1, Publish(leader));
    var s3 := Next(s2, Wake(c));
    var steps := Prepend(s2, Wake(c), [], s3);
    steps := Prepend(s1, Publish(leader), steps, s3);
    steps := Prepend(s, Tick(CacheTtl(reply)), steps, s3);
    assert !FreshByReturn(s3.calls[c]);
  }

  // At most one resolver call per question is outstanding.
  lemma SingleFlight(limit: nat, steps: seq<Step>, s: System, a: Caller, b: Caller)
    requires Reaches(Start(limit), steps, s) && a in s.calls && b in s.calls
    requires s.calls[a].phase.Leading? && s.calls[b].phase.Leading? && s.calls[a].question == s.calls[b].question
    ensures a == b
  {
    RunKeeps(Start(limit), steps, s);
    assert CallRight(s, a) && CallRight(s, b);
  }

  // Every resolver call made its own entry, and there are never more than the limit.
  lemma CallsWithinLimit(limit: nat, steps: seq<Step>, s: System)
    requires Reaches(Start(limit), steps, s)
    ensures |s.entries| == s.used <= limit
    ensures forall c :: c in s.calls && s.calls[c].phase.Leading? ==> s.calls[c].phase.entry in s.entries
  {
    RunKeeps(Start(limit), steps, s);
    forall c | c in s.calls && s.calls[c].phase.Leading? ensures s.calls[c].phase.entry in s.entries { assert CallRight(s, c); }
  }

  // A finished entry never outlives its records: it expires with the least TTL.
  lemma ExpiryIsTtl(limit: nat, steps: seq<Step>, s: System, e: EntryId)
    requires Reaches(Start(limit), steps, s) && e in s.entries && s.entries[e].done.Some?
    ensures var d := s.entries[e].done.value;
            (d.expiresAt.Some? <==> CacheTtl(d.reply) > 0) && (d.expiresAt.Some? ==> d.expiresAt.value == d.observedAt + CacheTtl(d.reply))
  {
    RunKeeps(Start(limit), steps, s);
    assert EntryRight(s, e);
  }

  const REPLY := Reply(false, OtherOutcome, 0, [])

  // It happens: a caller that arrives between the resolver's return and the publication waits
  // for it and gets an answer that was already expired and observed before the caller began.
  lemma JoinBehind(limit: nat, q: Question)
    requires limit > 0
    ensures exists steps, s ::
              && Reaches(Start(limit), steps, s) && 1 in s.calls && s.calls[1].phase.Returned?
              && s.calls[1].phase.answer.observedAt < s.calls[1].began && Expired(s.calls[1].phase.answer, s.calls[1].phase.at)
  {
    var s0 := Start(limit);
    var s1 := Next(s0, Begin(0, q));
    var s2 := Next(s1, Look(0, 0));
    var s3 := Next(s2, Resolve(0, REPLY));
    var s4 := Next(s3, Tick(1));
    var s5 := Next(s4, Begin(1, q));
    var s6 := Next(s5, Look(1, 1));
    var s7 := Next(s6, Publish(0));
    var s8 := Next(s7, Wake(1));
    var steps := Prepend(s7, Wake(1), [], s8);
    steps := Prepend(s6, Publish(0), steps, s8);
    steps := Prepend(s5, Look(1, 1), steps, s8);
    steps := Prepend(s4, Begin(1, q), steps, s8);
    steps := Prepend(s3, Tick(1), steps, s8);
    steps := Prepend(s2, Resolve(0, REPLY), steps, s8);
    steps := Prepend(s1, Look(0, 0), steps, s8);
    steps := Prepend(s0, Begin(0, q), steps, s8);
  }

  lemma Prepend(s: System, step: Step, rest: seq<Step>, n: System) returns (steps: seq<Step>)
    requires Enabled(s, step) && Reaches(Next(s, step), rest, n)
    ensures Reaches(s, steps, n)
  {
    steps := [step] + rest;
    assert steps[1..] == rest;
  }
}
