// What the cache is for: within an answer's life a question is not resolved again, and every
// waiter gets the leader's reply.
module DnsEffects {
  import opened Options
  import opened DnsCache

  // How long a reply is cached: a failure and other outcomes not at all, a negative reply for
  // its negative TTL, an answer for the least TTL of its records.
  lemma TtlMeaning(r: Reply)
    ensures r.failed || r.outcome == OtherOutcome ==> CacheTtl(r) == 0
    ensures !r.failed && (r.outcome == NoData || r.outcome == NxDomain) ==> CacheTtl(r) == r.negativeTtl
    ensures !r.failed && r.outcome == Answered && r.ttls == [] ==> CacheTtl(r) == 0
    ensures !r.failed && r.outcome == Answered && r.ttls != [] ==> CacheTtl(r) in r.ttls && forall i :: 0 <= i < |r.ttls| ==> CacheTtl(r) <= r.ttls[i]
  {
    if r.ttls != [] {
      LeastIsMinimum(r.ttls);
    }
  }

  // The question's current answer.
  predicate Holds(s: System, q: Question, d: Done) {
    q in s.queries && s.queries[q] in s.entries && s.entries[s.queries[q]].done == Some(d)
  }

  predicate Unfinished(s: System, q: Question) { q in s.queries && s.queries[q] in s.entries && s.entries[s.queries[q]].done.None? }

  // What one pass decides, in every reachable state: an answer that has not expired is
  // returned, an unfinished one is waited for, an expired one is dropped, and a question
  // without an entry is resolved by this caller while calls are left and refused otherwise.
  lemma LookDecides(limit: nat, steps: seq<Step>, s: System, c: Caller, made: EntryId)
    requires Reaches(Start(limit), steps, s) && Enabled(s, Look(c, made))
    ensures var n := Next(s, Look(c, made)); var q := s.calls[c].question;
            && (forall d :: Holds(s, q, d) && d.expiresAt.Some? && s.clock < d.expiresAt.value ==>
                  n == s.(calls := s.calls[c := s.calls[c].(phase := Returned(d, s.clock, false))]))
            && (forall d :: Holds(s, q, d) && (d.expiresAt.None? || d.expiresAt.value <= s.clock) ==> n == s.(queries := s.queries - {q}))
            && (Unfinished(s, q) ==> n.calls[c].phase.Joined? && n.calls[c].phase.entry == s.queries[q] && n.used == s.used && n.entries == s.entries)
            && (q !in s.queries && |s.entries| >= limit ==> n == s.(calls := s.calls[c := s.calls[c].(phase := Refused)]))
            && (q !in s.queries && |s.entries| < limit ==>
                  && n.calls[c].phase == Leading(made) && n.queries == s.queries[q := made]
                  && n.entries == s.entries[made := Entry(q, c, None)] && n.used == s.used + 1)
  {
    RunKeeps(Start(limit), steps, s);
    assert QueryRight(s, s.calls[c].question);
  }

  // The leader's publication makes its reply the current answer of the question.
  lemma PublicationStores(limit: nat, steps: seq<Step>, s: System, c: Caller)
    requires Reaches(Start(limit), steps, s) && Enabled(s, Publish(c))
    ensures var n := Next(s, Publish(c)); var p := s.calls[c].phase; var q := s.calls[c].question;
            exists d :: && Holds(n, q, d) && d.question == q && d.reply == p.reply && d.observedAt == p.observedAt && d.publishedAt == s.clock
                        && n.calls[c].phase == Returned(d, s.clock, false) && n.entries.Keys == s.entries.Keys && n.used == s.used
  {
    RunKeeps(Start(limit), steps, s);
    assert CallRight(s, c);
    assert Holds(Next(s, Publish(c)), s.calls[c].question, Finished(s, c));
  }

  // -------------------------------------------------------- one resolver call per life

  lemma HeldStays(s: System, step: Step, q: Question, d: Done)
    requires Inv(s) && Enabled(s, step) && Holds(s, q, d) && d.expiresAt.Some? && Next(s, step).clock < d.expiresAt.value
    ensures Holds(Next(s, step), q, d) && Next(s, step).queries[q] == s.queries[q]
  {
    if step.Publish? {
      assert CallRight(s, step.c);
    }
  }

  lemma ClockAdvances(s: System, step: Step)
    requires Enabled(s, step)
    ensures Next(s, step).clock >= s.clock
  {
  }

  lemma {:induction false} RunClock(s: System, steps: seq<Step>, n: System)
    requires Reaches(s, steps, n)
    ensures n.clock >= s.clock
    decreases |steps|
  {
    if steps != [] {
      ClockAdvances(s, steps[0]);
      RunClock(Next(s, steps[0]), steps[1..], n);
    }
  }

  lemma {:induction false} RunHolds(s: System, steps: seq<Step>, n: System, q: Question, d: Done)
    requires Inv(s) && Reaches(s, steps, n) && Holds(s, q, d) && d.expiresAt.Some? && n.clock < d.expiresAt.value
    ensures Holds(n, q, d) && n.queries[q] == s.queries[q]
    decreases |steps|
  {
    if steps != [] {
      var m := Next(s, steps[0]);
      RunClock(m, steps[1..], n);
      NextKeeps(s, steps[0]);
      HeldStays(s, steps[0], q, d);
      RunHolds(m, steps[1..], n, q, d);
    }
  }

  // An answer with a TTL is reused: whatever happens between its publication and its expiry,
  // a call that looks then gets exactly it, no resolver call is made for it, and nobody leads
  // the question.
  lemma AnswerIsReused(limit: nat, before: seq<Step>, s: System, c: Caller, after: seq<Step>, n: System, b: Caller, made: EntryId)
    requires Reaches(Start(limit), before, s) && Enabled(s, Publish(c)) && Reaches(Next(s, Publish(c)), after, n)
    requires CacheTtl(s.calls[c].phase.reply) > 0 && n.clock < s.calls[c].phase.observedAt + CacheTtl(s.calls[c].phase.reply)
    requires Enabled(n, Look(b, made)) && n.calls[b].question == s.calls[c].question
    ensures var d := Next(s, Publish(c)).calls[c].phase.answer;
            Next(n, Look(b, made)) == n.(calls := n.calls[b := n.calls[b].(phase := Returned(d, n.clock, false))]) && d.reply == s.calls[c].phase.reply
    ensures forall a :: a in n.calls && n.calls[a].question == s.calls[c].question ==> !n.calls[a].phase.Leading?
  {
    RunKeeps(Start(limit), before, s);
    var q := s.calls[c].question;
    var m := Next(s, Publish(c));
    var d := Finished(s, c);
    assert CallRight(s, c);
    NextKeeps(s, Publish(c));
    RunHolds(m, after, n, q, d);
    RunKeeps(m, after, n);
    forall a | a in n.calls && n.calls[a].question == q ensures !n.calls[a].phase.Leading? { assert CallRight(n, a); }
  }

  // ------------------------------------------------------------ waiters get the reply

  // A finished entry is never changed.
  lemma FinishedStays(s: System, step: Step, e: EntryId)
    requires Inv(s) && Enabled(s, step) && e in s.entries && s.entries[e].done.Some?
    ensures e in Next(s, step).entries && Next(s, step).entries[e] == s.entries[e]
  {
    if step.Publish? {
      assert CallRight(s, step.c);
    }
  }

  // The caller waits for the entry, has given up, or was given the answer.
  predicate Served(s: System, b: Caller, e: EntryId, d: Done) {
    && e in s.entries && s.entries[e].done == Some(d) && b in s.calls
    && ((s.calls[b].phase.Joined? && s.calls[b].phase.entry == e) || s.calls[b].phase.Abandoned?
        || (s.calls[b].phase.Returned? && s.calls[b].phase.answer == d))
  }

  lemma {:induction false} RunServes(s: System, steps: seq<Step>, n: System, b: Caller, e: EntryId, d: Done)
    requires Inv(s) && Reaches(s, steps, n) && Served(s, b, e, d)
    ensures Served(n, b, e, d)
    decreases |steps|
  {
    if steps != [] {
      NextKeeps(s, steps[0]);
      FinishedStays(s, steps[0], e);
      StepServes(s, steps[0], b, e, d);
      RunServes(Next(s, steps[0]), steps[1..], n, b, e, d);
    }
  }

  lemma StepServes(s: System, step: Step, b: Caller, e: EntryId, d: Done)
    requires Enabled(s, step) && Served(s, b, e, d) && e in Next(s, step).entries && Next(s, step).entries[e] == s.entries[e]
    ensures Served(Next(s, step), b, e, d)
  {
  }

  // Whoever waits for an entry when its leader publishes can return, and whatever happens
  // until it does, what it returns is the leader's reply.
  lemma WaitersGetTheReply(limit: nat, before: seq<Step>, s: System, c: Caller, b: Caller, after: seq<Step>, n: System)
    requires Reaches(Start(limit), before, s) && Enabled(s, Publish(c)) && b in s.calls
    requires s.calls[b].phase.Joined? && s.calls[b].phase.entry == s.calls[c].phase.entry
    requires Reaches(Next(s, Publish(c)), after, n)
    ensures Enabled(Next(s, Publish(c)), Wake(b))
    ensures b in n.calls && (n.calls[b].phase.Returned? ==> n.calls[b].phase.answer.reply == s.calls[c].phase.reply)
    ensures n.calls[b].phase.Returned? || n.calls[b].phase.Abandoned? || Enabled(n, Wake(b))
  {
    RunKeeps(Start(limit), before, s);
    assert CallRight(s, c);
    NextKeeps(s, Publish(c));
    RunServes(Next(s, Publish(c)), after, n, b, s.calls[c].phase.entry, Finished(s, c));
  }
}
