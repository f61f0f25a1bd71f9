// The lock bodies of Job.query, as methods over the job's cache.
module DnsJob {
  import opened Options
  import opened DnsCache

  datatype Decision = Hit(answer: Done) | Wait(entry: EntryId) | Again | Exhausted | Lead(entry: EntryId)

  // The caller's next phase after a decision.
  ghost function PhaseAfter(s: System, c: Caller, d: Decision): Phase
    requires c in s.calls
  {
    match d
    case Hit(answer) => Returned(answer, s.clock, false)
    case Wait(e) => Joined(e, Behind(s, c, e))
    case Again => Asking
    case Exhausted => Refused
    case Lead(e) => Leading(e)
  }

  class Job {
    const limit: nat
    var used: nat
    var queries: map<Question, EntryId>
    var entries: map<EntryId, Entry>

    ghost function View(clock: Time, calls: map<Caller, Call>): System
      reads this
    {
      System(limit, clock, used, queries, entries, calls)
    }

    // A limit that is not positive means the default of 512 questions.
    constructor (limit: int)
      ensures this.limit == if limit <= 0 then 512 else limit
      ensures View(0, map[]) == Start(this.limit)
    {
      this.limit := if limit <= 0 then 512 else limit;
      used, queries, entries := 0, map[], map[];
    }

    // One pass of query's loop: a fresh hit, an entry to wait for, an expired entry dropped,
    // a refusal, or a new entry this caller must resolve.
    method LookOnce(c: Caller, question: Question, made: EntryId, now: Time, ghost calls: map<Caller, Call>) returns (d: Decision)
      requires made !in entries && c in calls && calls[c].question == question && calls[c].phase.Asking?
      requires question in queries ==> queries[question] in entries
      modifies this`used, this`queries, this`entries
      ensures View(now, calls[c := calls[c].(phase := PhaseAfter(old(View(now, calls)), c, d))]) == LookUp(old(View(now, calls)), c, made)
    {
      if question in queries {
        var e := queries[question];
        if entries[e].done.Some? {
          if Expired(entries[e].done.value, now) {
            queries := queries - {question};
            assert calls[c := calls[c].(phase := Asking)] == calls;
            return Again;
          }
          return Hit(entries[e].done.value);
        }
        return Wait(e);
      }
      if used >= limit {
        return Exhausted;
      }
      entries := entries[made := Entry(question, c, None)];
      queries := queries[question := made];
      used := used + 1;
      d := Lead(made);
    }

    // The leader stores its reply and wakes the waiters.
    method Store(c: Caller, question: Question, e: EntryId, reply: Reply, observedAt: Time, now: Time, ghost calls: map<Caller, Call>)
      returns (done: Done)
      requires c in calls && calls[c].question == question && calls[c].phase == Resolved(e, reply, observedAt)
      modifies this`entries
      ensures View(now, calls[c := calls[c].(phase := Returned(done, now, false))]) == Published(old(View(now, calls)), c)
    {
      var ttl := ComputeTtl(reply);
      var expiresAt := None;
      if ttl > 0 {
        expiresAt := Some(observedAt + ttl);
      }
      done := Done(question, reply, observedAt, expiresAt, now);
      entries := entries[e := Entry(question, c, Some(done))];
    }
  }
}
