// followCNAMEGraph: a bounded walk of CNAME links against an arbitrary resolver, fed by a
// channel of starting targets.
module CnameWalk {
  import opened Options
  import opened Lex

  datatype Outcome = Answered | NoData | NxDomain | BudgetExhausted | Unfinished

  // A query's result: its error code, its normalised outcome, the records it left out, the
  // CNAME destinations among its records, and how many addresses found no room or no permission.
  datatype Reply = Reply(error: Option<string>, outcome: Outcome, omitted: nat, links: seq<string>, unreserved: nat, blocked: nat)

  // Each name is asked for its CNAME once, so any behaviour over time is some function.
  datatype Resolver = Resolver(cname: string -> Reply, a: string -> Reply, aaaa: string -> Reply)

  datatype Target = Target(name: string, depth: nat, path: seq<string>)

  datatype Coverage = Coverage(complete: bool, completed: nat, omitted: nat, errors: seq<string>)

  const FULL := Coverage(true, 0, 0, [])

  // ------------------------------------------------------------- the link relation

  function Links(r: Resolver, name: string): seq<string> {
    var reply := r.cname(name);
    if reply.error.Some? || reply.outcome !in {Answered, NoData} then [] else reply.links
  }

  function LinksOf(r: Resolver, names: set<string>): set<string> { set n, m | n in names && m in Links(r, n) :: m }

  // Names some chain of links reaches at exactly this depth.
  function ExactAt(r: Resolver, inputs: seq<Target>, depth: nat): set<string> {
    (set i | 0 <= i < |inputs| && inputs[i].depth == depth :: inputs[i].name)
    + if depth == 0 then {} else LinksOf(r, ExactAt(r, inputs, depth - 1))
  }

  function UpTo(r: Resolver, inputs: seq<Target>, limit: nat): set<string> {
    ExactAt(r, inputs, limit) + if limit == 0 then {} else UpTo(r, inputs, limit - 1)
  }

  predicate At(r: Resolver, inputs: seq<Target>, name: string, depth: nat) { name in ExactAt(r, inputs, depth) }
  predicate ReachedWithin(r: Resolver, inputs: seq<Target>, name: string, limit: nat) { exists k: nat :: k <= limit && At(r, inputs, name, k) }
  ghost predicate Reached(r: Resolver, inputs: seq<Target>, name: string) { exists k: nat :: At(r, inputs, name, k) }

  lemma {:induction false} UpToReached(r: Resolver, inputs: seq<Target>, limit: nat, name: string)
    requires name in UpTo(r, inputs, limit)
    ensures ReachedWithin(r, inputs, name, limit)
  {
    if name in ExactAt(r, inputs, limit) {
      assert At(r, inputs, name, limit);
    } else {
      UpToReached(r, inputs, limit - 1, name);
      var k: nat :| k <= limit - 1 && At(r, inputs, name, k);
      assert k <= limit && At(r, inputs, name, k);
    }
  }

  lemma {:induction false} ExactIsUpTo(r: Resolver, inputs: seq<Target>, limit: nat, k: nat)
    requires k <= limit
    ensures ExactAt(r, inputs, k) <= UpTo(r, inputs, limit)
  {
    if k < limit {
      ExactIsUpTo(r, inputs, limit - 1, k);
    }
  }

  // A set that holds the inputs and is closed under links holds every reachable name.
  lemma {:induction false} ClosedHolds(r: Resolver, inputs: seq<Target>, s: set<string>, depth: nat)
    requires forall i :: 0 <= i < |inputs| ==> inputs[i].name in s
    requires forall n, m :: n in s && m in Links(r, n) ==> m in s
    ensures ExactAt(r, inputs, depth) <= s
  {
    if depth > 0 {
      ClosedHolds(r, inputs, s, depth - 1);
    }
  }

  // The targets that chains of links make from the inputs, with their depths and paths.
  function Child(t: Target, name: string): Target { Target(name, t.depth + 1, t.path + [t.name]) }

  function Made(r: Resolver, inputs: seq<Target>, n: nat): set<Target> {
    if n == 0 then set i | 0 <= i < |inputs| :: inputs[i]
    else set t, m | t in Made(r, inputs, n - 1) && m in Links(r, t.name) :: Child(t, m)
  }

  predicate MadeAt(r: Resolver, inputs: seq<Target>, t: Target, n: nat) { t in Made(r, inputs, n) }
  ghost predicate Traced(r: Resolver, inputs: seq<Target>, t: Target) { exists n: nat :: MadeAt(r, inputs, t, n) }

  // A target the walk expands: not on its own path and not too deep.
  predicate Good(t: Target, limit: nat) { t.name !in t.path && t.depth <= limit }

  // Every reply the expansion of the name asks for is whole.
  predicate AllAnswered(r: Resolver, name: string) {
    Whole(r.cname(name)) && (r.cname(name).outcome == NxDomain || Links(r, name) != [] || (Whole(r.a(name)) && Whole(r.aaaa(name))))
  }

  // Nothing stands in the way: no chain of links loops or goes too deep, and all replies are whole.
  ghost predicate Clear(r: Resolver, inputs: seq<Target>, limit: nat) {
    forall t :: Traced(r, inputs, t) ==> Good(t, limit) && AllAnswered(r, t.name)
  }

  lemma ChildTraced(r: Resolver, inputs: seq<Target>, t: Target, m: string)
    requires Traced(r, inputs, t) && m in Links(r, t.name)
    ensures Traced(r, inputs, Child(t, m))
  {
    var n: nat :| MadeAt(r, inputs, t, n);
    assert MadeAt(r, inputs, Child(t, m), n + 1);
  }

  lemma InputTraced(r: Resolver, inputs: seq<Target>, i: nat)
    requires i < |inputs|
    ensures Traced(r, inputs, inputs[i])
  {
    assert MadeAt(r, inputs, inputs[i], 0);
  }

  // -------------------------------------------------------------- coverage effects

  function Failed(c: Coverage, code: string, omitted: nat): Coverage {
    Coverage(false, c.completed, c.omitted + omitted, c.errors + [code])
  }

  function Repeated(c: Coverage, code: string, times: nat, omitted: bool): Coverage {
    if times == 0 then c else Failed(Repeated(c, code, times - 1, omitted), code, if omitted then 1 else 0)
  }

  predicate Completes(o: Outcome) { o in {Answered, NoData, NxDomain} }

  // appendGraphQuery
  function AppendQuery(c: Coverage, reply: Reply): Coverage {
    var judged := Judged(if reply.omitted > 0 then Failed(c, "budget_exceeded", reply.omitted) else c, reply);
    if reply.outcome != Answered then judged
    else Repeated(Repeated(judged, "budget_exceeded", reply.unreserved, true), "policy_blocked", reply.blocked, false)
  }

  function Judged(c: Coverage, reply: Reply): Coverage {
    if reply.error.Some? then Failed(c, reply.error.value, if reply.outcome == BudgetExhausted then 1 else 0)
    else if Completes(reply.outcome) then c.(completed := c.completed + 1)
    else Failed(c, "collection_failed", 0)
  }

  // Coverage stays complete exactly while no error is noted, and then nothing was left out.
  predicate Honest(c: Coverage) { (c.complete <==> c.errors == []) && (c.complete ==> c.omitted == 0) }

  // A query leaves coverage complete exactly when it was complete and the reply is whole.
  predicate Whole(reply: Reply) {
    && reply.omitted == 0 && reply.error.None? && Completes(reply.outcome)
    && (reply.outcome == Answered ==> reply.unreserved == 0 && reply.blocked == 0)
  }

  lemma AppendQueryHonest(c: Coverage, reply: Reply)
    requires Honest(c)
    ensures Honest(AppendQuery(c, reply))
    ensures AppendQuery(c, reply).complete <==> c.complete && Whole(reply)
  {
  }

  // What a query adds to the counts: one completion exactly for a completed outcome without
  // an error, and as omitted the records left out, a query the budget refused and the
  // addresses of an answer that found no room.
  lemma AppendQueryCounts(c: Coverage, reply: Reply)
    ensures var n := AppendQuery(c, reply);
            && n.completed == c.completed + (if reply.error.None? && (reply.outcome == Answered || reply.outcome == NoData || reply.outcome == NxDomain) then 1 else 0)
            && n.omitted == c.omitted + reply.omitted + (if reply.error.Some? && reply.outcome == BudgetExhausted then 1 else 0)
                            + (if reply.outcome == Answered then reply.unreserved else 0)
  {
    var judged := Judged(if reply.omitted > 0 then Failed(c, "budget_exceeded", reply.omitted) else c, reply);
    RepeatedCounts(judged, "budget_exceeded", reply.unreserved, true);
    RepeatedCounts(Repeated(judged, "budget_exceeded", reply.unreserved, true), "policy_blocked", reply.blocked, false);
  }

  // And the errors it notes.
  lemma AppendQueryErrors(c: Coverage, reply: Reply, code: string)
    ensures code in AppendQuery(c, reply).errors <==>
              || code in c.errors || reply.error == Some(code)
              || (code == "budget_exceeded" && (reply.omitted > 0 || (reply.outcome == Answered && reply.unreserved > 0)))
              || (code == "collection_failed" && reply.error.None? && reply.outcome in {BudgetExhausted, Unfinished})
              || (code == "policy_blocked" && reply.outcome == Answered && reply.blocked > 0)
  {
    var judged := Judged(if reply.omitted > 0 then Failed(c, "budget_exceeded", reply.omitted) else c, reply);
    RepeatedErrors(judged, "budget_exceeded", reply.unreserved, true, code);
    RepeatedErrors(Repeated(judged, "budget_exceeded", reply.unreserved, true), "policy_blocked", reply.blocked, false, code);
  }

  lemma {:induction false} RepeatedErrors(c: Coverage, code: string, times: nat, omitted: bool, noted: string)
    ensures noted in Repeated(c, code, times, omitted).errors <==> noted in c.errors || (times > 0 && noted == code)
  {
    if times > 0 {
      RepeatedErrors(c, code, times - 1, omitted, noted);
    }
  }

  lemma {:induction false} RepeatedCounts(c: Coverage, code: string, times: nat, omitted: bool)
    ensures var n := Repeated(c, code, times, omitted);
            n.completed == c.completed && n.omitted == c.omitted + if omitted then times else 0
  {
    if times > 0 {
      RepeatedCounts(c, code, times - 1, omitted);
    }
  }

  // ----------------------------------------------------------------------- the walk

  predicate Queues(queue: seq<Target>, name: string) { exists i :: 0 <= i < |queue| && queue[i].name == name }

  // Everything queued or seen is reached by a chain of the depth it claims.
  predicate Sound(r: Resolver, inputs: seq<Target>, limit: nat, queue: seq<Target>, seen: set<string>) {
    && QueueSound(r, inputs, queue)
    && seen <= UpTo(r, inputs, limit)
  }

  // Nothing is lost: received targets and links of seen names are seen or queued.
  ghost predicate Kept(r: Resolver, inputs: seq<Target>, received: nat, queue: seq<Target>, seen: set<string>) {
    && received <= |inputs|
    && (forall i :: 0 <= i < received ==> inputs[i].name in seen || Queues(queue, inputs[i].name))
    && (forall n, m :: n in seen && m in Links(r, n) ==> m in seen || Queues(queue, m))
  }

  predicate Distinct(names: seq<string>) { forall i, j :: 0 <= i < j < |names| ==> names[i] != names[j] }

  lemma QueuesAppend(queue: seq<Target>, more: seq<Target>, name: string)
    ensures Queues(queue + more, name) <==> Queues(queue, name) || Queues(more, name)
  {
    var all := queue + more;
    if Queues(queue, name) {
      var i :| 0 <= i < |queue| && queue[i].name == name;
      assert all[i].name == name;
    }
    if Queues(more, name) {
      var i :| 0 <= i < |more| && more[i].name == name;
      assert all[|queue| + i].name == name;
    }
    if Queues(all, name) {
      var i :| 0 <= i < |all| && all[i].name == name;
      assert i < |queue| ==> queue[i].name == name;
      assert i >= |queue| ==> more[i - |queue|].name == name;
    }
  }

  lemma ReceiveKeeps(r: Resolver, inputs: seq<Target>, limit: nat, received: nat, queue: seq<Target>, seen: set<string>, complete: bool)
    requires received < |inputs| && Sound(r, inputs, limit, queue, seen) && (complete ==> Kept(r, inputs, received, queue, seen))
    ensures var q := queue + [inputs[received]];
            Sound(r, inputs, limit, q, seen) && (complete ==> Kept(r, inputs, received + 1, q, seen))
  {
    var t := inputs[received];
    InputAt(r, inputs, received);
    AppendSound(r, inputs, queue, [t]);
    forall name ensures Queues(queue + [t], name) <==> Queues(queue, name) || name == t.name {
      QueuesAppend(queue, [t], name);
      assert [t][0].name == t.name;
    }
  }

  lemma InputAt(r: Resolver, inputs: seq<Target>, i: nat)
    requires i < |inputs|
    ensures At(r, inputs, inputs[i].name, inputs[i].depth)
  {
  }

  function Without(queue: seq<Target>, i: nat): seq<Target>
    requires i < |queue|
  {
    queue[..i] + queue[i + 1..]
  }

  lemma QueuesWithout(queue: seq<Target>, i: nat, name: string)
    requires i < |queue|
    ensures Queues(queue, name) <==> Queues(Without(queue, i), name) || name == queue[i].name
  {
    assert queue == queue[..i] + ([queue[i]] + queue[i + 1..]);
    QueuesAppend(queue[..i], [queue[i]] + queue[i + 1..], name);
    QueuesAppend([queue[i]], queue[i + 1..], name);
    QueuesAppend(queue[..i], queue[i + 1..], name);
    assert Queues([queue[i]], name) <==> name == queue[i].name by {
      assert [queue[i]][0].name == queue[i].name;
    }
  }

  // Taking an item whose name is seen, or giving up completeness, loses nothing.
  lemma TakeKeeps(r: Resolver, inputs: seq<Target>, limit: nat, received: nat, queue: seq<Target>, i: nat, seen: set<string>, complete: bool)
    requires i < |queue| && Sound(r, inputs, limit, queue, seen) && (complete ==> Kept(r, inputs, received, queue, seen) && queue[i].name in seen)
    ensures Sound(r, inputs, limit, Without(queue, i), seen) && (complete ==> Kept(r, inputs, received, Without(queue, i), seen))
  {
    forall name ensures Queues(queue, name) <==> Queues(Without(queue, i), name) || name == queue[i].name {
      QueuesWithout(queue, i, name);
    }
  }

  function Expanded(item: Target, links: seq<string>): (ts: seq<Target>)
    ensures |ts| == |links| && forall i :: 0 <= i < |ts| ==> ts[i] == Target(links[i], item.depth + 1, item.path + [item.name])
  {
    if links == [] then [] else Expanded(item, links[..|links| - 1]) + [Target(links[|links| - 1], item.depth + 1, item.path + [item.name])]
  }

  lemma QueuesExpanded(item: Target, links: seq<string>, name: string)
    ensures Queues(Expanded(item, links), name) <==> name in links
  {
  }

  lemma ExpandSound(r: Resolver, inputs: seq<Target>, limit: nat, queue: seq<Target>, i: nat, seen: set<string>)
    requires i < |queue| && Sound(r, inputs, limit, queue, seen) && queue[i].depth <= limit
    ensures Sound(r, inputs, limit, Without(queue, i) + Expanded(queue[i], Links(r, queue[i].name)), seen + {queue[i].name})
    ensures queue[i].name in UpTo(r, inputs, limit)
  {
    var item, links := queue[i], Links(r, queue[i].name);
    AtIsUpTo(r, inputs, limit, item.name, item.depth);
    WithoutSound(r, inputs, queue, i);
    ExpandedSound(r, inputs, item, links);
    AppendSound(r, inputs, Without(queue, i), Expanded(item, links));
  }

  lemma AtIsUpTo(r: Resolver, inputs: seq<Target>, limit: nat, name: string, depth: nat)
    requires depth <= limit && At(r, inputs, name, depth)
    ensures name in UpTo(r, inputs, limit)
  {
  }

  lemma LinkIsDeeper(r: Resolver, inputs: seq<Target>, n: string, m: string, depth: nat)
    requires At(r, inputs, n, depth) && m in Links(r, n)
    ensures At(r, inputs, m, depth + 1)
  {
  }

  predicate QueueSound(r: Resolver, inputs: seq<Target>, queue: seq<Target>) {
    forall i :: 0 <= i < |queue| ==> At(r, inputs, queue[i].name, queue[i].depth)
  }

  lemma ExpandedSound(r: Resolver, inputs: seq<Target>, item: Target, links: seq<string>)
    requires At(r, inputs, item.name, item.depth) && links == Links(r, item.name)
    ensures QueueSound(r, inputs, Expanded(item, links))
  {
    forall i | 0 <= i < |links| ensures At(r, inputs, links[i], item.depth + 1) {
      LinkIsDeeper(r, inputs, item.name, links[i], item.depth);
    }
  }

  lemma WithoutSound(r: Resolver, inputs: seq<Target>, queue: seq<Target>, i: nat)
    requires i < |queue| && QueueSound(r, inputs, queue)
    ensures QueueSound(r, inputs, Without(queue, i))
  {
  }

  lemma AppendSound(r: Resolver, inputs: seq<Target>, a: seq<Target>, b: seq<Target>)
    requires QueueSound(r, inputs, a) && QueueSound(r, inputs, b)
    ensures QueueSound(r, inputs, a + b)
  {
  }

  lemma ExpandKept(r: Resolver, inputs: seq<Target>, received: nat, queue: seq<Target>, i: nat, seen: set<string>)
    requires i < |queue| && Kept(r, inputs, received, queue, seen)
    ensures Kept(r, inputs, received, Without(queue, i) + Expanded(queue[i], Links(r, queue[i].name)), seen + {queue[i].name})
  {
    var item := queue[i];
    var links := Links(r, item.name);
    var n := Without(queue, i) + Expanded(item, links);
    forall name ensures (Queues(queue, name) ==> Queues(n, name) || name == item.name) && (name in links ==> Queues(n, name)) {
      QueuesWithout(queue, i, name);
      QueuesAppend(Without(queue, i), Expanded(item, links), name);
      QueuesExpanded(item, links, name);
    }
  }

  // The head of the sorted queue: some item with a least name.
  predicate IsHead(queue: seq<Target>, i: nat) {
    i < |queue| && forall j :: 0 <= j < |queue| ==> !Less(queue[j].name, queue[i].name)
  }

  method Head(queue: seq<Target>) returns (i: nat)
    requires queue != []
    ensures IsHead(queue, i)
  {
    i := 0;
    Irreflexive(queue[0].name);
    for j := 1 to |queue|
      invariant i < j && forall k :: 0 <= k < j ==> !Less(queue[k].name, queue[i].name)
    {
      if Less(queue[j].name, queue[i].name) {
        ghost var was := i;
        i := j;
        forall k | 0 <= k <= j ensures !Less(queue[k].name, queue[i].name) {
          Irreflexive(queue[i].name);
          if Less(queue[k].name, queue[i].name) {
            Transitive(queue[k].name, queue[i].name, queue[was].name);
          }
        }
      }
    }
  }

  // The queries one expansion makes, and the targets it adds.
  method Expand(r: Resolver, item: Target, coverage: Coverage) returns (more: seq<Target>, after: Coverage)
    requires Honest(coverage)
    ensures more == Expanded(item, Links(r, item.name))
    ensures Honest(after)
    ensures after.complete <==> coverage.complete && AllAnswered(r, item.name)
  {
    var reply := r.cname(item.name);
    AppendQueryHonest(coverage, reply);
    after := AppendQuery(coverage, reply);
    more := [];
    if reply.error.Some? || reply.outcome !in {Answered, NoData} {
      return;
    }
    if reply.links != [] {
      for i := 0 to |reply.links|
        invariant more == Expanded(item, reply.links[..i])
      {
        assert reply.links[..i + 1][..i] == reply.links[..i];
        more := more + [Target(reply.links[i], item.depth + 1, item.path + [item.name])];
      }
      assert reply.links[..|reply.links|] == reply.links;
      return;
    }
    AppendQueryHonest(after, r.a(item.name));
    after := AppendQuery(after, r.a(item.name));
    AppendQueryHonest(after, r.aaaa(item.name));
    after := AppendQuery(after, r.aaaa(item.name));
  }

  lemma SeenGrows(all: set<string>, seen: set<string>, name: string)
    requires name in all && name !in seen
    ensures |all - (seen + {name})| < |all - seen|
  {
    assert all - seen == (all - (seen + {name})) + {name};
  }

  // What the loop keeps.
  ghost predicate WalkRight(r: Resolver, inputs: seq<Target>, limit: nat, received: nat, queue: seq<Target>, seen: set<string>, names: seq<string>,
                            coverage: Coverage) {
    && Distinct(names) && Honest(coverage) && (forall n :: n in names <==> n in seen) && received <= |inputs|
    && Sound(r, inputs, limit, queue, seen)
    && (coverage.complete ==> Kept(r, inputs, received, queue, seen) && AllWhole(r, names))
  }

  predicate AllWhole(r: Resolver, names: seq<string>) { forall i :: 0 <= i < |names| ==> Whole(r.cname(names[i])) }

  lemma NamesExtend(names: seq<string>, seen: set<string>, name: string)
    requires Distinct(names) && name !in seen && forall n :: n in names <==> n in seen
    ensures Distinct(names + [name]) && forall n :: n in names + [name] <==> n in seen + {name}
  {
  }

  // What the walk has tried: visited is what names was expanded from. Every good target that
  // came in or that an expansion made is expanded by name or still queued, and coverage is
  // only given up where something stands in the way.
  ghost predicate Tried(r: Resolver, inputs: seq<Target>, limit: nat, received: nat, queue: seq<Target>, visited: seq<Target>, names: seq<string>,
                        coverage: Coverage) {
    && Expansions(r, inputs, limit, visited, names) && (forall i :: 0 <= i < |queue| ==> Traced(r, inputs, queue[i]))
    && received <= |inputs| && (forall i :: 0 <= i < received ==> Handled(limit, queue, names, inputs[i]))
    && (forall i, m :: 0 <= i < |visited| && m in Links(r, visited[i].name) ==> Handled(limit, queue, names, Child(visited[i], m)))
    && (Clear(r, inputs, limit) ==> coverage.complete)
  }

  ghost predicate Expansions(r: Resolver, inputs: seq<Target>, limit: nat, visited: seq<Target>, names: seq<string>) {
    && |visited| == |names|
    && forall i :: 0 <= i < |visited| ==> visited[i].name == names[i] && Good(visited[i], limit) && Traced(r, inputs, visited[i])
  }

  predicate Handled(limit: nat, queue: seq<Target>, names: seq<string>, t: Target) { Good(t, limit) ==> t.name in names || t in queue }

  lemma ReceiveTries(r: Resolver, inputs: seq<Target>, limit: nat, received: nat, queue: seq<Target>, visited: seq<Target>, names: seq<string>, coverage: Coverage)
    requires Tried(r, inputs, limit, received, queue, visited, names, coverage) && received < |inputs|
    ensures Tried(r, inputs, limit, received + 1, queue + [inputs[received]], visited, names, coverage)
  {
    InputTraced(r, inputs, received);
    var q := queue + [inputs[received]];
    forall t | Handled(limit, queue, names, t) ensures Handled(limit, q, names, t) { }
  }

  lemma WithoutHas(queue: seq<Target>, i: nat, t: Target)
    requires i < |queue|
    ensures t in queue ==> t in Without(queue, i) || t == queue[i]
  {
    assert queue == queue[..i] + [queue[i]] + queue[i + 1..];
  }

  // A queue that lost one item which was not good, or whose name is expanded.
  lemma DropTries(r: Resolver, inputs: seq<Target>, limit: nat, received: nat, queue: seq<Target>, i: nat, visited: seq<Target>, names: seq<string>,
                  coverage: Coverage, after: Coverage)
    requires i < |queue| && Tried(r, inputs, limit, received, queue, visited, names, coverage)
    requires if Good(queue[i], limit) then queue[i].name in names && after == coverage else true
    ensures Tried(r, inputs, limit, received, Without(queue, i), visited, names, after)
  {
    var q := Without(queue, i);
    forall t | Handled(limit, queue, names, t) ensures Handled(limit, q, names, t) { WithoutHas(queue, i, t); }
  }

  lemma ExpandTries(r: Resolver, inputs: seq<Target>, limit: nat, received: nat, queue: seq<Target>, i: nat, visited: seq<Target>, names: seq<string>,
                    coverage: Coverage, after: Coverage)
    requires i < |queue| && Tried(r, inputs, limit, received, queue, visited, names, coverage) && Good(queue[i], limit)
    requires after.complete <==> coverage.complete && AllAnswered(r, queue[i].name)
    ensures Tried(r, inputs, limit, received, Without(queue, i) + Expanded(queue[i], Links(r, queue[i].name)), visited + [queue[i]], names + [queue[i].name], after)
  {
    var item, links := queue[i], Links(r, queue[i].name);
    var more := Expanded(item, links);
    var q, v, ns := Without(queue, i) + more, visited + [item], names + [item.name];
    forall t | Handled(limit, queue, names, t) ensures Handled(limit, q, ns, t) { WithoutHas(queue, i, t); }
    forall j | 0 <= j < |links| ensures Traced(r, inputs, more[j]) { ChildTraced(r, inputs, item, links[j]); }
    forall m | m in links ensures Handled(limit, q, ns, Child(item, m)) {
      var j :| 0 <= j < |links| && links[j] == m;
      assert more[j] == Child(item, m);
    }
    forall j, m | 0 <= j < |v| && m in Links(r, v[j].name) ensures Handled(limit, q, ns, Child(v[j], m)) {
      if j < |visited| {
        assert Handled(limit, queue, names, Child(visited[j], m));
      }
    }
  }

  // One item taken from the queue.
  method Visit(r: Resolver, ghost inputs: seq<Target>, limit: nat, ghost received: nat, queue: seq<Target>, seen: set<string>, names: seq<string>,
               coverage: Coverage, ghost visited: seq<Target>)
    returns (queue': seq<Target>, seen': set<string>, names': seq<string>, coverage': Coverage, ghost visited': seq<Target>)
    requires queue != [] && WalkRight(r, inputs, limit, received, queue, seen, names, coverage)
    requires Tried(r, inputs, limit, received, queue, visited, names, coverage)
    ensures WalkRight(r, inputs, limit, received, queue', seen', names', coverage')
    ensures Tried(r, inputs, limit, received, queue', visited', names', coverage')
    ensures (seen' == seen && |queue'| < |queue|) || |UpTo(r, inputs, limit) - seen'| < |UpTo(r, inputs, limit) - seen|
  {
    var i := Head(queue);
    var item := queue[i];
    queue', seen', names', coverage', visited' := Without(queue, i), seen, names, coverage, visited;
    if item.name in item.path || item.depth > limit {
      TakeKeeps(r, inputs, limit, received, queue, i, seen, false);
      coverage' := Failed(coverage, "budget_exceeded", 1);
      DropTries(r, inputs, limit, received, queue, i, visited, names, coverage, coverage');
      return;
    }
    if item.name in seen {
      TakeKeeps(r, inputs, limit, received, queue, i, seen, coverage.complete);
      DropTries(r, inputs, limit, received, queue, i, visited, names, coverage, coverage);
      return;
    }
    queue', seen', names', coverage' := VisitNew(r, inputs, limit, received, queue, i, seen, names, coverage);
    visited' := visited + [item];
    ExpandTries(r, inputs, limit, received, queue, i, visited, names, coverage, coverage');
  }

  // An item whose name is new.
  method VisitNew(r: Resolver, ghost inputs: seq<Target>, limit: nat, ghost received: nat, queue: seq<Target>, i: nat, seen: set<string>,
                  names: seq<string>, coverage: Coverage)
    returns (queue': seq<Target>, seen': set<string>, names': seq<string>, coverage': Coverage)
    requires i < |queue| && WalkRight(r, inputs, limit, received, queue, seen, names, coverage)
    requires queue[i].name !in seen && queue[i].depth <= limit
    ensures WalkRight(r, inputs, limit, received, queue', seen', names', coverage')
    ensures |UpTo(r, inputs, limit) - seen'| < |UpTo(r, inputs, limit) - seen|
    ensures queue' == Without(queue, i) + Expanded(queue[i], Links(r, queue[i].name)) && names' == names + [queue[i].name]
    ensures coverage'.complete <==> coverage.complete && AllAnswered(r, queue[i].name)
  {
    var item := queue[i];
    ExpandSound(r, inputs, limit, queue, i, seen);
    if coverage.complete {
      ExpandKept(r, inputs, received, queue, i, seen);
    }
    SeenGrows(UpTo(r, inputs, limit), seen, item.name);
    NamesExtend(names, seen, item.name);
    seen', names' := seen + {item.name}, names + [item.name];
    var more, after := Expand(r, item, coverage);
    queue', coverage' := Without(queue, i) + more, after;
  }

  // inputs is what the channel delivers before it is closed; when each target arrives and
  // whether the context ends are arbitrary. names lists the expanded names in order, visited
  // what they were expanded from. A walk that is not cut short expands every good target that
  // comes in or that an expansion makes, and is complete when nothing stands in its way.
  method Follow(r: Resolver, inputs: seq<Target>, limit: nat) returns (names: seq<string>, coverage: Coverage, stopped: bool, ghost visited: seq<Target>)
    ensures Distinct(names) && Honest(coverage) && Expansions(r, inputs, limit, visited, names)
    ensures !stopped ==> forall i :: 0 <= i < |inputs| && Good(inputs[i], limit) ==> inputs[i].name in names
    ensures !stopped ==> forall i, m :: 0 <= i < |visited| && m in Links(r, visited[i].name) && Good(Child(visited[i], m), limit) ==> m in names
    ensures !stopped && Clear(r, inputs, limit) ==> coverage.complete
    ensures stopped ==> !coverage.complete
    ensures forall i :: 0 <= i < |names| ==> ReachedWithin(r, inputs, names[i], limit)
    ensures coverage.complete ==> forall n :: n in names <==> Reached(r, inputs, n)
    ensures coverage.complete ==> AllWhole(r, names)
  {
    var queue: seq<Target>, seen: set<string>, received, inputOpen := [], {}, 0, true;
    names, coverage, stopped, visited := [], FULL, false, [];
    while |queue| > 0 || inputOpen
      invariant WalkRight(r, inputs, limit, received, queue, seen, names, coverage)
      invariant Tried(r, inputs, limit, received, queue, visited, names, coverage)
      invariant !inputOpen ==> received == |inputs|
      decreases |inputs| - received + if inputOpen then 1 else 0, |UpTo(r, inputs, limit) - seen|, |queue|
    {
      var cancelled, arrives: bool := *, *;
      if cancelled {
        coverage, stopped := Failed(coverage, "cancelled", |queue|), true;
        SoundNames(r, inputs, limit, queue, seen, names);
        return;
      }
      if |queue| == 0 {
        if received == |inputs| {
          inputOpen := false;
          continue;
        }
        ReceiveKeeps(r, inputs, limit, received, queue, seen, coverage.complete);
        ReceiveTries(r, inputs, limit, received, queue, visited, names, coverage);
        queue, received := queue + [inputs[received]], received + 1;
      }
      if inputOpen && arrives {
        if received == |inputs| {
          inputOpen := false;
        } else {
          ReceiveKeeps(r, inputs, limit, received, queue, seen, coverage.complete);
          ReceiveTries(r, inputs, limit, received, queue, visited, names, coverage);
          queue, received := queue + [inputs[received]], received + 1;
        }
      }
      queue, seen, names, coverage, visited := Visit(r, inputs, limit, received, queue, seen, names, coverage, visited);
    }
    SoundNames(r, inputs, limit, queue, seen, names);
    NothingLeft(r, inputs, limit, visited, names, coverage);
    if coverage.complete {
      CompleteNames(r, inputs, limit, seen, names);
    }
  }

  lemma NothingLeft(r: Resolver, inputs: seq<Target>, limit: nat, visited: seq<Target>, names: seq<string>, coverage: Coverage)
    requires Tried(r, inputs, limit, |inputs|, [], visited, names, coverage)
    ensures forall i :: 0 <= i < |inputs| && Good(inputs[i], limit) ==> inputs[i].name in names
    ensures forall i, m :: 0 <= i < |visited| && m in Links(r, visited[i].name) && Good(Child(visited[i], m), limit) ==> m in names
  {
    forall i | 0 <= i < |inputs| && Good(inputs[i], limit) ensures inputs[i].name in names { assert Handled(limit, [], names, inputs[i]); }
    forall i, m | 0 <= i < |visited| && m in Links(r, visited[i].name) && Good(Child(visited[i], m), limit) ensures m in names {
      assert Handled(limit, [], names, Child(visited[i], m));
    }
  }

  lemma SoundNames(r: Resolver, inputs: seq<Target>, limit: nat, queue: seq<Target>, seen: set<string>, names: seq<string>)
    requires Sound(r, inputs, limit, queue, seen) && forall n :: n in names <==> n in seen
    ensures forall i :: 0 <= i < |names| ==> ReachedWithin(r, inputs, names[i], limit)
  {
    forall i | 0 <= i < |names| ensures ReachedWithin(r, inputs, names[i], limit) {
      assert names[i] in seen;
      UpToReached(r, inputs, limit, names[i]);
    }
  }

  lemma ReachedEventually(r: Resolver, inputs: seq<Target>, name: string, limit: nat)
    requires ReachedWithin(r, inputs, name, limit)
    ensures Reached(r, inputs, name)
  {
  }

  ghost predicate Closed(r: Resolver, inputs: seq<Target>, s: set<string>) {
    && (forall i :: 0 <= i < |inputs| ==> inputs[i].name in s)
    && (forall n, m :: n in s && m in Links(r, n) ==> m in s)
  }

  lemma ReachedIsHeld(r: Resolver, inputs: seq<Target>, s: set<string>, name: string)
    requires Reached(r, inputs, name) && Closed(r, inputs, s)
    ensures name in s
  {
    var k: nat :| At(r, inputs, name, k);
    ClosedHolds(r, inputs, s, k);
  }

  lemma EmptyIsClosed(r: Resolver, inputs: seq<Target>, seen: set<string>)
    requires Kept(r, inputs, |inputs|, [], seen)
    ensures Closed(r, inputs, seen)
  {
  }

  lemma CompleteName(r: Resolver, inputs: seq<Target>, limit: nat, seen: set<string>, name: string)
    requires seen <= UpTo(r, inputs, limit) && Closed(r, inputs, seen)
    ensures name in seen <==> Reached(r, inputs, name)
  {
    if name in seen {
      UpToReached(r, inputs, limit, name);
      ReachedEventually(r, inputs, name, limit);
    }
    if Reached(r, inputs, name) {
      ReachedIsHeld(r, inputs, seen, name);
    }
  }

  lemma CompleteNames(r: Resolver, inputs: seq<Target>, limit: nat, seen: set<string>, names: seq<string>)
    requires Sound(r, inputs, limit, [], seen) && Kept(r, inputs, |inputs|, [], seen) && forall n :: n in names <==> n in seen
    ensures forall n :: n in names <==> Reached(r, inputs, n)
  {
    EmptyIsClosed(r, inputs, seen);
    forall n ensures n in seen <==> Reached(r, inputs, n) { CompleteName(r, inputs, limit, seen, n); }
  }
}
