// What each transaction of the embedding index does, in every reachable state, and that a
// description can be carried all the way into the index.
module EmbeddingEffects {
  import opened Options
  import opened Embedding

  // The rows of every context but c, and every generation, are as they were.
  ghost predicate OthersKept(db: Tables, n: Tables, c: ContextKey) {
    && n.generations == db.generations && n.assets == db.assets && n.tombstones == db.tombstones
    && (forall e :: e != c ==> (e in n.contexts <==> e in db.contexts) && (e in db.contexts ==> n.contexts[e] == db.contexts[e]))
    && (forall r: RowKey :: r.owner != c ==> (r in n.tasks <==> r in db.tasks) && (r in db.tasks ==> n.tasks[r] == db.tasks[r]))
    && (forall r: RowKey :: r.owner != c ==> (r in n.vectors <==> r in db.vectors) && (r in db.vectors ==> n.vectors[r] == db.vectors[r]))
  }

  function RevisionOf(db: Tables, c: ContextKey): nat { if c in db.contexts then db.contexts[c].stamp.revision else 0 }
  function HashOf(db: Tables, c: ContextKey): string { if c in db.contexts then db.contexts[c].stamp.hash else "" }

  // A published description is the context's: its text, its hash and the next revision, under
  // the asset's deletion generation; nothing else is touched.
  lemma DescriptionIsStored(w: World, steps: seq<Step>, c: ContextKey, d: Document)
    requires CollisionFree(w)
    ensures var db := Run(w, Empty(), steps).db;
            c.asset in db.assets ==>
              var n := Describe(w, db, c, db.assets[c.asset], d, true);
              && c in n.contexts && n.contexts[c].document == d
              && n.contexts[c].stamp.hash == w.hash(d) && n.contexts[c].stamp.revision == RevisionOf(db, c) + 1
              && n.contexts[c].stamp.deletionGeneration == db.assets[c.asset]
              && OthersKept(db, n, c)
  {
    RunKeeps(w, Empty(), steps);
    var s := Run(w, Empty(), steps);
    if c.asset in s.db.assets {
      StoredIn(w, s.db, c, d);
    }
  }

  function Written(w: World, db: Tables, c: ContextKey, d: Document): Tables
    requires c.asset in db.assets
  {
    db.(contexts := db.contexts[c := Context(d, Stamp(RevisionOf(db, c) + 1, w.hash(d), db.assets[c.asset]))])
  }

  // Publication writes the row and then queues or advances.
  lemma DescribeShape(w: World, db: Tables, c: ContextKey, d: Document)
    requires Linked(db) && c.asset in db.assets
    ensures var p := Written(w, db, c, d); var stamp := p.contexts[c].stamp;
            Describe(w, db, c, db.assets[c.asset], d, true) == if w.hash(d) != HashOf(db, c) then Requeue(p, c, stamp) else Advance(p, c, stamp)
  {
    RepublishedIsWritten(w, db, c, d);
  }

  lemma RepublishedIsWritten(w: World, db: Tables, c: ContextKey, d: Document)
    requires Linked(db) && c.asset in db.assets
    ensures c in Opened(db, c, db.assets[c.asset]).contexts && Opened(db, c, db.assets[c.asset]).contexts[c].stamp.hash == HashOf(db, c)
    ensures Republished(w, Opened(db, c, db.assets[c.asset]), c, d) == Written(w, db, c, d)
  {
    if c !in db.contexts {
      var a := Opened(db, c, db.assets[c.asset]);
      assert a.contexts[c := Written(w, db, c, d).contexts[c]] == db.contexts[c := Written(w, db, c, d).contexts[c]];
    }
  }

  lemma StoredIn(w: World, db: Tables, c: ContextKey, d: Document)
    requires Linked(db) && c.asset in db.assets
    ensures var n := Describe(w, db, c, db.assets[c.asset], d, true);
            && c in n.contexts && n.contexts[c].document == d
            && n.contexts[c].stamp.hash == w.hash(d) && n.contexts[c].stamp.revision == RevisionOf(db, c) + 1
            && n.contexts[c].stamp.deletionGeneration == db.assets[c.asset]
            && OthersKept(db, n, c)
  {
    var p := Written(w, db, c, d);
    DescribeShape(w, db, c, d);
    RowsKept(p, c, p.contexts[c].stamp);
    OnlyTheContext(db, p, c);
    KeptThrough(db, p, Describe(w, db, c, db.assets[c.asset], d, true), c);
  }

  lemma OnlyTheContext(db: Tables, p: Tables, c: ContextKey)
    requires c in p.contexts && p == db.(contexts := db.contexts[c := p.contexts[c]])
    ensures OthersKept(db, p, c)
  {
  }

  // Queueing and advancing touch rows of the context alone.
  lemma RowsKept(p: Tables, c: ContextKey, stamp: Stamp)
    ensures OthersKept(p, Requeue(p, c, stamp), c) && Requeue(p, c, stamp).contexts == p.contexts
    ensures OthersKept(p, Advance(p, c, stamp), c) && Advance(p, c, stamp).contexts == p.contexts
  {
  }

  lemma KeptThrough(db: Tables, p: Tables, n: Tables, c: ContextKey)
    requires OthersKept(db, p, c) && OthersKept(p, n, c)
    ensures OthersKept(db, n, c)
  {
  }

  // A changed description puts fresh, claimable work into every live generation; the vectors
  // stay until they are replaced.
  lemma ChangedDescriptionIsQueued(w: World, steps: seq<Step>, c: ContextKey, d: Document, g: string, now: int)
    requires CollisionFree(w)
    ensures var db := Run(w, Empty(), steps).db;
            c.asset in db.assets && HashOf(db, c) != w.hash(d) && g in db.generations && Live(db.generations[g]) ==>
              var n := Describe(w, db, c, db.assets[c.asset], d, true);
              && Queued(n, c, g) && Claimable(n, RowKey(c, g), now)
              && n.tasks[RowKey(c, g)].attempts == 0 && n.tasks[RowKey(c, g)].token == None
              && n.vectors == db.vectors
  {
    RunKeeps(w, Empty(), steps);
    var db := Run(w, Empty(), steps).db;
    if c.asset in db.assets && HashOf(db, c) != w.hash(d) && g in db.generations && Live(db.generations[g]) {
      QueuedIn(w, db, c, d, g, now);
    }
  }

  lemma QueuedIn(w: World, db: Tables, c: ContextKey, d: Document, g: string, now: int)
    requires Linked(db) && c.asset in db.assets && HashOf(db, c) != w.hash(d) && g in db.generations && Live(db.generations[g])
    ensures var n := Describe(w, db, c, db.assets[c.asset], d, true);
            && Queued(n, c, g) && Claimable(n, RowKey(c, g), now)
            && n.tasks[RowKey(c, g)].attempts == 0 && n.tasks[RowKey(c, g)].token == None
            && n.vectors == db.vectors
  {
    var p := Written(w, db, c, d);
    DescribeShape(w, db, c, d);
    RequeueQueues(p, c, p.contexts[c].stamp, g, now);
  }

  lemma RequeueQueues(p: Tables, c: ContextKey, stamp: Stamp, g: string, now: int)
    requires g in p.generations && Live(p.generations[g])
    ensures var n := Requeue(p, c, stamp); var r := RowKey(c, g);
            && r in n.tasks && n.tasks[r] == Task(stamp, Pending, 0, None, None, None) && Claimable(n, r, now)
            && n.vectors == p.vectors && n.contexts == p.contexts && n.generations == p.generations
  {
    assert RowKey(c, g) in LiveRows(p, c);
  }

  // An unchanged one keeps its vectors current and its tasks as far along as they were.
  lemma UnchangedDescriptionIsAdvanced(w: World, steps: seq<Step>, c: ContextKey, d: Document, g: string)
    requires CollisionFree(w)
    ensures var db := Run(w, Empty(), steps).db;
            c.asset in db.assets && HashOf(db, c) == w.hash(d) ==>
              var n := Describe(w, db, c, db.assets[c.asset], d, true);
              && (Indexed(db, c, g) ==> Indexed(n, c, g) && n.vectors[RowKey(c, g)].embedding == db.vectors[RowKey(c, g)].embedding)
              && (Queued(db, c, g) ==> Queued(n, c, g) && n.tasks[RowKey(c, g)] == db.tasks[RowKey(c, g)].(stamp := n.contexts[c].stamp))
              && n.tasks.Keys == db.tasks.Keys && n.vectors.Keys == db.vectors.Keys
  {
    RunKeeps(w, Empty(), steps);
    var db := Run(w, Empty(), steps).db;
    if c.asset in db.assets && HashOf(db, c) == w.hash(d) {
      AdvancedIn(w, db, c, d, g);
    }
  }

  lemma AdvancedIn(w: World, db: Tables, c: ContextKey, d: Document, g: string)
    requires Linked(db) && c.asset in db.assets && HashOf(db, c) == w.hash(d) && w.hash(d) != ""
    ensures var n := Describe(w, db, c, db.assets[c.asset], d, true);
            && c in n.contexts
            && (Indexed(db, c, g) ==> Indexed(n, c, g) && n.vectors[RowKey(c, g)].embedding == db.vectors[RowKey(c, g)].embedding)
            && (Queued(db, c, g) ==> Queued(n, c, g) && n.tasks[RowKey(c, g)] == db.tasks[RowKey(c, g)].(stamp := n.contexts[c].stamp))
            && n.tasks.Keys == db.tasks.Keys && n.vectors.Keys == db.vectors.Keys
  {
    DescribeShape(w, db, c, d);
  }

  // Without a decision to replace, at most an empty row is opened; under another deletion
  // generation, or without the asset, nothing happens.
  lemma DescriptionIsFenced(w: World, db: Tables, c: ContextKey, generation: nat, d: Document, replace: bool)
    ensures c.asset !in db.assets || db.assets[c.asset] != generation ==> Describe(w, db, c, generation, d, replace) == db
    ensures var n := Describe(w, db, c, generation, d, false);
            && OthersKept(db, n, c) && n.tasks == db.tasks && n.vectors == db.vectors
            && (c in db.contexts ==> n == db) && (c in n.contexts ==> HashOf(n, c) == HashOf(db, c))
  {
  }

  // A begun generation is building under its contract, with claimable work for every
  // description; it begins exactly when vectors are enabled and the ID is unused.
  lemma BegunIsQueued(w: World, steps: seq<Step>, g: string, contract: Contract, c: ContextKey, now: int)
    requires CollisionFree(w)
    ensures var db := Run(w, Empty(), steps).db; var (outcome, n) := Begin(db, g, contract);
            && (outcome.Ok? <==> db.vectorStorage && g !in db.generations)
            && (outcome.Ok? ==> && g in n.generations && n.generations[g] == Generation(contract, Building, None)
                                && n.generations == db.generations[g := n.generations[g]]
                                && outcome.value == |Eligible(db)| && n.contexts == db.contexts && n.vectors == db.vectors
                                && (HasDescription(db, c) ==> Queued(n, c, g) && Claimable(n, RowKey(c, g), now)))
            && (outcome.Err? ==> n == db)
  {
    RunKeeps(w, Empty(), steps);
  }

  // A claim leases the task to the token for the lease time and counts the attempt.
  lemma ClaimLeases(db: Tables, r: RowKey, token: Token, now: int, later: int)
    requires Claimable(db, r, now)
    ensures var n := Claim(db, r, token, now);
            && (HoldsLease(n, r, token, later) <==> later < now + LEASE_SECONDS)
            && r in n.tasks && n.tasks[r].attempts == db.tasks[r].attempts + 1 && n.tasks[r].stamp == db.tasks[r].stamp
            && n == db.(tasks := db.tasks[r := n.tasks[r]])
            && (Claimable(n, r, later) <==> later >= now + LEASE_SECONDS && n.tasks[r].attempts < MAXIMUM_ATTEMPTS)
  {
  }

  // A failed attempt frees the lease and is claimable again after its back-off, exactly while
  // attempts are left; a failure under another token changes nothing.
  lemma FailureBacksOff(db: Tables, r: RowKey, token: Token, now: int, later: int)
    ensures r !in db.tasks || db.tasks[r].token != Some(token) ==> Fail(db, r, token, now) == db
    ensures r in db.tasks && db.tasks[r].token == Some(token) ==>
              var n := Fail(db, r, token, now); var a := db.tasks[r].attempts;
              && r in n.tasks && n.tasks[r].status == Failed && n.tasks[r].token == None && n.tasks[r].attempts == a
              && n.tasks[r].stamp == db.tasks[r].stamp && n == db.(tasks := db.tasks[r := n.tasks[r]])
              && (r.generation in db.generations && Live(db.generations[r.generation]) ==>
                    (Claimable(n, r, later) <==> a < MAXIMUM_ATTEMPTS && later >= now + (if a * a < 300 then a * a else 300)))
  {
  }

  // A rollback makes the generation active, retires the one it replaces, and queues claimable
  // work for exactly the descriptions that are not indexed in it.
  lemma RollbackRestores(w: World, steps: seq<Step>, g: string, h: string, now: int, c: ContextKey, later: int)
    requires CollisionFree(w)
    ensures var db := Run(w, Empty(), steps).db; var (outcome, n) := Rollback(db, g, now);
            && (outcome.Ok? <==> g != "" && g in db.generations && db.generations[g].status == Retained && WithinWindow(db.generations[g], now))
            && (outcome.Ok? ==> && g in n.generations && n.generations[g] == db.generations[g].(status := Active, retainedAt := None)
                                && n.generations.Keys == db.generations.Keys && n.vectors == db.vectors && n.contexts == db.contexts
                                && (h in db.generations && h != g && db.generations[h].status == Active ==>
                                      n.generations[h] == db.generations[h].(status := Retained, retainedAt := Some(now)))
                                && (h in db.generations && h != g && db.generations[h].status != Active ==> n.generations[h] == db.generations[h])
                                && (HasDescription(db, c) && !Indexed(db, c, g) ==> Queued(n, c, g) && Claimable(n, RowKey(c, g), later)))
            && (outcome.Err? ==> n == db)
  {
    RunKeeps(w, Empty(), steps);
  }

  // A retained generation can be rolled back to for seven days after it was replaced, and can
  // be pruned exactly from then on.
  lemma WindowIsSevenDays(db: Tables, g: string, now: int)
    requires g != "" && g in db.generations
    ensures var x := db.generations[g];
            && (Rollback(db, g, now).0.Ok? <==> x.status == Retained && x.retainedAt.Some? && now <= x.retainedAt.value + 604800)
            && (Prune(db, g, now).0.Ok? <==> x.status == Retained && x.retainedAt.Some? && now > x.retainedAt.value + 604800)
  {
  }

  // A prune removes the generation with its tasks and vectors and nothing else.
  lemma PruneRemoves(db: Tables, g: string, now: int, r: RowKey)
    ensures var (outcome, n) := Prune(db, g, now);
            && (outcome.Ok? <==> g in db.generations && Expired(db.generations[g], now))
            && (outcome.Err? ==> n == db)
            && (outcome.Ok? ==> && n.generations == db.generations - {g} && n.contexts == db.contexts && n.assets == db.assets
                                && (r in n.tasks <==> r in db.tasks && r.generation != g) && (r in n.tasks ==> n.tasks[r] == db.tasks[r])
                                && (r in n.vectors <==> r in db.vectors && r.generation != g) && (r in n.vectors ==> n.vectors[r] == db.vectors[r]))
  {
  }

  // A deletion removes the asset with everything under it and nothing else, and an asset
  // created again carries a deletion generation it never had.
  lemma DeletionCascades(db: Tables, a: string, c: ContextKey, r: RowKey)
    ensures var n := DeleteAsset(db, a);
            && a !in n.assets && n.generations == db.generations && n.assets == db.assets - {a}
            && (c in n.contexts <==> c in db.contexts && c.asset != a) && (c in n.contexts ==> n.contexts[c] == db.contexts[c])
            && (r in n.tasks <==> r in db.tasks && r.owner.asset != a) && (r in n.tasks ==> n.tasks[r] == db.tasks[r])
            && (r in n.vectors <==> r in db.vectors && r.owner.asset != a) && (r in n.vectors ==> n.vectors[r] == db.vectors[r])
            && var again := CreateAsset(n, a);
               a in again.assets && again.assets[a] == (if a in db.tombstones then db.tombstones[a] else 0) + 1
  {
  }

  // ------------------------------------------------------------------- carried through

  // From any reachable state, a claimable task for the current description ends as an index
  // row holding the model's output on the text of that description.
  lemma WorkerSucceeds(w: World, steps: seq<Step>, r: RowKey, token: Token, now: int)
    requires CollisionFree(w)
    ensures var s := Run(w, Empty(), steps);
            Claimable(s.db, r, now) && Queued(s.db, r.owner, r.generation) && token !in s.workers ==>
              var n := Next(w, Next(w, Next(w, s, DoClaim(r, token, now)), DoRead(token)), DoPublish(token, now)).db;
              && Indexed(n, r.owner, r.generation) && r !in n.tasks
              && n.vectors[r].embedding
                   == w.embed(s.db.generations[r.generation].contract,
                              s.db.generations[r.generation].contract.documentPrefix + s.db.contexts[r.owner].document.text)
  {
    RunKeeps(w, Empty(), steps);
    var s := Run(w, Empty(), steps);
    if Claimable(s.db, r, now) && Queued(s.db, r.owner, r.generation) && token !in s.workers {
      Carried(w, s, r, token, now);
    }
  }

  lemma Carried(w: World, s: System, r: RowKey, token: Token, now: int)
    requires Claimable(s.db, r, now) && Queued(s.db, r.owner, r.generation) && token !in s.workers
    ensures var n := Next(w, Next(w, Next(w, s, DoClaim(r, token, now)), DoRead(token)), DoPublish(token, now)).db;
            && Indexed(n, r.owner, r.generation) && r !in n.tasks
            && n.vectors[r].embedding
                 == w.embed(s.db.generations[r.generation].contract,
                            s.db.generations[r.generation].contract.documentPrefix + s.db.contexts[r.owner].document.text)
  {
    var a := Next(w, s, DoClaim(r, token, now));
    assert token in a.workers && a.workers[token].row == r && a.workers[token].contract == s.db.generations[r.generation].contract;
    assert a.db.contexts == s.db.contexts && a.db.generations == s.db.generations;
    var b := Next(w, a, DoRead(token));
    assert b.workers[token] == a.workers[token].(read := Some(s.db.contexts[r.owner].document)) && b.db == a.db;
    assert HoldsLease(b.db, r, token, now) && b.db.tasks[r].stamp == s.db.contexts[r.owner].stamp;
    assert r == RowKey(r.owner, r.generation);
  }

  // The whole life of a description: enabled, created, begun, described, claimed, read,
  // published and activated, it is indexed in the active generation.
  lemma LifeOfADescription(w: World, c: ContextKey, g: string, contract: Contract, d: Document, token: Token, now: int)
    requires CollisionFree(w) && g != ""
    ensures var steps := [DoEnable, DoCreate(c.asset), DoBegin(g, contract), DoDescribe(c, 0, d, true), DoClaim(RowKey(c, g), token, now),
                          DoRead(token), DoPublish(token, now), DoActivate(g, now)];
            var n := Run(w, Empty(), steps).db;
            && g in n.generations && n.generations[g].status == Active && c in n.contexts && n.contexts[c].document == d
            && Indexed(n, c, g) && n.vectors[RowKey(c, g)].embedding == w.embed(contract, contract.documentPrefix + d.text)
  {
    var steps := [DoEnable, DoCreate(c.asset), DoBegin(g, contract), DoDescribe(c, 0, d, true), DoClaim(RowKey(c, g), token, now),
                  DoRead(token), DoPublish(token, now), DoActivate(g, now)];
    RunUnrolled(w, Empty(), steps);
    var s3 := Next(w, Next(w, Next(w, Empty(), DoEnable), DoCreate(c.asset)), DoBegin(g, contract));
    Prepared(w, c.asset, g, contract);
    Described(w, s3.db, c, g, d, now);
    LifeTail(w, Next(w, s3, DoDescribe(c, 0, d, true)), c, g, token, now);
  }

  lemma LifeTail(w: World, s: System, c: ContextKey, g: string, token: Token, now: int)
    requires g != "" && g in s.db.generations && s.db.generations[g].status == Building && s.db.contexts.Keys == {c} && s.workers == map[]
    requires Queued(s.db, c, g) && Claimable(s.db, RowKey(c, g), now)
    ensures var m := Next(w, Next(w, Next(w, s, DoClaim(RowKey(c, g), token, now)), DoRead(token)), DoPublish(token, now));
            var n := Next(w, m, DoActivate(g, now)).db; var contract := s.db.generations[g].contract;
            && g in n.generations && n.generations[g].status == Active && n.contexts == s.db.contexts
            && Indexed(n, c, g) && n.vectors[RowKey(c, g)].embedding == w.embed(contract, contract.documentPrefix + s.db.contexts[c].document.text)
  {
    Carried(w, s, RowKey(c, g), token, now);
    CarriedKeeps(w, s, RowKey(c, g), token, now);
    var m := Next(w, Next(w, Next(w, s, DoClaim(RowKey(c, g), token, now)), DoRead(token)), DoPublish(token, now));
    Activated(m.db, c, g, now);
  }

  lemma Prepared(w: World, asset: string, g: string, contract: Contract)
    ensures var s := Next(w, Next(w, Next(w, Empty(), DoEnable), DoCreate(asset)), DoBegin(g, contract));
            && s.db.generations == map[g := Generation(contract, Building, None)] && s.db.assets == map[asset := 0]
            && s.db.contexts == map[] && s.workers == map[]
  {
  }

  lemma Described(w: World, db: Tables, c: ContextKey, g: string, d: Document, now: int)
    requires db.assets == map[c.asset := 0] && db.contexts == map[] && g in db.generations && Live(db.generations[g]) && w.hash(d) != ""
    ensures var n := Describe(w, db, c, 0, d, true);
            && n.contexts == map[c := Context(d, Stamp(1, w.hash(d), 0))] && n.generations == db.generations
            && Queued(n, c, g) && Claimable(n, RowKey(c, g), now)
  {
  }

  lemma CarriedKeeps(w: World, s: System, r: RowKey, token: Token, now: int)
    ensures var n := Next(w, Next(w, Next(w, s, DoClaim(r, token, now)), DoRead(token)), DoPublish(token, now)).db;
            n.contexts == s.db.contexts && n.generations == s.db.generations
  {
    var a := Next(w, s, DoClaim(r, token, now));
    var b := Next(w, a, DoRead(token));
    assert a.db.contexts == s.db.contexts && a.db.generations == s.db.generations;
    assert b.db == a.db;
    PublishKeepsRows(w, b, token, now);
  }

  lemma PublishKeepsRows(w: World, s: System, token: Token, now: int)
    ensures var n := Next(w, s, DoPublish(token, now)).db; n.contexts == s.db.contexts && n.generations == s.db.generations
  {
  }

  lemma Activated(db: Tables, c: ContextKey, g: string, now: int)
    requires g != "" && g in db.generations && db.generations[g].status == Building && db.contexts.Keys == {c} && Indexed(db, c, g)
    ensures var n := Activate(db, g, now).1;
            g in n.generations && n.generations[g].status == Active && n.contexts == db.contexts && n.vectors == db.vectors
  {
    PendingZero(db, g);
  }

  lemma RunUnrolled(w: World, s: System, steps: seq<Step>)
    requires |steps| == 8
    ensures Run(w, s, steps)
            == Next(w, Next(w, Next(w, Next(w, Next(w, Next(w, Next(w, Next(w, s, steps[0]), steps[1]), steps[2]), steps[3]), steps[4]), steps[5]), steps[6]), steps[7])
  {
    var s1 := Next(w, s, steps[0]);
    var s2 := Next(w, s1, steps[1]);
    var s3 := Next(w, s2, steps[2]);
    var s4 := Next(w, s3, steps[3]);
    RunFour(w, s, steps);
    RunFour(w, s4, steps[4..]);
    assert Run(w, s4, steps[4..]) == Run(w, Next(w, Next(w, Next(w, Next(w, s4, steps[4]), steps[5]), steps[6]), steps[7]), []);
  }

  lemma RunFour(w: World, s: System, steps: seq<Step>)
    requires |steps| >= 4
    ensures Run(w, s, steps) == Run(w, Next(w, Next(w, Next(w, Next(w, s, steps[0]), steps[1]), steps[2]), steps[3]), steps[4..])
  {
    var a, b, c := steps[1..], steps[2..], steps[3..];
    assert a[1..] == b && b[1..] == c && c[1..] == steps[4..] && a[0] == steps[1] && b[0] == steps[2] && c[0] == steps[3];
    var s1 := Next(w, s, steps[0]);
    var s2 := Next(w, s1, a[0]);
    var s3 := Next(w, s2, b[0]);
    assert Run(w, s, steps) == Run(w, s1, a);
    assert Run(w, s1, a) == Run(w, s2, b);
    assert Run(w, s2, b) == Run(w, s3, c);
  }
}
