// The embedding index: generations, leased tasks and vector rows kept in step with
// asset descriptions that change underneath running workers.
//
// Tables are maps and every transaction is one function from tables to tables. The
// transactions that take advisory lock 174120260922 are atomic with respect to each
// other; a worker's claim, its read of the description and its publication are three
// separate transactions, so any step may happen between them.
module Embedding {
  import opened Options

  const MAXIMUM_ATTEMPTS := 5
  const LEASE_SECONDS := 30
  const ROLLBACK_WINDOW := 7 * 86400

  type Vector = seq<real>
  type Token = string

  // An immutable model contract; a generation ID can be pruned and begun again with another one.
  datatype Contract = Contract(modelId: string, dimensions: nat, documentPrefix: string)
  datatype Document = Document(format: string, text: string)
  datatype ContextKey = ContextKey(asset: string, context: string)
  datatype RowKey = RowKey(owner: ContextKey, generation: string)

  // The parts of a row that tie a task or vector to one description.
  datatype Stamp = Stamp(revision: nat, hash: string, deletionGeneration: nat)

  datatype Context = Context(document: Document, stamp: Stamp)
  datatype GenerationStatus = Building | Active | Retained
  datatype Generation = Generation(contract: Contract, status: GenerationStatus, retainedAt: Option<int>)
  datatype TaskStatus = Pending | Running | Failed
  datatype Task = Task(stamp: Stamp, status: TaskStatus, attempts: nat, token: Option<Token>,
                       leaseExpires: Option<int>, nextAttempt: Option<int>)
  datatype VectorRow = VectorRow(stamp: Stamp, embedding: Vector)

  datatype Tables = Tables(
    assets: map<string, nat>,             // asset -> its deletion generation
    tombstones: map<string, nat>,         // asset -> last deletion generation
    contexts: map<ContextKey, Context>,
    generations: map<string, Generation>,
    tasks: map<RowKey, Task>,
    vectors: map<RowKey, VectorRow>,
    vectorStorage: bool)

  // What a worker holds in memory between its transactions.
  datatype Worker = Worker(row: RowKey, hash: string, deletionGeneration: nat, contract: Contract, read: Option<Document>)

  // The content hash and the local model are foreign code: arbitrary functions.
  datatype World = World(hash: Document -> string, embed: (Contract, string) -> Vector)

  // SHA-256 over format and text is assumed collision-free, and its rendering is never empty.
  ghost predicate CollisionFree(w: World) {
    && (forall d :: w.hash(d) != "")
    && (forall d, e :: w.hash(d) == w.hash(e) ==> d == e)
  }

  datatype Coverage = Coverage(eligible: nat, current: nat, failed: nat, pending: nat)
  datatype Error = NotFound | InvalidOptions | CapabilityUnavailable | IdempotencyConflict
  datatype Outcome<+T> = Ok(value: T) | Err(error: Error)

  // ---------------------------------------------------------------- coverage

  predicate Live(g: Generation) { g.status == Building || g.status == Active }

  predicate HasDescription(db: Tables, c: ContextKey) {
    c in db.contexts && db.contexts[c].stamp.hash != ""
  }

  predicate Indexed(db: Tables, c: ContextKey, g: string) {
    c in db.contexts && RowKey(c, g) in db.vectors && db.vectors[RowKey(c, g)].stamp == db.contexts[c].stamp
  }

  predicate Queued(db: Tables, c: ContextKey, g: string) {
    c in db.contexts && RowKey(c, g) in db.tasks && db.tasks[RowKey(c, g)].stamp == db.contexts[c].stamp
  }

  predicate Exhausted(db: Tables, c: ContextKey, g: string) {
    Queued(db, c, g) && db.tasks[RowKey(c, g)].status == Failed && db.tasks[RowKey(c, g)].attempts >= MAXIMUM_ATTEMPTS
  }

  function Eligible(db: Tables): set<ContextKey> {
    set c | c in db.contexts && HasDescription(db, c)
  }

  function CoverageOf(db: Tables, g: string): Coverage {
    Coverage(
      |Eligible(db)|,
      |set c | c in Eligible(db) && Indexed(db, c, g)|,
      |set c | c in Eligible(db) && !Indexed(db, c, g) && Exhausted(db, c, g)|,
      |set c | c in Eligible(db) && !Indexed(db, c, g) && !Exhausted(db, c, g)|)
  }

  // ------------------------------------------------------------ transactions

  function FreshTask(stamp: Stamp): Task {
    Task(stamp, Pending, 0, None, None, None)
  }

  function CreateAsset(db: Tables, a: string): Tables {
    if a in db.assets then db
    else db.(assets := db.assets[a := if a in db.tombstones then db.tombstones[a] else 0])
  }

  function DeleteAsset(db: Tables, a: string): Tables {
    db.(tombstones := db.tombstones[a := if a in db.tombstones then db.tombstones[a] + 1 else 1],
        assets := db.assets - {a},
        contexts := map c | c in db.contexts && c.asset != a :: db.contexts[c],
        tasks := map r | r in db.tasks && r.owner.asset != a :: db.tasks[r],
        vectors := map r | r in db.vectors && r.owner.asset != a :: db.vectors[r])
  }

  // Publication of a description for context c, computed under deletion generation
  // `generation`; `replace` is the projector's decision.
  function Describe(w: World, db: Tables, c: ContextKey, generation: nat, document: Document, replace: bool): Tables {
    if c.asset !in db.assets || db.assets[c.asset] != generation then db
    else if replace then Replaced(w, Opened(db, c, generation), c, generation, document)
    else Opened(db, c, generation)
  }

  // INSERT ... ON CONFLICT DO NOTHING
  function Opened(db: Tables, c: ContextKey, generation: nat): Tables {
    if c in db.contexts then db
    else db.(contexts := db.contexts[c := Context(Document("", ""), Stamp(0, "", generation))])
  }

  // The row description publication writes for an existing context.
  function Republished(w: World, db: Tables, c: ContextKey, document: Document): Tables
    requires c in db.contexts
  {
    var stamp := db.contexts[c].stamp;
    db.(contexts := db.contexts[c := Context(document, stamp.(revision := stamp.revision + 1, hash := w.hash(document)))])
  }

  // Tasks and vectors are stamped with the asset's deletion generation, not the context's.
  function Replaced(w: World, db: Tables, c: ContextKey, generation: nat, document: Document): Tables
    requires c in db.contexts
  {
    var p := Republished(w, db, c, document);
    var stamp := p.contexts[c].stamp.(deletionGeneration := generation);
    if stamp.hash != db.contexts[c].stamp.hash then Requeue(p, c, stamp) else Advance(p, c, stamp)
  }

  // A changed description queues fresh work in every live generation.
  function Requeue(db: Tables, c: ContextKey, stamp: Stamp): Tables {
    db.(tasks := db.tasks + map r | r in LiveRows(db, c) :: FreshTask(stamp))
  }

  function LiveRows(db: Tables, c: ContextKey): (rows: set<RowKey>)
    ensures forall r :: r in rows <==> r.owner == c && r.generation in db.generations && Live(db.generations[r.generation])
  {
    set g | g in db.generations && Live(db.generations[g]) :: RowKey(c, g)
  }

  // An unchanged description moves the revision of matching tasks and vectors forward.
  function Advance(db: Tables, c: ContextKey, stamp: Stamp): Tables {
    db.(tasks := map r | r in db.tasks ::
                   if r.owner == c && SameDescription(db.tasks[r].stamp, stamp)
                   then db.tasks[r].(stamp := stamp) else db.tasks[r],
        vectors := map r | r in db.vectors ::
                   if r.owner == c && SameDescription(db.vectors[r].stamp, stamp)
                   then db.vectors[r].(stamp := stamp) else db.vectors[r])
  }

  predicate SameDescription(a: Stamp, b: Stamp) {
    a.hash == b.hash && a.deletionGeneration == b.deletionGeneration
  }

  function Begin(db: Tables, g: string, contract: Contract): (Outcome<nat>, Tables) {
    if !db.vectorStorage then (Err(CapabilityUnavailable), db)
    else if g in db.generations then (Err(IdempotencyConflict), db)
    else (Ok(|Eligible(db)|),
          db.(generations := db.generations[g := Generation(contract, Building, None)],
              tasks := db.tasks + TasksFor(db, Eligible(db), g)))
  }

  // Fresh work in generation g for the current descriptions of a set of contexts.
  function TasksFor(db: Tables, owners: set<ContextKey>, g: string): (tasks: map<RowKey, Task>)
    requires owners <= db.contexts.Keys
    ensures forall r :: r in tasks <==> r.owner in owners && r.generation == g
    ensures forall r :: r in tasks ==> tasks[r] == FreshTask(db.contexts[r.owner].stamp)
  {
    var rows := set c | c in owners :: RowKey(c, g);
    map r | r in rows :: FreshTask(db.contexts[r.owner].stamp)
  }

  // Retire whatever is active and make g active.
  function Select(db: Tables, g: string, now: int): Tables
    requires g in db.generations
  {
    db.(generations := map h | h in db.generations ::
          if h == g then db.generations[h].(status := Active, retainedAt := None)
          else if db.generations[h].status == Active then db.generations[h].(status := Retained, retainedAt := Some(now))
          else db.generations[h])
  }

  function Activate(db: Tables, g: string, now: int): (Outcome<Coverage>, Tables) {
    if g == "" then (Err(InvalidOptions), db)
    else if g !in db.generations then (Err(NotFound), db)
    else if db.generations[g].status != Building then (Err(InvalidOptions), db)
    else if CoverageOf(db, g).pending != 0 then (Err(CapabilityUnavailable), db)
    else (Ok(CoverageOf(db, g)), Select(db, g, now))
  }

  predicate WithinWindow(g: Generation, now: int) {
    g.retainedAt.Some? && g.retainedAt.value >= now - ROLLBACK_WINDOW
  }

  function Rollback(db: Tables, g: string, now: int): (Outcome<Coverage>, Tables) {
    if g == "" then (Err(InvalidOptions), db)
    else if g !in db.generations then (Err(NotFound), db)
    else if db.generations[g].status != Retained || !WithinWindow(db.generations[g], now) then (Err(CapabilityUnavailable), db)
    else
      var selected := Select(db, g, now);
      var gaps := set c | c in Eligible(selected) && !Indexed(selected, c, g);
      var queued := selected.(tasks := selected.tasks + TasksFor(selected, gaps, g));
      (Ok(CoverageOf(queued, g)), queued)
  }

  predicate Expired(g: Generation, now: int) {
    g.status == Retained && g.retainedAt.Some? && g.retainedAt.value < now - ROLLBACK_WINDOW
  }

  function Prune(db: Tables, g: string, now: int): (Outcome<()>, Tables) {
    if g !in db.generations then (Err(NotFound), db)
    else if !Expired(db.generations[g], now) then (Err(CapabilityUnavailable), db)
    else (Ok(()), db.(generations := db.generations - {g},
                      tasks := map r | r in db.tasks && r.generation != g :: db.tasks[r],
                      vectors := map r | r in db.vectors && r.generation != g :: db.vectors[r]))
  }

  predicate Claimable(db: Tables, r: RowKey, now: int) {
    && r in db.tasks
    && r.generation in db.generations && Live(db.generations[r.generation])
    && db.tasks[r].attempts < MAXIMUM_ATTEMPTS
    && match db.tasks[r].status {
         case Pending => true
         case Failed => db.tasks[r].nextAttempt.Some? && db.tasks[r].nextAttempt.value <= now
         case Running => db.tasks[r].leaseExpires.Some? && db.tasks[r].leaseExpires.value <= now
       }
  }

  function Claim(db: Tables, r: RowKey, token: Token, now: int): Tables
    requires Claimable(db, r, now)
  {
    var t := db.tasks[r];
    db.(tasks := db.tasks[r := t.(status := Running, attempts := t.attempts + 1,
                                  token := Some(token), leaseExpires := Some(now + LEASE_SECONDS))])
  }

  // The worker's second transaction: None when deletion or a new description invalidated the lease.
  function ReadDescription(db: Tables, k: Worker): Option<Document> {
    if k.row.owner in db.contexts
       && db.contexts[k.row.owner].stamp.deletionGeneration == k.deletionGeneration
       && db.contexts[k.row.owner].stamp.hash == k.hash
    then Some(db.contexts[k.row.owner].document) else None
  }

  predicate HoldsLease(db: Tables, r: RowKey, token: Token, now: int) {
    && r in db.tasks && db.tasks[r].status == Running && db.tasks[r].token == Some(token)
    && db.tasks[r].leaseExpires.Some? && db.tasks[r].leaseExpires.value > now
  }

  function Publish(db: Tables, r: RowKey, token: Token, embedding: Vector, now: int): Tables {
    if !HoldsLease(db, r, token, now) then db
    else if r.owner !in db.contexts || r.generation !in db.generations then db
    else if db.contexts[r.owner].stamp != db.tasks[r].stamp || !Live(db.generations[r.generation]) then db
    else db.(vectors := db.vectors[r := VectorRow(db.tasks[r].stamp, embedding)],
             tasks := db.tasks - {r})
  }

  function Backoff(attempts: nat): nat {
    if attempts * attempts < 300 then attempts * attempts else 300
  }

  function Fail(db: Tables, r: RowKey, token: Token, now: int): Tables {
    if r !in db.tasks || db.tasks[r].token != Some(token) then db
    else
      var t := db.tasks[r];
      db.(tasks := db.tasks[r := t.(status := Failed, token := None, leaseExpires := None,
                                    nextAttempt := Some(now + Backoff(t.attempts)))])
  }

  // ------------------------------------------------------------- the system

  datatype System = System(db: Tables, workers: map<Token, Worker>)

  datatype Step =
    | DoEnable
    | DoCreate(asset: string)
    | DoDelete(asset: string)
    | DoDescribe(owner: ContextKey, deletionGeneration: nat, document: Document, replace: bool)
    | DoBegin(g: string, contract: Contract)
    | DoActivate(g: string, now: int)
    | DoRollback(g: string, now: int)
    | DoPrune(g: string, now: int)
    | DoClaim(row: RowKey, token: Token, now: int)
    | DoRead(token: Token)
    | DoPublish(token: Token, now: int)
    | DoFail(token: Token, now: int)

  // A step that is not enabled leaves the system alone. Lease tokens are random IDs, so a
  // claim never reuses one; nothing orders or repeats the later steps of a worker.
  function Next(w: World, s: System, step: Step): System {
    match step
    case DoEnable => s.(db := s.db.(vectorStorage := true))
    case DoCreate(a) => s.(db := CreateAsset(s.db, a))
    case DoDelete(a) => s.(db := DeleteAsset(s.db, a))
    case DoDescribe(c, generation, document, replace) => s.(db := Describe(w, s.db, c, generation, document, replace))
    case DoBegin(g, contract) => s.(db := Begin(s.db, g, contract).1)
    case DoActivate(g, now) => s.(db := Activate(s.db, g, now).1)
    case DoRollback(g, now) => s.(db := Rollback(s.db, g, now).1)
    case DoPrune(g, now) => s.(db := Prune(s.db, g, now).1)
    case DoClaim(r, token, now) =>
      if token in s.workers || !Claimable(s.db, r, now) then s
      else System(Claim(s.db, r, token, now),
                  s.workers[token := Worker(r, s.db.tasks[r].stamp.hash, s.db.tasks[r].stamp.deletionGeneration,
                                            s.db.generations[r.generation].contract, None)])
    case DoRead(token) =>
      if token !in s.workers then s
      else
        var k := s.workers[token];
        if ReadDescription(s.db, k).None? then s
        else s.(workers := s.workers[token := k.(read := ReadDescription(s.db, k))])
    case DoPublish(token, now) =>
      if token !in s.workers || s.workers[token].read.None? then s
      else
        var k := s.workers[token];
        s.(db := Publish(s.db, k.row, token, w.embed(k.contract, k.contract.documentPrefix + k.read.value.text), now))
    case DoFail(token, now) =>
      if token !in s.workers then s else s.(db := Fail(s.db, s.workers[token].row, token, now))
  }

  function Run(w: World, s: System, steps: seq<Step>): System
    decreases |steps|
  {
    if steps == [] then s else Run(w, Next(w, s, steps[0]), steps[1..])
  }

  function Empty(): System {
    System(Tables(map[], map[], map[], map[], map[], map[], false), map[])
  }

  // ----------------------------------------------------------- the invariant

  // Foreign keys, and a context carries its asset's deletion generation.
  ghost predicate Linked(db: Tables) {
    && (forall c :: c in db.contexts ==> c.asset in db.assets && db.contexts[c].stamp.deletionGeneration == db.assets[c.asset])
    && (forall r :: r in db.tasks ==> r.owner in db.contexts && r.generation in db.generations
                                      && db.tasks[r].stamp.hash != "" && db.tasks[r].attempts <= MAXIMUM_ATTEMPTS)
    && (forall r :: r in db.vectors ==> r.owner in db.contexts && r.generation in db.generations)
  }

  ghost predicate OneActive(db: Tables) {
    forall g, h | g in db.generations && h in db.generations ::
      db.generations[g].status == Active && db.generations[h].status == Active ==> g == h
  }

  // Every live generation has, for every described context, a vector or a task for exactly
  // the current description.
  ghost predicate Covered(db: Tables) {
    forall g, c :: CoveredAt(db, g, c)
  }

  predicate CoveredAt(db: Tables, g: string, c: ContextKey) {
    g in db.generations && Live(db.generations[g]) && HasDescription(db, c) ==> Indexed(db, c, g) || Queued(db, c, g)
  }

  ghost predicate Hashed(w: World, db: Tables) {
    forall c :: HashedAt(w, db, c)
  }

  predicate HashedAt(w: World, db: Tables, c: ContextKey) {
    HasDescription(db, c) ==> db.contexts[c].stamp.hash == w.hash(db.contexts[c].document)
  }

  // A vector row is the model output for whatever document has its hash.
  ghost predicate ModelOutput(w: World, contract: Contract, v: VectorRow) {
    forall d {:trigger w.hash(d)} :: w.hash(d) == v.stamp.hash ==> v.embedding == w.embed(contract, contract.documentPrefix + d.text)
  }

  ghost predicate Sound(w: World, db: Tables) {
    forall r :: SoundAt(w, db, r)
  }

  ghost predicate SoundAt(w: World, db: Tables, r: RowKey) {
    r in db.vectors ==> r.generation in db.generations && ModelOutput(w, db.generations[r.generation].contract, db.vectors[r])
  }

  // A worker has read the document its claim hashes, and a task still carrying its token is
  // the task it claimed, under the same model contract.
  ghost predicate WorkerFaithful(w: World, s: System, token: Token) {
    token in s.workers ==>
    var k := s.workers[token];
    && k.hash != ""
    && (k.read.Some? ==> w.hash(k.read.value) == k.hash)
    && (k.row in s.db.tasks && s.db.tasks[k.row].token == Some(token) ==>
          && s.db.tasks[k.row].stamp.hash == k.hash
          && k.row.generation in s.db.generations && s.db.generations[k.row.generation].contract == k.contract)
  }

  ghost predicate Fenced(w: World, s: System) {
    && (forall token :: WorkerFaithful(w, s, token))
    && (forall r :: LeaseOwned(s, r))
  }

  predicate LeaseOwned(s: System, r: RowKey) {
    r in s.db.tasks && s.db.tasks[r].token.Some? ==>
      s.db.tasks[r].token.value in s.workers && s.workers[s.db.tasks[r].token.value].row == r
  }

  ghost predicate Inv(w: World, s: System) {
    && Linked(s.db) && OneActive(s.db) && Covered(s.db) && Hashed(w, s.db) && Sound(w, s.db) && Fenced(w, s)
  }

  // ------------------------------------------------------------------ proofs

  // Opening an empty context row owes nothing to any generation.
  lemma OpenedKeeps(w: World, s: System, c: ContextKey)
    requires Inv(w, s) && c.asset in s.db.assets
    ensures Inv(w, s.(db := Opened(s.db, c, s.db.assets[c.asset])))
  {
    if c !in s.db.contexts {
      var db := Opened(s.db, c, s.db.assets[c.asset]);
      assert db == s.db.(contexts := db.contexts);
      forall g, d ensures CoveredAt(db, g, d) { assert CoveredAt(s.db, g, d); }
      forall d ensures HashedAt(w, db, d) { assert HashedAt(w, s.db, d); }
      SameRowsKeep(w, s, db);
    } else {
      assert s.(db := s.db) == s;
    }
  }

  // Tables with the same generations, tasks and vectors keep soundness and fencing.
  lemma SameRowsKeep(w: World, s: System, db: Tables)
    requires Sound(w, s.db) && Fenced(w, s)
    requires db.generations == s.db.generations && db.tasks == s.db.tasks && db.vectors == s.db.vectors
    ensures Sound(w, db) && Fenced(w, s.(db := db))
  {
    forall r ensures SoundAt(w, db, r) { assert SoundAt(w, s.db, r); }
    forall token ensures WorkerFaithful(w, s.(db := db), token) { assert WorkerFaithful(w, s, token); }
    forall q ensures LeaseOwned(s.(db := db), q) { assert LeaseOwned(s, q); }
  }

  lemma RequeueCovers(w: World, db: Tables, c: ContextKey, document: Document)
    requires CollisionFree(w) && Linked(db) && Covered(db) && c in db.contexts
    ensures var p := Republished(w, db, c, document); var n := Requeue(p, c, p.contexts[c].stamp); Linked(n) && Covered(n)
  {
    var p := Republished(w, db, c, document);
    var n := Requeue(p, c, p.contexts[c].stamp);
    forall g, d ensures CoveredAt(n, g, d) {
      assert CoveredAt(db, g, d);
      assert g in db.generations && Live(db.generations[g]) ==> RowKey(c, g) in LiveRows(p, c);
    }
  }

  lemma AdvanceCovers(w: World, db: Tables, c: ContextKey, document: Document)
    requires CollisionFree(w) && Linked(db) && Covered(db) && c in db.contexts && db.contexts[c].stamp.hash == w.hash(document)
    ensures var p := Republished(w, db, c, document); var n := Advance(p, c, p.contexts[c].stamp); Linked(n) && Covered(n)
  {
    var p := Republished(w, db, c, document);
    var n := Advance(p, c, p.contexts[c].stamp);
    forall g, d ensures CoveredAt(n, g, d) { assert CoveredAt(db, g, d); }
  }

  // A changed description takes the lease away from every live task of the context.
  lemma RequeueFences(w: World, s: System, c: ContextKey, stamp: Stamp)
    requires Fenced(w, s)
    ensures Fenced(w, s.(db := Requeue(s.db, c, stamp)))
  {
    var n := s.(db := Requeue(s.db, c, stamp));
    forall token ensures WorkerFaithful(w, n, token) { assert WorkerFaithful(w, s, token); }
    forall q ensures LeaseOwned(n, q) { assert LeaseOwned(s, q); }
  }

  lemma AdvanceFences(w: World, s: System, c: ContextKey, stamp: Stamp)
    requires Fenced(w, s)
    ensures Fenced(w, s.(db := Advance(s.db, c, stamp)))
  {
    var n := s.(db := Advance(s.db, c, stamp));
    forall token ensures WorkerFaithful(w, n, token) { assert WorkerFaithful(w, s, token); }
    forall q ensures LeaseOwned(n, q) { assert LeaseOwned(s, q); }
  }

  lemma AdvanceSound(w: World, db: Tables, c: ContextKey, stamp: Stamp)
    requires Sound(w, db)
    ensures Sound(w, Advance(db, c, stamp))
  {
    var n := Advance(db, c, stamp);
    forall r ensures SoundAt(w, n, r) { assert SoundAt(w, db, r); }
  }

  lemma ReplacedKeeps(w: World, s: System, c: ContextKey, generation: nat, document: Document)
    requires CollisionFree(w) && Inv(w, s) && c in s.db.contexts && s.db.assets[c.asset] == generation
    ensures Inv(w, s.(db := Replaced(w, s.db, c, generation, document)))
  {
    var p := Republished(w, s.db, c, document);
    var stamp := p.contexts[c].stamp;
    assert stamp.(deletionGeneration := generation) == stamp;
    SameRowsKeep(w, s, p);
    if s.db.contexts[c].stamp.hash != w.hash(document) {
      RequeueCovers(w, s.db, c, document);
      RequeueFences(w, s.(db := p), c, stamp);
    } else {
      AdvanceCovers(w, s.db, c, document);
      AdvanceFences(w, s.(db := p), c, stamp);
      AdvanceSound(w, p, c, stamp);
    }
    HashedSound(w, s.db, p, Replaced(w, s.db, c, generation, document), c, document);
  }

  lemma HashedSound(w: World, db: Tables, p: Tables, n: Tables, c: ContextKey, document: Document)
    requires Hashed(w, db) && c in db.contexts && p == Republished(w, db, c, document) && n.contexts == p.contexts
    requires Sound(w, p) && n.generations == p.generations
    ensures Hashed(w, n)
    ensures n.vectors == p.vectors ==> Sound(w, n)
  {
    forall d ensures HashedAt(w, n, d) { assert HashedAt(w, db, d); }
    forall r ensures n.vectors == p.vectors ==> SoundAt(w, n, r) { assert SoundAt(w, p, r); }
  }

  lemma DescribeKeeps(w: World, s: System, c: ContextKey, generation: nat, document: Document, replace: bool)
    requires CollisionFree(w) && Inv(w, s)
    ensures Inv(w, s.(db := Describe(w, s.db, c, generation, document, replace)))
  {
    if c.asset in s.db.assets && s.db.assets[c.asset] == generation {
      OpenedKeeps(w, s, c);
      if replace {
        ReplacedKeeps(w, s.(db := Opened(s.db, c, generation)), c, generation, document);
      }
    }
  }

  lemma DeleteKeeps(w: World, s: System, a: string)
    requires Inv(w, s)
    ensures Inv(w, s.(db := DeleteAsset(s.db, a)))
  {
    var db := DeleteAsset(s.db, a);
    forall g, c ensures CoveredAt(db, g, c) { assert CoveredAt(s.db, g, c); }
    forall c ensures HashedAt(w, db, c) { assert HashedAt(w, s.db, c); }
    forall r ensures SoundAt(w, db, r) { assert SoundAt(w, s.db, r); }
    forall token ensures WorkerFaithful(w, s.(db := db), token) { assert WorkerFaithful(w, s, token); }
    forall q ensures LeaseOwned(s.(db := db), q) { assert LeaseOwned(s, q); }
  }

  // Queueing fresh tasks over existing ones only takes leases away.
  lemma QueueKeepsFence(w: World, s: System, owners: set<ContextKey>, g: string)
    requires Fenced(w, s) && Linked(s.db) && owners <= Eligible(s.db) && g in s.db.generations
    ensures var db := s.db.(tasks := s.db.tasks + TasksFor(s.db, owners, g));
            Fenced(w, s.(db := db)) && Linked(db)
  {
    QueueKeepsLinks(s.db, owners, g);
    var db := s.db.(tasks := s.db.tasks + TasksFor(s.db, owners, g));
    forall token ensures WorkerFaithful(w, s.(db := db), token) { assert WorkerFaithful(w, s, token); }
    forall q ensures LeaseOwned(s.(db := db), q) { assert LeaseOwned(s, q); }
  }

  lemma QueueKeepsLinks(db: Tables, owners: set<ContextKey>, g: string)
    requires Linked(db) && owners <= Eligible(db) && g in db.generations
    ensures Linked(db.(tasks := db.tasks + TasksFor(db, owners, g)))
  {
  }

  lemma BeginCovers(db: Tables, g: string, contract: Contract)
    requires Covered(db)
    ensures Covered(Begin(db, g, contract).1)
  {
    var n := Begin(db, g, contract).1;
    forall h, c ensures CoveredAt(n, h, c) {
      assert CoveredAt(db, h, c);
      assert HasDescription(n, c) ==> c in Eligible(db);
    }
  }

  // A generation ID that no row mentions can be added under any contract.
  lemma AddedKeeps(w: World, s: System, g: string, contract: Contract)
    requires Linked(s.db) && Sound(w, s.db) && Fenced(w, s) && g !in s.db.generations
    ensures var db := s.db.(generations := s.db.generations[g := Generation(contract, Building, None)]);
            Linked(db) && Sound(w, db) && Fenced(w, s.(db := db))
  {
    var db := s.db.(generations := s.db.generations[g := Generation(contract, Building, None)]);
    forall r ensures SoundAt(w, db, r) { assert SoundAt(w, s.db, r); }
    forall token ensures WorkerFaithful(w, s.(db := db), token) { assert WorkerFaithful(w, s, token); }
    forall q ensures LeaseOwned(s.(db := db), q) { assert LeaseOwned(s, q); }
  }

  lemma BeginKeeps(w: World, s: System, g: string, contract: Contract)
    requires Inv(w, s)
    ensures Inv(w, s.(db := Begin(s.db, g, contract).1))
  {
    BeginCovers(s.db, g, contract);
    if Begin(s.db, g, contract).0.Ok? {
      var added := s.db.(generations := s.db.generations[g := Generation(contract, Building, None)]);
      var db := Begin(s.db, g, contract).1;
      AddedKeeps(w, s, g, contract);
      assert Eligible(added) == Eligible(s.db);
      QueueKeepsFence(w, s.(db := added), Eligible(s.db), g);
      assert TasksFor(added, Eligible(s.db), g) == TasksFor(s.db, Eligible(s.db), g);
      forall c ensures HashedAt(w, db, c) { assert HashedAt(w, s.db, c); }
      forall r ensures SoundAt(w, db, r) { assert SoundAt(w, added, r); }
    }
  }

  // Selecting a generation keeps everything except coverage of the selected one.
  lemma SelectKeeps(w: World, s: System, g: string, now: int)
    requires Inv(w, s) && g in s.db.generations
    ensures var db := Select(s.db, g, now);
            Linked(db) && OneActive(db) && Hashed(w, db) && Sound(w, db) && Fenced(w, s.(db := db))
    ensures forall h, c :: h != g || Live(s.db.generations[g]) ==> CoveredAt(Select(s.db, g, now), h, c)
  {
    var db := Select(s.db, g, now);
    forall h, c ensures h != g || Live(s.db.generations[g]) ==> CoveredAt(db, h, c) { assert CoveredAt(s.db, h, c); }
    forall c ensures HashedAt(w, db, c) { assert HashedAt(w, s.db, c); }
    forall r ensures SoundAt(w, db, r) { assert SoundAt(w, s.db, r); }
    forall token ensures WorkerFaithful(w, s.(db := db), token) { assert WorkerFaithful(w, s, token); }
    forall q ensures LeaseOwned(s.(db := db), q) { assert LeaseOwned(s, q); }
  }

  lemma ActivateKeeps(w: World, s: System, g: string, now: int)
    requires Inv(w, s)
    ensures Inv(w, s.(db := Activate(s.db, g, now).1))
  {
    if Activate(s.db, g, now).0.Ok? {
      SelectKeeps(w, s, g, now);
    }
  }

  lemma RollbackCovers(w: World, s: System, g: string, now: int)
    requires Inv(w, s)
    ensures Covered(Rollback(s.db, g, now).1)
  {
    if Rollback(s.db, g, now).0.Ok? {
      SelectKeeps(w, s, g, now);
      var selected := Select(s.db, g, now);
      var db := Rollback(s.db, g, now).1;
      forall h, c ensures CoveredAt(db, h, c) {
        assert h != g ==> CoveredAt(selected, h, c);
        assert HasDescription(db, c) ==> c in Eligible(selected);
      }
    }
  }

  lemma RollbackKeeps(w: World, s: System, g: string, now: int)
    requires Inv(w, s)
    ensures Inv(w, s.(db := Rollback(s.db, g, now).1))
  {
    RollbackCovers(w, s, g, now);
    if Rollback(s.db, g, now).0.Ok? {
      SelectKeeps(w, s, g, now);
      var selected := Select(s.db, g, now);
      var gaps := set c | c in Eligible(selected) && !Indexed(selected, c, g);
      QueueKeepsFence(w, s.(db := selected), gaps, g);
      var db := selected.(tasks := selected.tasks + TasksFor(selected, gaps, g));
      assert db == Rollback(s.db, g, now).1;
      forall c ensures HashedAt(w, db, c) { assert HashedAt(w, selected, c); }
      forall r ensures SoundAt(w, db, r) { assert SoundAt(w, selected, r); }
    }
  }

  lemma PruneKeeps(w: World, s: System, g: string, now: int)
    requires Inv(w, s)
    ensures Inv(w, s.(db := Prune(s.db, g, now).1))
  {
    var db := Prune(s.db, g, now).1;
    forall h, c ensures CoveredAt(db, h, c) { assert CoveredAt(s.db, h, c); }
    forall c ensures HashedAt(w, db, c) { assert HashedAt(w, s.db, c); }
    forall r ensures SoundAt(w, db, r) { assert SoundAt(w, s.db, r); }
    forall token ensures WorkerFaithful(w, s.(db := db), token) { assert WorkerFaithful(w, s, token); }
    forall q ensures LeaseOwned(s.(db := db), q) { assert LeaseOwned(s, q); }
  }

  // A publication that takes effect stores the model output for the task's own hash.
  lemma PublishKeeps(w: World, s: System, token: Token, now: int)
    requires CollisionFree(w) && Inv(w, s)
    ensures Inv(w, Next(w, s, DoPublish(token, now)))
  {
    var n := Next(w, s, DoPublish(token, now));
    if n != s {
      assert n.db == s.db.(vectors := n.db.vectors, tasks := n.db.tasks) && n.workers == s.workers;
      forall h, c ensures CoveredAt(n.db, h, c) { assert CoveredAt(s.db, h, c); }
      forall c ensures HashedAt(w, n.db, c) { assert HashedAt(w, s.db, c); }
      forall r ensures SoundAt(w, n.db, r) {
        assert SoundAt(w, s.db, r) && WorkerFaithful(w, s, token);
      }
      forall other ensures WorkerFaithful(w, n, other) { assert WorkerFaithful(w, s, other); }
      forall q ensures LeaseOwned(n, q) { assert LeaseOwned(s, q); }
    }
  }

  lemma ClaimKeeps(w: World, s: System, r: RowKey, token: Token, now: int)
    requires Inv(w, s)
    ensures Inv(w, Next(w, s, DoClaim(r, token, now)))
  {
    var n := Next(w, s, DoClaim(r, token, now));
    if n != s {
      forall h, c ensures CoveredAt(n.db, h, c) { assert CoveredAt(s.db, h, c); }
      forall c ensures HashedAt(w, n.db, c) { assert HashedAt(w, s.db, c); }
      forall q ensures SoundAt(w, n.db, q) { assert SoundAt(w, s.db, q); }
      forall other ensures WorkerFaithful(w, n, other) { assert WorkerFaithful(w, s, other); }
      forall q ensures LeaseOwned(n, q) { assert LeaseOwned(s, q); }
    }
  }

  lemma FailKeeps(w: World, s: System, token: Token, now: int)
    requires Inv(w, s)
    ensures Inv(w, Next(w, s, DoFail(token, now)))
  {
    var n := Next(w, s, DoFail(token, now));
    if n != s {
      forall h, c ensures CoveredAt(n.db, h, c) { assert CoveredAt(s.db, h, c); }
      forall c ensures HashedAt(w, n.db, c) { assert HashedAt(w, s.db, c); }
      forall q ensures SoundAt(w, n.db, q) { assert SoundAt(w, s.db, q); }
      forall other ensures WorkerFaithful(w, n, other) { assert WorkerFaithful(w, s, other); }
      forall q ensures LeaseOwned(n, q) { assert LeaseOwned(s, q); }
    }
  }

  lemma ReadKeeps(w: World, s: System, token: Token)
    requires Inv(w, s)
    ensures Inv(w, Next(w, s, DoRead(token)))
  {
    var n := Next(w, s, DoRead(token));
    if n != s {
      forall other ensures WorkerFaithful(w, n, other) {
        assert WorkerFaithful(w, s, other);
        assert HashedAt(w, s.db, s.workers[token].row.owner);
      }
      forall q ensures LeaseOwned(n, q) { assert LeaseOwned(s, q); }
    }
  }

  // Enabling vector storage and creating an asset touch no row the invariant speaks of.
  lemma SetupKeeps(w: World, s: System, step: Step)
    requires Inv(w, s) && (step.DoEnable? || step.DoCreate?)
    ensures Inv(w, Next(w, s, step))
  {
    var n := Next(w, s, step);
    forall h, c ensures CoveredAt(n.db, h, c) { assert CoveredAt(s.db, h, c); }
    forall c ensures HashedAt(w, n.db, c) { assert HashedAt(w, s.db, c); }
    forall q ensures SoundAt(w, n.db, q) { assert SoundAt(w, s.db, q); }
    forall other ensures WorkerFaithful(w, n, other) { assert WorkerFaithful(w, s, other); }
    forall q ensures LeaseOwned(n, q) { assert LeaseOwned(s, q); }
  }

  lemma NextKeeps(w: World, s: System, step: Step)
    requires CollisionFree(w) && Inv(w, s)
    ensures Inv(w, Next(w, s, step))
  {
    match step
    case DoDescribe(c, generation, document, replace) => DescribeKeeps(w, s, c, generation, document, replace);
    case DoDelete(a) => DeleteKeeps(w, s, a);
    case DoBegin(g, contract) => BeginKeeps(w, s, g, contract);
    case DoActivate(g, now) => ActivateKeeps(w, s, g, now);
    case DoRollback(g, now) => RollbackKeeps(w, s, g, now);
    case DoPrune(g, now) => PruneKeeps(w, s, g, now);
    case DoClaim(r, token, now) => ClaimKeeps(w, s, r, token, now);
    case DoPublish(token, now) => PublishKeeps(w, s, token, now);
    case DoRead(token) => ReadKeeps(w, s, token);
    case DoFail(token, now) => FailKeeps(w, s, token, now);
    case _ => SetupKeeps(w, s, step);
  }

  // Every reachable state satisfies the invariant, whatever the interleaving.
  lemma {:induction false} RunKeeps(w: World, s: System, steps: seq<Step>)
    requires CollisionFree(w) && Inv(w, s)
    ensures Inv(w, Run(w, s, steps))
    decreases |steps|
  {
    if steps != [] {
      NextKeeps(w, s, steps[0]);
      RunKeeps(w, Next(w, s, steps[0]), steps[1..]);
    }
  }

  // ---------------------------------------------------------------- theorems

  // In every reachable state each live generation has a vector or a task for the exact
  // current description of every described context, and at most one generation is active.
  lemma ReachableCovered(w: World, steps: seq<Step>, g: string, c: ContextKey)
    requires CollisionFree(w)
    ensures var db := Run(w, Empty(), steps).db;
            && OneActive(db)
            && (g in db.generations && Live(db.generations[g]) && HasDescription(db, c) ==> Indexed(db, c, g) || Queued(db, c, g))
  {
    RunKeeps(w, Empty(), steps);
    assert CoveredAt(Run(w, Empty(), steps).db, g, c);
  }

  // Whatever workers and description changes interleave, a vector row that semantic search
  // would return, one stamped like the current context row, is the output of that
  // generation's model on the text shown beside it.
  lemma ReachableSound(w: World, steps: seq<Step>, g: string, c: ContextKey)
    requires CollisionFree(w)
    ensures var db := Run(w, Empty(), steps).db;
            HasDescription(db, c) && Indexed(db, c, g) ==>
              && g in db.generations
              && db.vectors[RowKey(c, g)].embedding
                   == w.embed(db.generations[g].contract, db.generations[g].contract.documentPrefix + db.contexts[c].document.text)
  {
    RunKeeps(w, Empty(), steps);
    var db := Run(w, Empty(), steps).db;
    assert SoundAt(w, db, RowKey(c, g)) && HashedAt(w, db, c);
  }

  // Stale rows are sound too: any stored vector is the model output for the document its hash names.
  lemma ReachableRowsSound(w: World, steps: seq<Step>, r: RowKey, d: Document)
    requires CollisionFree(w)
    ensures var db := Run(w, Empty(), steps).db;
            r in db.vectors && db.vectors[r].stamp.hash == w.hash(d) ==>
              && r.generation in db.generations
              && db.vectors[r].embedding
                   == w.embed(db.generations[r.generation].contract, db.generations[r.generation].contract.documentPrefix + d.text)
  {
    RunKeeps(w, Empty(), steps);
    var db := Run(w, Empty(), steps).db;
    assert SoundAt(w, db, r);
  }

  lemma Partition(all: set<ContextKey>, a: set<ContextKey>, b: set<ContextKey>, c: set<ContextKey>)
    requires all == a + b + c && a !! b && a !! c && b !! c
    ensures |all| == |a| + |b| + |c|
  {
    assert all == (a + b) + c;
  }

  // The four coverage counts partition the described contexts.
  lemma CoverageConserved(db: Tables, g: string)
    ensures var v := CoverageOf(db, g); v.eligible == v.current + v.failed + v.pending
  {
    Partition(Eligible(db),
      set c | c in Eligible(db) && Indexed(db, c, g),
      set c | c in Eligible(db) && !Indexed(db, c, g) && Exhausted(db, c, g),
      set c | c in Eligible(db) && !Indexed(db, c, g) && !Exhausted(db, c, g));
  }

  // Nothing is pending exactly when every described context is indexed or exhausted.
  lemma PendingZero(db: Tables, g: string)
    ensures CoverageOf(db, g).pending == 0 <==> forall c :: HasDescription(db, c) ==> Indexed(db, c, g) || Exhausted(db, c, g)
  {
    var pending := set c | c in Eligible(db) && !Indexed(db, c, g) && !Exhausted(db, c, g);
    assert forall c :: c in pending <==> HasDescription(db, c) && !Indexed(db, c, g) && !Exhausted(db, c, g);
    if pending != {} {
      var c :| c in pending;
    }
  }

  // Activation succeeds exactly for a building generation with every description indexed or
  // exhausted, and then that generation is the only active one.
  lemma ActivationExact(w: World, steps: seq<Step>, g: string, now: int)
    requires CollisionFree(w)
    ensures var db := Run(w, Empty(), steps).db; var (outcome, after) := Activate(db, g, now);
            && (outcome.Ok? <==>
                  (g != "" && g in db.generations && db.generations[g].status == Building
                   && forall c :: HasDescription(db, c) ==> Indexed(db, c, g) || Exhausted(db, c, g)))
            && (outcome.Ok? ==> forall h :: h in after.generations ==> (after.generations[h].status == Active <==> h == g))
            && (outcome.Err? ==> after == db)
  {
    PendingZero(Run(w, Empty(), steps).db, g);
  }

  // A description that keeps a live generation from being complete is never orphaned: an
  // unexhausted task for exactly that description is still in the queue.
  lemma PendingHasWork(w: World, steps: seq<Step>, g: string, c: ContextKey)
    requires CollisionFree(w)
    ensures var db := Run(w, Empty(), steps).db;
            g in db.generations && Live(db.generations[g]) && HasDescription(db, c) && !Indexed(db, c, g) && !Exhausted(db, c, g) ==>
              && RowKey(c, g) in db.tasks && db.tasks[RowKey(c, g)].stamp == db.contexts[c].stamp
              && (db.tasks[RowKey(c, g)].status != Failed || db.tasks[RowKey(c, g)].attempts < MAXIMUM_ATTEMPTS)
  {
    ReachableCovered(w, steps, g, c);
  }

  predicate Publishable(db: Tables, r: RowKey, token: Token, now: int) {
    && HoldsLease(db, r, token, now) && Queued(db, r.owner, r.generation)
    && r.generation in db.generations && Live(db.generations[r.generation])
  }

  // No task is attempted more often than the limit, and exactly one row moves from the queue to
  // the index when a worker with a live lease on a current description publishes.
  lemma PublicationMovesOneRow(w: World, steps: seq<Step>, r: RowKey, token: Token, embedding: Vector, now: int)
    requires CollisionFree(w)
    ensures var db := Run(w, Empty(), steps).db; var after := Publish(db, r, token, embedding, now);
            && (forall q :: q in db.tasks ==> db.tasks[q].attempts <= MAXIMUM_ATTEMPTS)
            && (Publishable(db, r, token, now) ==>
                  && Indexed(after, r.owner, r.generation) && after.vectors[r].embedding == embedding
                  && after.tasks.Keys == db.tasks.Keys - {r}
                  && (forall q :: q != r ==> (q in after.vectors <==> q in db.vectors) && (q in db.vectors ==> after.vectors[q] == db.vectors[q])))
            && (!Publishable(db, r, token, now) ==> after == db)
  {
    RunKeeps(w, Empty(), steps);
    assert r == RowKey(r.owner, r.generation);
  }

  // A retained generation can be rolled back to or pruned, never both at the same moment.
  lemma RollbackExcludesPrune(db: Tables, g: string, now: int)
    ensures Rollback(db, g, now).0.Ok? ==> Prune(db, g, now).0.Err?
    ensures Rollback(db, g, now).0.Ok? ==> forall h :: h in db.generations && h != g && db.generations[h].status == Active ==>
              Rollback(Rollback(db, g, now).1, h, now).0.Ok? || h == ""
  {
  }
}
