/** Requests, probes, activations and drains of one serving router, interleaved in every way
    (internal/noderouter/router.go, readiness.go and drain.go).

    A thread is one call in progress. Reads of the database and of the in-flight counters, and
    the transactions, are the atomic steps. Only a drain keeps its write transaction open across
    steps; meanwhile other writers wait and readers go on. */
module RouterThreads {
  import opened Common
  import opened Router

  datatype Thread =
    | Proxying(backend: string)          // ServeHTTP, forwarding to the backend
    | Arriving(c: Candidate)             // Activate, counted, before its first transaction
    | Probing(c: Candidate)              // Activate, health probe outstanding
    | Probed(c: Candidate, healthy: bool)// Activate, before its second transaction
    | Waiting(c: Candidate)              // WaitHealthy, between probes
    | Checking(c: Candidate)             // WaitHealthy, health probe outstanding
    | Leaving(backend: string)           // about to return through endBackend
    | Fencing(c: Candidate)              // WithDrainedBackend, before its fence
    | Draining(c: Candidate)             // WithDrainedBackend, fence committed, waiting for the backend
    | Guarding(c: Candidate)             // WithDrainedBackend, write guard held, before the final count
    | Acting(c: Candidate)               // WithDrainedBackend, action running under the guard

  datatype World = World(db: Db, inFlight: map<string, int>, guard: Option<nat>, threads: map<nat, Thread>)

  /** The backend a call is counted against. */
  function Counted(t: Thread): Option<string> {
    match t
    case Proxying(b) => Some(b)
    case Leaving(b) => Some(b)
    case Arriving(c) => Some(c.backend)
    case Probing(c) => Some(c.backend)
    case Probed(c, _) => Some(c.backend)
    case Waiting(c) => Some(c.backend)
    case Checking(c) => Some(c.backend)
    case _ => None
  }

  predicate HoldsGuard(t: Thread) {
    t.Guarding? || t.Acting?
  }

  function InFlight(w: World, b: string): int {
    if b in w.inFlight then w.inFlight[b] else 0
  }

  datatype Step =
    | Serve(t: nat)
    | Arrive(t: nat, c: Candidate)
    | Begin(t: nat)
    | Answer(t: nat, healthy: bool)
    | Commit(t: nat)
    | Await(t: nat, c: Candidate)
    | Recheck(t: nat)
    | Abandon(t: nat)
    | Depart(t: nat)
    | Drain(t: nat, c: Candidate)
    | Fence(t: nat)
    | Guard(t: nat)
    | Confirm(t: nat)
    | Finish(t: nat)
    | GiveUp(t: nat)
    | Retire(c: Candidate)
    | Reject(c: Candidate)
    | Crash

  predicate Enabled(cfg: Config, w: World, s: Step) {
    match s
    case Serve(t) => t !in w.threads
    case Arrive(t, c) => t !in w.threads && Valid(cfg, c)
    case Begin(t) => t in w.threads && w.threads[t].Arriving? && w.guard.None?
    case Answer(t, _) => t in w.threads && (w.threads[t].Probing? || w.threads[t].Checking?)
    case Commit(t) => t in w.threads && w.threads[t].Probed? && w.guard.None?
    case Await(t, c) => t !in w.threads && Valid(cfg, c)
    case Recheck(t) => t in w.threads && w.threads[t].Waiting?
    case Abandon(t) => t in w.threads && Counted(w.threads[t]).Some?
    case Depart(t) => t in w.threads && w.threads[t].Leaving?
    case Drain(t, c) => t !in w.threads && Valid(cfg, c)
    case Fence(t) => t in w.threads && w.threads[t].Fencing? && w.guard.None?
    case Guard(t) => t in w.threads && w.threads[t].Draining? && w.guard.None?
    case Confirm(t) => t in w.threads && w.threads[t].Guarding?
    case Finish(t) => t in w.threads && w.threads[t].Acting?
    case GiveUp(t) => t in w.threads && (w.threads[t].Fencing? || w.threads[t].Draining? || w.threads[t].Guarding?)
    case Retire(c) => w.guard.None?
    case Reject(c) => w.guard.None? && c.op in w.db.retired && w.db.retired[c.op] == c
    case Crash => true
  }

  /** A call enters and is counted under the router's mutex. */
  function Count(w: World, t: nat, th: Thread, b: string): World {
    w.(threads := w.threads[t := th], inFlight := w.inFlight[b := InFlight(w, b) + 1])
  }

  function Move(w: World, t: nat, th: Thread): World {
    w.(threads := w.threads[t := th])
  }

  function Apply(cfg: Config, w: World, s: Step): World
    requires Enabled(cfg, w, s)
  {
    match s
    case Serve(t) =>
      if w.db.route.active.Some?
      then Count(w, t, Proxying(w.db.route.active.value.backend), w.db.route.active.value.backend) else w
    case Arrive(t, c) => Count(w, t, Arriving(c), c.backend)
    case Begin(t) =>
      var c := w.threads[t].c;
      var tx := BeginTx(cfg, w.db, c);
      Move(w.(db := tx.state), t, if tx.result == Ok(Probe) then Probing(c) else Leaving(c.backend))
    case Answer(t, healthy) =>
      var th := w.threads[t];
      if th.Probing? then Move(w, t, Probed(th.c, healthy))
      else Move(w, t, if healthy then Leaving(th.c.backend) else Waiting(th.c))
    case Commit(t) =>
      var th := w.threads[t];
      Move(w.(db := CommitTx(w.db, th.c, th.healthy).state), t, Leaving(th.c.backend))
    case Await(t, c) => Count(w, t, Waiting(c), c.backend)
    case Recheck(t) =>
      var c := w.threads[t].c;
      Move(w, t, if c.op in w.db.retired then Leaving(c.backend) else Checking(c))
    case Abandon(t) => Move(w, t, Leaving(Counted(w.threads[t]).value))
    case Depart(t) =>
      var b := w.threads[t].backend;
      w.(threads := w.threads - {t}, inFlight := w.inFlight[b := InFlight(w, b) - 1])
    case Drain(t, c) => Move(w, t, Fencing(c))
    case Fence(t) =>
      var c := w.threads[t].c;
      var tx := FenceTx(cfg, w.db, c);
      if tx.result.Ok? then Move(w.(db := tx.state), t, Draining(c))
      else w.(db := tx.state, threads := w.threads - {t})
    case Guard(t) =>
      var c := w.threads[t].c;
      if Drainable(w.db, c) then Move(w.(guard := Some(t)), t, Guarding(c))
      else w.(threads := w.threads - {t})
    case Confirm(t) =>
      var c := w.threads[t].c;
      if InFlight(w, c.backend) == 0 then Move(w, t, Acting(c)) else Move(w.(guard := None), t, Draining(c))
    case Finish(t) => w.(threads := w.threads - {t}, guard := None)
    case GiveUp(t) =>
      w.(threads := w.threads - {t}, guard := if HoldsGuard(w.threads[t]) then None else w.guard)
    case Retire(c) => w.(db := FenceTx(cfg, w.db, c).state)
    case Reject(c) => w.(db := RejectTx(w.db, c).state)
    case Crash => World(w.db, map[], None, map[])
  }

  // ---------------------------------------------------------------- invariant

  ghost function CountedOn(threads: map<nat, Thread>, b: string): set<nat> {
    set t | t in threads && Counted(threads[t]) == Some(b)
  }

  /** In-flight counts equal the number of calls counted against each backend. */
  ghost predicate Balanced(w: World) {
    forall b :: InFlight(w, b) == |CountedOn(w.threads, b)|
  }

  /** The guard belongs to the one drain that is past acquiring it. */
  predicate Guarded(w: World) {
    && (w.guard.Some? ==> w.guard.value in w.threads && HoldsGuard(w.threads[w.guard.value]))
    && (forall t | t in w.threads && HoldsGuard(w.threads[t]) :: w.guard == Some(t))
  }

  predicate WellFormed(cfg: Config, w: World) {
    forall t | t in w.threads ::
      match w.threads[t]
      case Arriving(c) => Valid(cfg, c)
      case Probing(c) => Valid(cfg, c)
      case Probed(c, _) => Valid(cfg, c)
      case Guarding(c) => Drainable(w.db, c)
      case Acting(c) => Drainable(w.db, c)
      case _ => true
  }

  /** The call is in contact with the backend in a way that a drain of `c` must exclude. */
  predicate Touches(t: Thread, c: Candidate) {
    match t
    case Proxying(b) => b == c.backend
    case Probing(d) => d.backend == c.backend
    case Checking(d) => d.backend == c.backend && d.op == c.op
    case _ => false
  }

  /** While a drain action runs, nothing it must exclude is in contact with its backend. */
  predicate Excluded(w: World) {
    forall t, u | t in w.threads && w.threads[t].Acting? && u in w.threads :: !Touches(w.threads[u], w.threads[t].c)
  }

  ghost predicate Inv(cfg: Config, w: World) {
    Router.Inv(cfg, w.db) && Balanced(w) && Guarded(w) && WellFormed(cfg, w) && Excluded(w)
  }

  lemma {:induction false} DbPreserved(cfg: Config, w: World, s: Step)
    requires Router.Inv(cfg, w.db) && WellFormed(cfg, w) && Enabled(cfg, w, s)
    ensures Router.Inv(cfg, Apply(cfg, w, s).db) && Advances(w.db, Apply(cfg, w, s).db)
  {
    match s
    case Begin(t) => BeginPreserves(cfg, w.db, w.threads[t].c);
    case Commit(t) => CommitPreserves(cfg, w.db, w.threads[t].c, w.threads[t].healthy);
    case Fence(t) => FencePreserves(cfg, w.db, w.threads[t].c);
    case Retire(c) => FencePreserves(cfg, w.db, c);
    case Reject(c) => RejectPreserves(cfg, w.db, c);
    case _ =>
  }

  lemma {:induction false} BalancedPreserved(cfg: Config, w: World, s: Step)
    requires Balanced(w) && Enabled(cfg, w, s)
    ensures Balanced(Apply(cfg, w, s))
  {
    var w' := Apply(cfg, w, s);
    forall b ensures InFlight(w', b) == |CountedOn(w'.threads, b)| {
      assert InFlight(w, b) == |CountedOn(w.threads, b)|;
      if s.Crash? {
        assert CountedOn(w'.threads, b) == {};
      } else if !s.Retire? && !s.Reject? {
        OneThread(cfg, w, s, b);
        CountedChange(w.threads, w'.threads, s.t, b);
      }
    }
  }

  /** A call's step touches its own thread only, and counts exactly what that thread enters or leaves. */
  lemma {:induction false} OneThread(cfg: Config, w: World, s: Step, b: string)
    requires Enabled(cfg, w, s) && !s.Crash? && !s.Retire? && !s.Reject?
    ensures var w' := Apply(cfg, w, s);
            && w'.threads - {s.t} == w.threads - {s.t}
            && InFlight(w', b) - InFlight(w, b) == Share(w'.threads, s.t, b) - Share(w.threads, s.t, b)
  {
  }

  /** Changing one thread changes a backend's count by what that thread alone adds and removes. */
  lemma {:induction false} CountedChange(threads: map<nat, Thread>, threads': map<nat, Thread>, t: nat, b: string)
    requires threads - {t} == threads' - {t}
    ensures |CountedOn(threads', b)| - Share(threads', t, b) == |CountedOn(threads, b)| - Share(threads, t, b)
  {
    CountedSplit(threads, t, b);
    CountedSplit(threads', t, b);
  }

  function Share(threads: map<nat, Thread>, t: nat, b: string): int {
    if t in threads && Counted(threads[t]) == Some(b) then 1 else 0
  }

  lemma {:induction false} CountedSplit(threads: map<nat, Thread>, t: nat, b: string)
    ensures |CountedOn(threads, b)| == |CountedOn(threads - {t}, b)| + Share(threads, t, b)
  {
    assert CountedOn(threads - {t}, b) == CountedOn(threads, b) - {t};
  }

  lemma {:induction false} GuardedPreserved(cfg: Config, w: World, s: Step)
    requires Guarded(w) && Enabled(cfg, w, s)
    ensures Guarded(Apply(cfg, w, s))
  {
  }

  /** While someone holds the guard, nobody changes the database. */
  lemma {:induction false} GuardFreezesDb(cfg: Config, w: World, s: Step)
    requires w.guard.Some? && Enabled(cfg, w, s)
    ensures Apply(cfg, w, s).db == w.db
  {
  }

  lemma {:induction false} WellFormedPreserved(cfg: Config, w: World, s: Step)
    requires Guarded(w) && WellFormed(cfg, w) && Enabled(cfg, w, s)
    ensures WellFormed(cfg, Apply(cfg, w, s))
  {
    var w' := Apply(cfg, w, s);
    forall t | t in w'.threads && HoldsGuard(w'.threads[t]) ensures Drainable(w'.db, w'.threads[t].c) {
      if w.guard.Some? {
        GuardFreezesDb(cfg, w, s);
      }
    }
  }

  lemma {:induction false} ExcludedPreserved(cfg: Config, w: World, s: Step)
    requires Inv(cfg, w) && Enabled(cfg, w, s)
    ensures Excluded(Apply(cfg, w, s))
  {
    var w' := Apply(cfg, w, s);
    forall t, u | t in w'.threads && w'.threads[t].Acting? && u in w'.threads
      ensures !Touches(w'.threads[u], w'.threads[t].c)
    {
      if s == Confirm(t) {
        NobodyCounted(w, w.threads[t].c.backend);
      } else {
        assert t in w.threads && w.threads[t] == w'.threads[t] && w.guard == Some(t);
        EntryExcluded(cfg, w, s, t, u);
      }
    }
  }

  /** A zero count means that no call is counted against the backend. */
  lemma {:induction false} NobodyCounted(w: World, b: string)
    requires Balanced(w) && InFlight(w, b) == 0
    ensures forall u | u in w.threads :: Counted(w.threads[u]) != Some(b)
  {
    assert CountedOn(w.threads, b) == {};
    forall u | u in w.threads ensures Counted(w.threads[u]) != Some(b) {
      assert u !in CountedOn(w.threads, b);
    }
  }

  /** Under a running action no step brings an excluded call into contact with its backend. */
  lemma {:induction false} EntryExcluded(cfg: Config, w: World, s: Step, t: nat, u: nat)
    requires WellFormed(cfg, w) && Excluded(w) && Enabled(cfg, w, s)
    requires t in w.threads && w.threads[t].Acting? && w.guard == Some(t)
    requires var w' := Apply(cfg, w, s); u in w'.threads && t in w'.threads
    ensures !Touches(Apply(cfg, w, s).threads[u], w.threads[t].c)
  {
    assert Drainable(w.db, w.threads[t].c);
    if u in w.threads { assert !Touches(w.threads[u], w.threads[t].c); }
  }

  lemma {:induction false} StepPreserves(cfg: Config, w: World, s: Step)
    requires Inv(cfg, w) && Enabled(cfg, w, s)
    ensures Inv(cfg, Apply(cfg, w, s)) && Advances(w.db, Apply(cfg, w, s).db)
  {
    DbPreserved(cfg, w, s);
    BalancedPreserved(cfg, w, s);
    GuardedPreserved(cfg, w, s);
    WellFormedPreserved(cfg, w, s);
    ExcludedPreserved(cfg, w, s);
  }

  // ---------------------------------------------------------------- runs

  /** A run starts from any sound database, as a restarted router does. */
  ghost predicate IsRun(cfg: Config, states: seq<World>, steps: seq<Step>) {
    && |states| == |steps| + 1
    && Router.Inv(cfg, states[0].db) && states[0] == World(states[0].db, map[], None, map[])
    && forall i | 0 <= i < |steps| :: Took(cfg, states, steps, i)
  }

  ghost predicate Took(cfg: Config, states: seq<World>, steps: seq<Step>, i: int)
    requires |states| == |steps| + 1
  {
    0 <= i < |steps| && Enabled(cfg, states[i], steps[i]) && states[i + 1] == Apply(cfg, states[i], steps[i])
  }

  lemma {:induction false} RunSound(cfg: Config, states: seq<World>, steps: seq<Step>, i: nat)
    requires IsRun(cfg, states, steps) && i <= |steps|
    ensures Inv(cfg, states[i])
    decreases i
  {
    if i == 0 {
      forall b ensures InFlight(states[0], b) == |CountedOn(states[0].threads, b)| {
        assert CountedOn(states[0].threads, b) == {};
      }
    } else {
      RunSound(cfg, states, steps, i - 1);
      assert Took(cfg, states, steps, i - 1);
      StepPreserves(cfg, states[i - 1], steps[i - 1]);
    }
  }

  lemma {:induction false} RunAdvances(cfg: Config, states: seq<World>, steps: seq<Step>, i: nat, j: nat)
    requires IsRun(cfg, states, steps) && i <= j <= |steps|
    ensures Advances(states[i].db, states[j].db)
    decreases j
  {
    if i < j {
      RunAdvances(cfg, states, steps, i, j - 1);
      AdvancesAt(cfg, states, steps, j - 1);
      AdvancesTransitive(states[i].db, states[j - 1].db, states[j].db);
    }
  }

  lemma {:induction false} AdvancesAt(cfg: Config, states: seq<World>, steps: seq<Step>, i: nat)
    requires IsRun(cfg, states, steps) && i < |steps|
    ensures Advances(states[i].db, states[i + 1].db)
  {
    RunSound(cfg, states, steps, i);
    assert Took(cfg, states, steps, i);
    StepPreserves(cfg, states[i], steps[i]);
  }

  /** Drain exclusion: in every state of every run in which a drain action of `c` is running, no
      proxied request and no activation probe of any operation is in contact with `c`'s backend,
      nor is any readiness probe of `c`'s own operation; the counts are the calls in progress. */
  lemma {:induction false} DrainExclusion(cfg: Config, states: seq<World>, steps: seq<Step>, i: nat, t: nat, u: nat)
    requires IsRun(cfg, states, steps) && i <= |steps|
    requires t in states[i].threads && states[i].threads[t].Acting? && u in states[i].threads
    ensures !Touches(states[i].threads[u], states[i].threads[t].c)
    ensures forall b :: InFlight(states[i], b) == |CountedOn(states[i].threads, b)|
  {
    RunSound(cfg, states, steps, i);
  }

  /** Meanwhile the live site keeps serving, from another backend. */
  lemma {:induction false} ServingContinues(cfg: Config, states: seq<World>, steps: seq<Step>, i: nat, t: nat, u: nat)
    requires IsRun(cfg, states, steps) && i <= |steps|
    requires t in states[i].threads && states[i].threads[t].Acting? && u !in states[i].threads
    requires states[i].db.route.active.Some?
    ensures Enabled(cfg, states[i], Serve(u))
    ensures var live := states[i].db.route.active.value.backend;
            && live != states[i].threads[t].c.backend
            && Apply(cfg, states[i], Serve(u)).threads[u] == Proxying(live)
  {
    RunSound(cfg, states, steps, i);
  }

  /** Retirement is permanent: from its tombstone on, an operation is never live and never the
      pending fence, even if its probe was already running when it was fenced. */
  lemma {:induction false} RetirementPermanent(cfg: Config, states: seq<World>, steps: seq<Step>, i: nat, j: nat, op: string)
    requires IsRun(cfg, states, steps) && i <= j <= |steps| && op in states[i].db.retired
    ensures var db := states[j].db;
            && op in db.retired && db.retired[op] == states[i].db.retired[op]
            && (db.route.active.Some? ==> db.route.active.value.op != op)
            && !(db.route.status == Pending && db.route.fence.op == op)
  {
    RunAdvances(cfg, states, steps, i, j);
    RunSound(cfg, states, steps, j);
  }

  /** The revision fence over a whole run. */
  lemma {:induction false} FenceMonotone(cfg: Config, states: seq<World>, steps: seq<Step>, i: nat, j: nat)
    requires IsRun(cfg, states, steps) && i <= j <= |steps|
    ensures states[i].db.route.fence.revision <= states[j].db.route.fence.revision
    ensures states[i].db.route.fence.revision == states[j].db.route.fence.revision
            ==> states[i].db.route.fence == states[j].db.route.fence
    ensures Coherent(states[j].db.route)
  {
    RunAdvances(cfg, states, steps, i, j);
    RunSound(cfg, states, steps, j);
  }

  // ---------------------------------------------------------------- what a call achieves

  /** These steps can be taken one after the other, and lead there. */
  predicate Leads(cfg: Config, w: World, steps: seq<Step>, w': World)
    decreases |steps|
  {
    if steps == [] then w' == w
    else Enabled(cfg, w, steps[0]) && Leads(cfg, Apply(cfg, w, steps[0]), steps[1..], w')
  }

  lemma {:induction false} LeadsFirst(cfg: Config, w: World, step: Step, rest: seq<Step>, w': World)
    requires Enabled(cfg, w, step) && Leads(cfg, Apply(cfg, w, step), rest, w')
    ensures Leads(cfg, w, [step] + rest, w')
  {
    assert ([step] + rest)[1..] == rest;
  }

  /** Nothing stands in the way of activating this candidate. */
  predicate Activatable(cfg: Config, db: Db, c: Candidate) {
    && Valid(cfg, c) && c.op !in db.retired && c.revision > db.route.fence.revision
    && (db.route.active.Some? && db.route.active.value.backend == c.backend ==> db.route.active.value.artifact == c.artifact)
  }

  /** An activation that nothing overtakes puts its candidate live if the probe finds it healthy, and
      otherwise fails it and leaves the old one live; nobody else's call or count is disturbed. */
  lemma {:induction false} ActivationGoesThrough(cfg: Config, w: World, t: nat, c: Candidate, healthy: bool)
    requires t !in w.threads && w.guard.None? && Activatable(cfg, w.db, c)
    ensures Leads(cfg, w, [Arrive(t, c), Begin(t), Answer(t, healthy), Commit(t), Depart(t)],
                  World(Db(if healthy then Route(c, Active, Some(c)) else Route(c, Failed, w.db.route.active), w.db.retired),
                        w.inFlight[c.backend := InFlight(w, c.backend)], None, w.threads))
  {
    var w1 := Apply(cfg, w, Arrive(t, c));
    var w2 := Apply(cfg, w1, Begin(t));
    var w3 := Apply(cfg, w2, Answer(t, healthy));
    var w4 := Apply(cfg, w3, Commit(t));
    var w5 := Apply(cfg, w4, Depart(t));
    assert w5.threads == w.threads && w5.inFlight == w.inFlight[c.backend := InFlight(w, c.backend)];
    LeadsFirst(cfg, w4, Depart(t), [], w5);
    LeadsFirst(cfg, w3, Commit(t), [Depart(t)], w5);
    LeadsFirst(cfg, w2, Answer(t, healthy), [Commit(t)] + [Depart(t)], w5);
    LeadsFirst(cfg, w1, Begin(t), [Answer(t, healthy)] + ([Commit(t)] + [Depart(t)]), w5);
    LeadsFirst(cfg, w, Arrive(t, c), [Begin(t)] + ([Answer(t, healthy)] + ([Commit(t)] + [Depart(t)])), w5);
    assert [Arrive(t, c)] + ([Begin(t)] + ([Answer(t, healthy)] + ([Commit(t)] + [Depart(t)])))
        == [Arrive(t, c), Begin(t), Answer(t, healthy), Commit(t), Depart(t)];
  }

  /** A probe that was overtaken, by a newer fence or a retirement, changes nothing when it comes back. */
  lemma {:induction false} OutrunChangesNothing(cfg: Config, w: World, t: nat)
    requires t in w.threads && w.threads[t].Probed? && w.guard.None?
    requires w.threads[t].c.op in w.db.retired || w.db.route.fence != w.threads[t].c
    ensures Enabled(cfg, w, Commit(t)) && Apply(cfg, w, Commit(t)).db == w.db
  {
  }

  /** A drain of an idle backend that nothing uses fences its operation and gets to act under the guard;
      as long as calls are in flight there it goes back to waiting and lets the guard go. */
  lemma {:induction false} DrainGoesThrough(cfg: Config, w: World, t: nat, c: Candidate)
    requires t !in w.threads && w.guard.None? && Valid(cfg, c) && !InUse(w.db, c) && (c.op in w.db.retired ==> w.db.retired[c.op] == c)
    requires w.db.route.fence.op == c.op ==> w.db.route.fence == c
    requires w.db.route.status == Pending ==> w.db.route.fence == c || w.db.route.fence.backend != c.backend
    requires Router.Inv(cfg, w.db)
    ensures var db := FenceTx(cfg, w.db, c).state;
            && c.op in db.retired && db.retired[c.op] == c && db.route.active == w.db.route.active
            && Leads(cfg, w, [Drain(t, c), Fence(t), Guard(t), Confirm(t)],
                     if InFlight(w, c.backend) == 0 then World(db, w.inFlight, Some(t), w.threads[t := Acting(c)])
                     else World(db, w.inFlight, None, w.threads[t := Draining(c)]))
  {
    var w1 := Apply(cfg, w, Drain(t, c));
    var w2 := Apply(cfg, w1, Fence(t));
    assert w2 == World(w2.db, w.inFlight, None, w.threads[t := Draining(c)]);
    GuardGoesThrough(cfg, w2, t);
    var w4 := Apply(cfg, Apply(cfg, w2, Guard(t)), Confirm(t));
    assert w4.threads == w.threads[t := if InFlight(w, c.backend) == 0 then Acting(c) else Draining(c)];
    LeadsFirst(cfg, w1, Fence(t), [Guard(t), Confirm(t)], w4);
    LeadsFirst(cfg, w, Drain(t, c), [Fence(t)] + [Guard(t), Confirm(t)], w4);
    assert [Drain(t, c)] + ([Fence(t)] + [Guard(t), Confirm(t)]) == [Drain(t, c), Fence(t), Guard(t), Confirm(t)];
  }

  lemma {:induction false} GuardGoesThrough(cfg: Config, w: World, t: nat)
    requires t in w.threads && w.threads[t].Draining? && w.guard.None? && Drainable(w.db, w.threads[t].c)
    ensures Enabled(cfg, w, Guard(t)) && Enabled(cfg, Apply(cfg, w, Guard(t)), Confirm(t))
    ensures var c, w' := w.threads[t].c, Apply(cfg, Apply(cfg, w, Guard(t)), Confirm(t));
            && Leads(cfg, w, [Guard(t), Confirm(t)], w')
            && w' == (if InFlight(w, c.backend) == 0 then World(w.db, w.inFlight, Some(t), w'.threads) else World(w.db, w.inFlight, None, w'.threads))
            && w'.threads == w.threads[t := if InFlight(w, c.backend) == 0 then Acting(c) else Draining(c)]
  {
    var w1 := Apply(cfg, w, Guard(t));
    var w2 := Apply(cfg, w1, Confirm(t));
    LeadsFirst(cfg, w1, Confirm(t), [], w2);
    LeadsFirst(cfg, w, Guard(t), [Confirm(t)], w2);
    assert [Guard(t)] + [Confirm(t)] == [Guard(t), Confirm(t)];
  }

  /** A request is served by whatever is live and leaves no trace in the counts. */
  lemma {:induction false} RequestGoesThrough(cfg: Config, w: World, t: nat)
    requires t !in w.threads && w.db.route.active.Some?
    ensures var b := w.db.route.active.value.backend;
            && Enabled(cfg, w, Serve(t))
            && Apply(cfg, w, Serve(t)) == World(w.db, w.inFlight[b := InFlight(w, b) + 1], w.guard, w.threads[t := Proxying(b)])
            && Leads(cfg, w, [Serve(t), Abandon(t), Depart(t)], World(w.db, w.inFlight[b := InFlight(w, b)], w.guard, w.threads))
  {
    var w1 := Apply(cfg, w, Serve(t));
    var w2 := Apply(cfg, w1, Abandon(t));
    var w3 := Apply(cfg, w2, Depart(t));
    assert w3.threads == w.threads && w3.inFlight == w.inFlight[w.db.route.active.value.backend := InFlight(w, w.db.route.active.value.backend)];
    LeadsFirst(cfg, w2, Depart(t), [], w3);
    LeadsFirst(cfg, w1, Abandon(t), [Depart(t)], w3);
    LeadsFirst(cfg, w, Serve(t), [Abandon(t)] + [Depart(t)], w3);
    assert [Serve(t)] + ([Abandon(t)] + [Depart(t)]) == [Serve(t), Abandon(t), Depart(t)];
  }
}
