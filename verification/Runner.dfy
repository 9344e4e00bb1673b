/** The runner in its own form (internal/noderuntime/runner_linux.go and recovery_linux.go,
    internal/nodelaunch/retire_linux.go).

    The four stores are objects. `states` and `steps` record, for the proof only, every durable
    state the stores have gone through; `Valid` says this history is a run of `Protocol`, so
    every theorem of `Runs` is about what these methods do. A method may return
    `ErrInterrupted` between any two steps: that is a crash, a cancelled context or a failed
    database call, after which the next `ProcessNext` starts from the stores alone. New work
    may be submitted between any two steps. */
module Runner {
  import opened Common
  import opened Protocol
  import opened Runs
  import Inbox
  import Pool
  import Gate
  import Router

  /** Faults of the environment: the stores themselves refused nothing. */
  predicate EnvironmentFault(e: Error) {
    e == ErrInterrupted || e == ErrArtifact || e == ErrUnhealthy || e == ErrRetirement
  }

  /** Work already accepted is untouched, and what is new is queued. */
  ghost predicate KeepsWork(rows: Inbox.Rows, rows': Inbox.Rows) {
    && (forall op | op in rows :: op in rows' && rows'[op] == rows[op])
    && (forall op | op in rows' && op !in rows :: rows'[op].state == Inbox.Queued)
  }

  predicate Settled(rows: Inbox.Rows, op: string) {
    op in rows && rows[op].state == Inbox.Settled
  }

  lemma {:induction false} SubmitKeepsWork(sys: System, rows: Inbox.Rows, r: Inbox.Request, valid: bool, now: int)
    ensures KeepsWork(rows, Inbox.SubmitTx(sys.inbox, rows, r, valid, now).state)
  {
    Inbox.SubmitShape(sys.inbox, rows, r, valid, now);
  }

  lemma {:induction false} ClaimTakes(sys: System, s: Stores, op: string)
    requires ValidSystem(sys) && !Inbox.Busy(s.inbox) && Inbox.NextQueued(s.inbox, op)
    ensures Enabled(sys, s, Claim(op)) && Apply(sys, s, Claim(op)) == s.(inbox := Inbox.Claimed(s.inbox, op))
  {
  }

  /** The slot was assigned to this very work. */
  predicate AssignedTo(a: Pool.Assignment, r: Inbox.Request) {
    && a.project == r.project && a.runtime == r.runtime && a.op == r.op && a.artifact == r.artifact
    && a.toolchain == r.toolchain && a.arch == r.arch
  }

  /** The candidate names the slot's project, runtime, release and port. */
  predicate Identifies(cfg: Router.Config, c: Router.Candidate, a: Pool.Assignment) {
    && Router.Valid(cfg, c) && c.project == a.project && c.runtime == a.runtime && c.artifact == a.artifact
    && cfg.backends[c.backend] == a.port
  }

  lemma {:induction false} BackendAgrees(sys: System, port: int)
    requires ValidSystem(sys) && HasBackend(sys, port)
    ensures Router.BackendForPort(sys.router, port) == Some(Backend(sys, port))
  {
  }

  lemma {:induction false} ExtendRun(sys: System, states: seq<Stores>, steps: seq<Step>, step: Step, s': Stores)
    requires IsRun(sys, states, steps) && Receipted(states, steps)
    requires Enabled(sys, states[|steps|], step) && s' == Apply(sys, states[|steps|], step)
    requires step.Record? ==> InstalledBefore(states, steps, |steps|, step.op)
    ensures IsRun(sys, states + [s'], steps + [step]) && Receipted(states + [s'], steps + [step])
  {
    var states', steps' := states + [s'], steps + [step];
    forall i | 0 <= i < |steps'| ensures Took(sys, states', steps', i) {
      if i < |steps| { assert Took(sys, states, steps, i); }
    }
    forall j | 0 <= j < |steps'| && steps'[j].Record? ensures InstalledBefore(states', steps', j, steps'[j].op) {
      StillInstalled(states, steps, s', step, j, steps'[j].op);
    }
  }

  lemma {:induction false} StillInstalled(states: seq<Stores>, steps: seq<Step>, s': Stores, step: Step, j: nat, op: string)
    requires |states| == |steps| + 1 && j <= |steps| && InstalledBefore(states, steps, j, op)
    ensures InstalledBefore(states + [s'], steps + [step], j, op)
  {
    var i :| 0 <= i < j && Installs(states[i], steps[i], op);
    assert Installs((states + [s'])[i], (steps + [step])[i], op);
  }

  /** Recovery's loop has retired its first `i` outstanding reservations, `op` apart. */
  ghost predicate Swept(rows: Pool.Rows, rows': Pool.Rows, outstanding: seq<Pool.Reservation>, i: int, op: string) {
    && rows'.Keys == rows.Keys && i <= |outstanding|
    && (forall o | o in rows :: rows'[o].assignment == rows[o].assignment)
    && (forall o | o in rows && !Pool.Live(rows[o]) :: rows'[o].state == Pool.Retired)
    && (forall k | 0 <= k < i && outstanding[k].assignment.op != op ::
          outstanding[k].assignment.op in rows' && rows'[outstanding[k].assignment.op].state == Pool.Retired)
  }

  lemma {:induction false} SweepOne(rows: Pool.Rows, rows': Pool.Rows, rows'': Pool.Rows, outstanding: seq<Pool.Reservation>, i: nat, op: string)
    requires i < |outstanding| && outstanding[i].assignment.op in rows && Swept(rows, rows', outstanding, i, op)
    requires var o := outstanding[i].assignment.op;
             if o == op then rows'' == rows'
             else o in rows'' && rows'' == rows'[o := rows''[o]] && rows''[o].state == Pool.Retired
                  && rows''[o].assignment == rows'[o].assignment
    ensures Swept(rows, rows'', outstanding, i + 1, op)
  {
  }

  lemma {:induction false} SweptAll(rows: Pool.Rows, rows': Pool.Rows, outstanding: seq<Pool.Reservation>, op: string)
    requires Swept(rows, rows', outstanding, |outstanding|, op)
    requires forall o | o in rows && Pool.Live(rows[o]) :: rows[o] in outstanding
    requires forall o | o in rows :: rows[o].assignment.op == o
    ensures forall o | o in rows' && o != op :: rows'[o].state == Pool.Retired
  {
    forall o | o in rows' && o != op ensures rows'[o].state == Pool.Retired {
      if Pool.Live(rows[o]) {
        var k :| 0 <= k < |outstanding| && outstanding[k] == rows[o];
        assert outstanding[k].assignment.op == o;
      }
    }
  }

  /** The step takes the operation towards serving. */
  predicate Launches(step: Step) {
    step.Prepare? || step.Install? || step.Record? || step.ClaimStart? || step.Start? || step.ActivateBegin? || step.ActivateCommit?
  }

  /** The history goes on without a step that launches anything. */
  ghost predicate Quiet(before: seq<Step>, steps: seq<Step>) {
    before <= steps && forall i | |before| <= i < |steps| :: !Launches(steps[i])
  }

  /** The operation was turned down for good: published failed, its tombstone set, its slot given up. */
  predicate Rejected(s: Stores, op: string) {
    && s.router.route.fence.op == op && s.router.route.status == Router.Failed && op in s.router.retired
    && op in s.pool && s.pool[op].state == Pool.Retired && !Serves(s, op)
  }

  /** What systemd, procfs and the cgroup tree say about a retired unit's slot. */
  datatype Host = Host(stopped: bool, masked: bool, processes: bool, cgroup: bool, listener: bool)

  class Runner {
    const sys: System
    const env: Environment
    const inbox: Inbox.Store
    const pool: Pool.Store
    const gate: Gate.Store
    const router: Router.Store
    ghost var states: seq<Stores>
    ghost var steps: seq<Step>

    ghost function View(): Stores
      reads inbox, pool, gate, router
    {
      Stores(inbox.rows, pool.rows, gate.files, router.View())
    }

    ghost predicate Valid()
      reads this, inbox, pool, gate, router
    {
      && inbox.assignment == sys.inbox && pool.config == sys.pool && router.config == sys.router
      && IsRun(sys, states, steps) && Receipted(states, steps)
      && states[|steps|] == View()
    }

    constructor (sys: System, env: Environment)
      requires ValidSystem(sys)
      ensures Valid() && View() == EMPTY && steps == []
      ensures fresh(inbox) && fresh(pool) && fresh(gate) && fresh(router)
    {
      this.sys, this.env := sys, env;
      var i := new Inbox.Store(sys.inbox);
      var p := new Pool.Store(sys.pool);
      var g := new Gate.Store();
      var r := new Router.Store(sys.router);
      inbox, pool, gate, router := i, p, g, r;
      states, steps := [EMPTY], [];
    }

    lemma Sound()
      requires Valid()
      ensures Inv(sys, View())
    {
      RunSound(sys, states, steps, |steps|);
    }

    lemma InboxSound()
      requires Valid()
      ensures Inbox.Inv(sys.inbox, inbox.rows)
    {
      Sound();
    }

    /** Queued work holds no slot yet. */
    lemma QueuedUnreserved()
      requires Valid()
      ensures forall op | op in inbox.rows && inbox.rows[op].state == Inbox.Queued :: op !in pool.rows
    {
      Sound();
    }

    lemma RowSound(op: string)
      requires Valid() && op in pool.rows
      ensures op in inbox.rows && inbox.rows[op].state != Inbox.Queued
      ensures RowOk(View(), op)
    {
      Sound();
      RowFacts(sys, View(), op);
    }

    /** An operation without a slot has left no trace in the gate or the router. */
    lemma Untouched(op: string)
      requires Valid() && op !in pool.rows && op in inbox.rows && op != ""
      ensures op !in gate.files && op !in router.retired && router.route.fence.op != op
    {
      Sound();
    }

    lemma ReserveFinds(r: Inbox.Request)
      requires Valid() && Processing(View(), r.op) && inbox.rows[r.op].request == r
      ensures var tx := Pool.ReserveTx(sys.pool, pool.rows, Wanted(r));
              && tx.result.Ok?
              && r.op in tx.state && tx.result.value == tx.state[r.op]
              && (r.op !in pool.rows ==> tx.state[r.op] == Pool.Fresh(tx.state[r.op].assignment))
    {
      Sound();
      ReserveSucceeds(sys, View(), r.op);
      Pool.ReserveShape(sys.pool, pool.rows, Wanted(r));
    }

    /** Records that the stores have just taken `step` from `before`. */
    ghost method Took(step: Step, before: Stores)
      requires inbox.assignment == sys.inbox && pool.config == sys.pool && router.config == sys.router
      requires IsRun(sys, states, steps) && Receipted(states, steps) && states[|steps|] == before
      requires Enabled(sys, before, step) && View() == Apply(sys, before, step)
      requires step.Record? ==> InstalledBefore(states, steps, |steps|, step.op)
      modifies this
      ensures Valid() && states == old(states) + [View()] && steps == old(steps) + [step]
    {
      ExtendRun(sys, states, steps, step, View());
      states, steps := states + [View()], steps + [step];
    }

    method Submitted(r: Inbox.Request, valid: bool, now: int)
      requires Valid()
      modifies this, inbox
      ensures Valid() && Quiet(old(steps), steps) && KeepsWork(old(inbox.rows), inbox.rows)
    {
      ghost var before := View();
      SubmitKeepsWork(sys, before.inbox, r, valid, now);
      SubmitRow(r, valid, now);
      Took(Submit(r, valid, now), before);
    }

    method SubmitRow(r: Inbox.Request, valid: bool, now: int)
      requires Valid()
      modifies inbox
      ensures inbox.rows == Inbox.SubmitTx(sys.inbox, old(inbox.rows), r, valid, now).state
    {
      InboxSound();
      var _ := inbox.SubmitNodeRuntime(r, valid, now);
    }

    /** New work arrives between two steps, any amount of it, acceptable or not. */
    method Submissions()
      requires Valid()
      modifies this, inbox
      ensures Valid() && Quiet(old(steps), steps) && KeepsWork(old(inbox.rows), inbox.rows)
    {
      var n: nat := *;
      var i := 0;
      while i < n
        invariant Valid() && Quiet(old(steps), steps) && KeepsWork(old(inbox.rows), inbox.rows)
      {
        var r: Inbox.Request := *;
        var valid: bool := *;
        var now: int := *;
        Submitted(r, valid, now);
        i := i + 1;
      }
    }

    lemma CandidateSound(op: string)
      requires Valid() && op in pool.rows
      ensures op in inbox.rows
      ensures Router.Valid(sys.router, CandidateOf(sys, View(), op)) && CandidateOf(sys, View(), op).op == op
      ensures HasBackend(sys, pool.rows[op].assignment.port) && AssignedTo(pool.rows[op].assignment, inbox.rows[op].request)
      ensures Digest(op) && Identifies(sys.router, CandidateOf(sys, View(), op), pool.rows[op].assignment)
    {
      RowSound(op);
      Sound();
      CandidateValid(sys, View(), op);
    }

    /** A fresh operation on its own slot passes every check of the first `Activate` transaction. */
    lemma ActivationOpen(op: string)
      requires Valid() && Processing(View(), op) && op in pool.rows
      requires op !in router.retired && router.route.fence.op != op && !Serves(View(), op)
      ensures Router.BeginTx(sys.router, router.View(), CandidateOf(sys, View(), op)).result == Ok(Router.Probe)
      ensures Router.BeginTx(sys.router, router.View(), CandidateOf(sys, View(), op)).state.route
           == router.route.(fence := CandidateOf(sys, View(), op), status := Router.Pending)
    {
      Sound();
      CandidateValid(sys, View(), op);
      ServingInProgress(sys, View(), op);
      NotInUse(sys, View(), op);
    }

    /** An operation that does not serve can be fenced, whichever of its slot and its work keeps it alive. */
    lemma FenceOpen(op: string)
      requires Valid() && op in pool.rows && op in inbox.rows && !Serves(View(), op)
      requires Processing(View(), op) || Pool.Live(pool.rows[op])
      ensures var c := CandidateOf(sys, View(), op);
              var fenced := Router.FenceTx(sys.router, router.View(), c);
              && fenced.result.Ok? && op in fenced.state.retired && fenced.state.retired[op] == c
              && fenced.state.route.active == router.route.active && fenced.state.route.fence == router.route.fence
              && (fenced.state.route.status == router.route.status
                  || (router.route.status == Router.Pending && fenced.state.route.status == Router.Failed))
    {
      Sound();
      CandidateValid(sys, View(), op);
      NotInUse(sys, View(), op);
      RecordedCandidate(sys, View(), op);
      FenceCommits(sys.router, router.View(), CandidateOf(sys, View(), op));
    }

    lemma RejectOpen(op: string)
      requires Valid() && Processing(View(), op) && op in pool.rows && !Serves(View(), op)
      ensures Router.RejectTx(router.View(), CandidateOf(sys, View(), op)).result.Ok?
    {
      Sound();
      ServingInProgress(sys, View(), op);
      NotInUse(sys, View(), op);
    }

    /** What recovery compares decides exactly whether the operation serves. */
    lemma ServesExactly(op: string)
      requires Valid() && Processing(View(), op) && op in pool.rows
      ensures Serves(View(), op) <==>
                router.route == Router.Route(CandidateOf(sys, View(), op), Router.Active, Some(CandidateOf(sys, View(), op)))
    {
      Sound();
      ServingInProgress(sys, View(), op);
    }

    /** The serving candidate is the candidate of its own slot. */
    lemma ServedKnown()
      requires Valid() && router.route.active.Some?
      ensures var c := router.route.active.value;
              c.op in pool.rows && c.op in inbox.rows && c == CandidateOf(sys, View(), c.op)
    {
      Sound();
    }

    // -------------------------------------------------------------- single steps

    method ClaimStored(valid: bool) returns (work: Result<Option<Inbox.Work>>)
      requires Valid()
      modifies this, inbox
      ensures Valid() && Quiet(old(steps), steps)
      ensures work.Err? ==> work.error == ErrArtifact && !valid
      ensures work.Ok? && work.value.Some? ==>
                var op := work.value.value.request.op;
                && Inbox.NextQueued(old(inbox.rows), op) && work.value.value.request == old(inbox.rows)[op].request
                && Processing(View(), op) && inbox.rows[op] == work.value.value
      ensures work == Ok(None) ==> Inbox.Busy(old(inbox.rows)) || forall op | op in old(inbox.rows) :: old(inbox.rows)[op].state != Inbox.Queued
    {
      ghost var before := View();
      work := ClaimRow(valid);
      if work.Ok? && work.value.Some? {
        TookClaim(work.value.value.request.op, before);
      }
    }

    method ClaimRow(valid: bool) returns (work: Result<Option<Inbox.Work>>)
      requires Valid()
      modifies inbox
      ensures work.Err? ==> work.error == ErrArtifact && !valid
      ensures !(work.Ok? && work.value.Some?) ==> inbox.rows == old(inbox.rows)
      ensures work.Ok? && work.value.Some? ==>
                var op := work.value.value.request.op;
                && !Inbox.Busy(old(inbox.rows)) && Inbox.NextQueued(old(inbox.rows), op)
                && inbox.rows == Inbox.Claimed(old(inbox.rows), op) && work.value.value == inbox.rows[op]
      ensures work == Ok(None) ==> Inbox.Busy(old(inbox.rows)) || forall op | op in old(inbox.rows) :: old(inbox.rows)[op].state != Inbox.Queued
    {
      InboxSound();
      work := inbox.Claim(valid);
    }

    ghost method TookClaim(op: string, before: Stores)
      requires inbox.assignment == sys.inbox && pool.config == sys.pool && router.config == sys.router
      requires IsRun(sys, states, steps) && Receipted(states, steps) && states[|steps|] == before
      requires !Inbox.Busy(before.inbox) && Inbox.NextQueued(before.inbox, op) && View() == before.(inbox := Inbox.Claimed(before.inbox, op))
      modifies this
      ensures Valid() && steps == old(steps) + [Claim(op)]
    {
      ClaimTakes(sys, before, op);
      Took(Claim(op), before);
    }

    method ClaimNext() returns (work: Result<Option<Inbox.Work>>)
      requires Valid()
      modifies this, inbox
      ensures Valid() && Quiet(old(steps), steps)
      ensures work.Err? ==> EnvironmentFault(work.error)
      ensures work.Ok? && work.value.Some? ==>
                && Processing(View(), work.value.value.request.op)
                && inbox.rows[work.value.value.request.op] == work.value.value
                && work.value.value.request.op !in pool.rows && Inbox.NextQueued(old(inbox.rows), work.value.value.request.op)
                && work.value.value.request == old(inbox.rows)[work.value.value.request.op].request
      ensures work == Ok(None) ==> Inbox.Busy(old(inbox.rows)) || forall op | op in old(inbox.rows) :: old(inbox.rows)[op].state != Inbox.Queued
      ensures env.calm ==> work.Ok?
    {
      var cut := env.Fault();
      if cut { return Err(ErrInterrupted); }
      QueuedUnreserved();
      var broken := env.Fault();
      work := ClaimStored(!broken);
      Submissions();
    }

    method ReserveSlot(r: Inbox.Request) returns (result: Result<Pool.Reservation>)
      requires Valid() && Processing(View(), r.op) && inbox.rows[r.op].request == r
      modifies this, inbox, pool
      ensures Valid() && Quiet(old(steps), steps) && KeepsWork(old(inbox.rows), inbox.rows)
      ensures result.Err? ==> result.error == ErrInterrupted
      ensures result.Ok? ==>
                && r.op in pool.rows && result.value == pool.rows[r.op]
                && pool.rows == Pool.ReserveTx(sys.pool, old(pool.rows), Wanted(r)).state
                && (r.op !in old(pool.rows) ==> pool.rows[r.op] == Pool.Fresh(pool.rows[r.op].assignment))
      ensures env.calm ==> result.Ok?
    {
      var cut := env.Fault();
      if cut { return Err(ErrInterrupted); }
      var reserved := TakeSlot(r);
      Submissions();
      return Ok(reserved);
    }

    method TakeSlot(r: Inbox.Request) returns (reserved: Pool.Reservation)
      requires Valid() && Processing(View(), r.op) && inbox.rows[r.op].request == r
      modifies this, pool
      ensures Valid() && Quiet(old(steps), steps)
      ensures r.op in pool.rows && reserved == pool.rows[r.op]
      ensures pool.rows == Pool.ReserveTx(sys.pool, old(pool.rows), Wanted(r)).state
      ensures r.op !in old(pool.rows) ==> pool.rows[r.op] == Pool.Fresh(pool.rows[r.op].assignment)
    {
      ghost var before := View();
      ReserveFinds(r);
      var result := pool.Reserve(Wanted(r));
      Took(Reserve(r.op), before);
      reserved := result.value;
    }

    /** The first transaction of `PrepareRelease`, on a fresh reservation. */
    method PrepareInstall(op: string, m: Pool.Manifest) returns (result: Result<()>)
      requires Valid() && Processing(View(), op) && op in pool.rows
      requires pool.rows[op] == Pool.Fresh(pool.rows[op].assignment)
      modifies this, inbox, pool
      ensures Valid() && old(steps) <= steps && KeepsWork(old(inbox.rows), inbox.rows)
      ensures result.Err? ==> result.error == ErrInterrupted && pool.rows == old(pool.rows)
      ensures result.Ok? ==> pool.rows == old(pool.rows)[op := old(pool.rows)[op].(attempted := true)]
      ensures env.calm ==> result.Ok?
    {
      var cut := env.Fault();
      if cut { return Err(ErrInterrupted); }
      ghost var before := View();
      var committed := pool.Prepare(op, pool.rows[op].assignment, m);
      Took(Prepare(op, m), before);
      Submissions();
      return Outcome(committed);
    }

    /** `GatedInstaller`: the intent is on disk before the action, which may fail or be cut short. */
    method InstallRelease(op: string) returns (result: Result<()>)
      requires Valid() && Processing(View(), op) && op in pool.rows && op !in gate.files
      requires pool.rows[op].attempted && pool.rows[op].state == Pool.Reserved
      modifies this, inbox, gate
      ensures Valid() && old(steps) <= steps && KeepsWork(old(inbox.rows), inbox.rows)
      ensures result.Err? ==> result.error == ErrInterrupted
      ensures result.Ok? ==>
                && gate.files == old(gate.files)[op := Gate.Control(pool.rows[op].assignment, true, false, false)]
                && InstalledBefore(states, steps, |steps|, op)
      ensures env.calm ==> result.Ok?
    {
      var cut := env.Fault();
      if cut { return Err(ErrInterrupted); }
      ghost var before := View();
      RowSound(op);
      var intended := gate.Intend(pool.rows[op].assignment, Gate.Install);
      var broke := env.Fault();
      var ran := !broke;
      assert ran ==> Installs(before, Install(op, ran), op);
      Took(Install(op, ran), before);
      if !ran { return Err(ErrInterrupted); }
      ghost var at := |steps| - 1;
      assert Installs(states[at], steps[at], op);
      return Outcome(intended);
    }

    /** The receipt transaction of `PrepareRelease`. */
    method RecordReceipt(op: string, m: Pool.Manifest) returns (result: Result<()>)
      requires Valid() && Processing(View(), op) && op in pool.rows && op in gate.files && gate.files[op].installed
      requires pool.rows[op] == Pool.Fresh(pool.rows[op].assignment).(attempted := true)
      requires InstalledBefore(states, steps, |steps|, op)
      modifies this, inbox, pool
      ensures Valid() && old(steps) <= steps && KeepsWork(old(inbox.rows), inbox.rows)
      ensures result.Err? ==> result.error == ErrInterrupted && pool.rows == old(pool.rows)
      ensures result.Ok? ==>
                && op in pool.rows && pool.rows == old(pool.rows)[op := pool.rows[op]]
                && pool.rows[op].state == Pool.Reserved && pool.rows[op].attempted && pool.rows[op].installed.Some?
                && pool.rows[op].assignment == old(pool.rows)[op].assignment
                && pool.rows[op].installed.value.assignment == pool.rows[op].assignment
      ensures env.calm ==> result.Ok?
    {
      var cut := env.Fault();
      if cut { return Err(ErrInterrupted); }
      ghost var before := View();
      var at: int := *;
      var committed := pool.Record(op, pool.rows[op].assignment, m, at);
      Took(Record(op, m, at), before);
      Submissions();
      return Outcome(committed);
    }

    method ClaimStartOnce(op: string) returns (result: Result<()>)
      requires Valid() && Processing(View(), op) && op in pool.rows
      requires pool.rows[op].state == Pool.Reserved && pool.rows[op].attempted && pool.rows[op].installed.Some?
      requires pool.rows[op].installed.value.assignment == pool.rows[op].assignment
      modifies this, inbox, pool
      ensures Valid() && old(steps) <= steps && KeepsWork(old(inbox.rows), inbox.rows)
      ensures result.Err? ==> result.error == ErrInterrupted && pool.rows == old(pool.rows)
      ensures result.Ok? ==> pool.rows == old(pool.rows)[op := old(pool.rows)[op].(state := Pool.Starting)]
      ensures env.calm ==> result.Ok?
    {
      var cut := env.Fault();
      if cut { return Err(ErrInterrupted); }
      ghost var before := View();
      var committed := pool.ClaimStart(op);
      Took(ClaimStart(op), before);
      Submissions();
      return Outcome(committed);
    }

    /** The claim checks of `StartInstalledSystemd`. */
    method CheckClaim(a: Pool.Assignment) returns (result: Result<()>)
      ensures result.Ok? <==>
                && Digest(a.op) && a.op in pool.rows && pool.rows[a.op].assignment == a && pool.rows[a.op].state == Pool.Starting
                && pool.rows[a.op].installed.Some? && pool.rows[a.op].installed.value.assignment == a
    {
      var reservation := pool.Lookup(a.op);
      if reservation.Err? { return Err(reservation.error); }
      var r := reservation.value;
      if r.assignment != a || r.state != Pool.Starting || r.installed.None? || r.installed.value.assignment != a {
        return Err(ErrConflict);
      }
      return Ok(());
    }

    /** `StartInstalledSystemd`: its claim checks pass, and the start intent precedes the action. */
    method StartService(op: string) returns (result: Result<()>)
      requires Valid() && Processing(View(), op) && op in pool.rows && pool.rows[op].state == Pool.Starting
      requires op in gate.files && gate.files[op] == Gate.Control(pool.rows[op].assignment, true, false, false)
      modifies this, inbox, gate
      ensures Valid() && old(steps) <= steps && KeepsWork(old(inbox.rows), inbox.rows)
      ensures result.Err? ==> result.error == ErrInterrupted
      ensures result.Ok? ==> Started(pool.rows, gate.files, op) && gate.files == old(gate.files)[op := gate.files[op]]
      ensures env.calm ==> result.Ok?
    {
      var cut := env.Fault();
      if cut { return Err(ErrInterrupted); }
      ClaimHeld(op);
      result := CheckClaim(pool.rows[op].assignment);
      if result.Ok? { result := StartClaimed(op); }
    }

    /** A slot that is starting passes the claim checks. */
    lemma ClaimHeld(op: string)
      requires Valid() && op in pool.rows && pool.rows[op].state == Pool.Starting
      ensures Digest(op) && pool.rows[op].assignment.op == op
      ensures pool.rows[op].installed.Some? && pool.rows[op].installed.value.assignment == pool.rows[op].assignment
    {
      RowSound(op);
      InboxSound();
    }

    method StartClaimed(op: string) returns (result: Result<()>)
      requires Valid() && Processing(View(), op) && op in pool.rows && pool.rows[op].state == Pool.Starting
      requires op in gate.files && gate.files[op] == Gate.Control(pool.rows[op].assignment, true, false, false)
      modifies this, inbox, gate
      ensures Valid() && old(steps) <= steps && KeepsWork(old(inbox.rows), inbox.rows)
      ensures result.Err? ==> result.error == ErrInterrupted
      ensures result.Ok? ==> Started(pool.rows, gate.files, op) && gate.files == old(gate.files)[op := gate.files[op]]
      ensures env.calm ==> result.Ok?
    {
      ghost var before := View();
      RowSound(op);
      var intended := gate.Intend(pool.rows[op].assignment, Gate.Start);
      var cut := env.Fault();
      var ran := !cut;
      Took(Start(op, ran), before);
      if !ran { return Err(ErrInterrupted); }
      Submissions();
      return Outcome(intended);
    }

    /** `recoveryCandidate`: the candidate of work on the slot that was assigned to it, and only to it. */
    method RecoveryCandidate(r: Inbox.Request, a: Pool.Assignment) returns (c: Result<Router.Candidate>)
      requires ValidSystem(sys) && router.config == sys.router
      ensures c.Ok? <==> AssignedTo(a, r) && HasBackend(sys, a.port)
      ensures c.Ok? ==> c.value == Candidate(sys, r, a.port)
    {
      if a.project != r.project || a.runtime != r.runtime || a.op != r.op || a.artifact != r.artifact
         || a.toolchain != r.toolchain || a.arch != r.arch {
        return Err(ErrAssignment);
      }
      var backend := Router.BackendForPort(router.config, a.port);
      if backend.None? { return Err(ErrInvalid); }
      BackendAgrees(sys, a.port);
      return Ok(Router.Candidate(r.project, r.runtime, r.deployment, r.op, r.revision, r.artifact, backend.value));
    }

    /** The candidate of a fresh claim, checked by the router before anything is launched. */
    method FreshCandidate(r: Inbox.Request, port: int) returns (c: Result<Router.Candidate>)
      requires ValidSystem(sys) && router.config == sys.router
      ensures c.Ok? <==> HasBackend(sys, port) && Router.Valid(sys.router, Candidate(sys, r, port))
      ensures c.Ok? ==> c.value == Candidate(sys, r, port)
    {
      var backend := Router.BackendForPort(router.config, port);
      if backend.None? { return Err(ErrInvalid); }
      BackendAgrees(sys, port);
      var candidate := Router.Candidate(r.project, r.runtime, r.deployment, r.op, r.revision, r.artifact, backend.value);
      var pinned := router.BackendPort(candidate);
      return if pinned.Ok? then Ok(candidate) else Err(ErrInvalid);
    }

    method BeginActivation(c: Router.Candidate) returns (result: Result<()>)
      requires Valid() && Processing(View(), c.op) && Started(pool.rows, gate.files, c.op)
      requires c == CandidateOf(sys, View(), c.op)
      requires c.op !in router.retired && router.route.fence.op != c.op && !Serves(View(), c.op)
      modifies this, inbox, router
      ensures Valid() && old(steps) <= steps && KeepsWork(old(inbox.rows), inbox.rows)
      ensures result.Err? ==> result.error == ErrInterrupted
      ensures result.Ok? ==> router.route == old(router.route).(fence := c, status := Router.Pending) && router.retired == old(router.retired)
      ensures env.calm ==> result.Ok?
    {
      var cut := env.Fault();
      if cut { return Err(ErrInterrupted); }
      var raised := RaiseFence(c);
      Submissions();
      return Outcome(raised);
    }

    /** The first transaction of `Activate`. */
    method RaiseFence(c: Router.Candidate) returns (raised: Result<Router.Next>)
      requires Valid() && Processing(View(), c.op) && Started(pool.rows, gate.files, c.op)
      requires c == CandidateOf(sys, View(), c.op)
      requires c.op !in router.retired && router.route.fence.op != c.op && !Serves(View(), c.op)
      modifies this, router
      ensures Valid() && old(steps) <= steps && raised == Ok(Router.Probe)
      ensures router.route == old(router.route).(fence := c, status := Router.Pending) && router.retired == old(router.retired)
    {
      ghost var before := View();
      ActivationOpen(c.op);
      raised := router.ActivateBegin(c);
      Took(ActivateBegin(c.op), before);
    }

    /** The probe answers and the second transaction of `Activate` commits its verdict. */
    method CommitActivation(c: Router.Candidate) returns (result: Result<()>)
      requires Valid() && Processing(View(), c.op) && Started(pool.rows, gate.files, c.op)
      requires c == CandidateOf(sys, View(), c.op)
      requires c.op !in router.retired && router.route.fence == c && router.route.status == Router.Pending
      modifies this, inbox, router
      ensures Valid() && old(steps) <= steps && KeepsWork(old(inbox.rows), inbox.rows)
      ensures result.Err? ==> EnvironmentFault(result.error)
      ensures result.Ok? ==> router.route == Router.Route(c, Router.Active, Some(c))
      ensures env.calm ==> result.Ok?
    {
      var cut := env.Fault();
      if cut { return Err(ErrInterrupted); }
      result := CommitVerdict(c);
      Submissions();
    }

    method CommitVerdict(c: Router.Candidate) returns (result: Result<()>)
      requires Valid() && Processing(View(), c.op) && Started(pool.rows, gate.files, c.op)
      requires c == CandidateOf(sys, View(), c.op)
      requires c.op !in router.retired && router.route.fence == c && router.route.status == Router.Pending
      modifies this, router
      ensures Valid() && old(steps) <= steps
      ensures result.Err? ==> result.error == ErrUnhealthy
      ensures result.Ok? ==> router.route == Router.Route(c, Router.Active, Some(c))
      ensures env.calm ==> result.Ok?
    {
      ghost var before := View();
      var sick := env.Fault();
      var healthy := !sick;
      result := router.ActivateCommit(c, healthy);
      Took(ActivateCommit(c.op, healthy), before);
    }

    /** `FenceRetirement` for an operation that does not serve. */
    method FenceOperation(c: Router.Candidate) returns (result: Result<()>)
      requires Valid() && c.op in pool.rows && c.op in inbox.rows && c == CandidateOf(sys, View(), c.op) && !Serves(View(), c.op)
      requires Processing(View(), c.op) || Pool.Live(pool.rows[c.op])
      modifies this, inbox, router
      ensures Valid() && Quiet(old(steps), steps) && KeepsWork(old(inbox.rows), inbox.rows)
      ensures result.Err? ==> result.error == ErrInterrupted
      ensures router.route.active == old(router.route.active) && router.route.fence == old(router.route.fence)
      ensures router.route.status == old(router.route.status)
           || (old(router.route.status) == Router.Pending && router.route.status == Router.Failed)
      ensures result.Ok? ==> c.op in router.retired && router.retired[c.op] == c
      ensures env.calm ==> result.Ok?
    {
      var cut := env.Fault();
      if cut { return Err(ErrInterrupted); }
      ghost var before := View();
      FenceOpen(c.op);
      var committed := router.FenceRetirement(c);
      Took(FenceOff(c.op), before);
      Submissions();
      return Outcome(committed);
    }

    /** The second transaction of `RejectActivation`. */
    method PublishFailure(c: Router.Candidate) returns (result: Result<()>)
      requires Valid() && Processing(View(), c.op) && c.op in pool.rows && c == CandidateOf(sys, View(), c.op)
      requires !Serves(View(), c.op) && c.op in router.retired
      modifies this, inbox, router
      ensures Valid() && Quiet(old(steps), steps) && KeepsWork(old(inbox.rows), inbox.rows)
      ensures result.Err? ==> result.error == ErrInterrupted
      ensures router.retired == old(router.retired) && router.route.active == old(router.route.active)
      ensures result.Ok? ==> router.route == old(router.route).(fence := c, status := Router.Failed)
      ensures env.calm ==> result.Ok?
    {
      var cut := env.Fault();
      if cut { return Err(ErrInterrupted); }
      ghost var before := View();
      RejectOpen(c.op);
      var committed := router.PublishFailed(c);
      Took(PublishFailed(c.op), before);
      Submissions();
      return Outcome(committed);
    }

    method CloseClaims(op: string) returns (result: Result<()>)
      requires Valid() && op in pool.rows && Pool.Live(pool.rows[op]) && !Serves(View(), op)
      modifies this, inbox, pool
      ensures Valid() && Quiet(old(steps), steps) && KeepsWork(old(inbox.rows), inbox.rows)
      ensures result.Err? ==> result.error == ErrInterrupted && pool.rows == old(pool.rows)
      ensures result.Ok? ==> pool.rows == old(pool.rows)[op := old(pool.rows)[op].(state := Pool.Retiring)]
      ensures env.calm ==> result.Ok?
    {
      var cut := env.Fault();
      if cut { return Err(ErrInterrupted); }
      ghost var before := View();
      var committed := pool.BeginRetirement(op);
      Took(BeginRetirement(op), before);
      Submissions();
      return Outcome(committed);
    }

    /** `RetireSystemd`: the gate fence is on disk before the unit is masked and stopped. */
    method RetireUnit(op: string) returns (result: Result<()>)
      requires Valid() && op in pool.rows && pool.rows[op].state == Pool.Retiring && op in router.retired && !Serves(View(), op)
      modifies this, inbox, gate
      ensures Valid() && Quiet(old(steps), steps) && KeepsWork(old(inbox.rows), inbox.rows)
      ensures result.Err? ==> result.error == ErrInterrupted
      ensures result.Ok? ==> op in gate.files && gate.files[op].retired
      ensures env.calm ==> result.Ok?
    {
      var cut := env.Fault();
      if cut { return Err(ErrInterrupted); }
      result := FenceUnit(op);
      Submissions();
      cut := env.Fault();
      if cut { return Err(ErrInterrupted); }
    }

    method FenceUnit(op: string) returns (result: Result<()>)
      requires Valid() && op in pool.rows && pool.rows[op].state == Pool.Retiring && op in router.retired && !Serves(View(), op)
      modifies this, gate
      ensures Valid() && Quiet(old(steps), steps)
      ensures result.Ok? && op in gate.files && gate.files[op].retired
    {
      ghost var before := View();
      RowSound(op);
      var intended := gate.Intend(pool.rows[op].assignment, Gate.Retire);
      Took(RetireGate(op), before);
      return Outcome(intended);
    }

    /** `ReconcileRetirement` with what the drained host reader observed. */
    method ReleaseSlot(op: string, host: Host, started: int, at: int, now: int) returns (result: Result<()>)
      requires Valid() && op in pool.rows && pool.rows[op].state == Pool.Retiring
      requires op in gate.files && gate.files[op].retired && op in router.retired
      modifies this, inbox, pool
      ensures Valid() && Quiet(old(steps), steps) && KeepsWork(old(inbox.rows), inbox.rows)
      ensures result.Err? ==> EnvironmentFault(result.error) && pool.rows == old(pool.rows)
      ensures result.Ok? ==> op in pool.rows && pool.rows == old(pool.rows)[op := pool.rows[op]] && pool.rows[op].state == Pool.Retired
      ensures op in pool.rows && pool.rows[op].assignment == old(pool.rows)[op].assignment
      ensures result.Ok? <==>
                && host.stopped && host.masked && !host.processes && !host.cgroup && !host.listener
                && started <= at <= now
    {
      ghost var before := View();
      RowSound(op);
      var observed := ObserveRetirement(pool.rows[op].assignment, host, at);
      if observed.Err? { return Err(observed.error); }
      var freed := pool.ReconcileRetirement(op, Some(observed.value), started, now);
      if freed.Err? { return Err(freed.error); }
      Took(FreeSlot(op, observed.value), before);
      Submissions();
      return Ok(());
    }

    /** One look at a slot: what the host shows at `at`, asked for at `started`, known at `now`. */
    method Look() returns (host: Host, started: int, at: int, now: int)
      ensures env.calm ==> host == Host(true, true, false, false, false) && started <= at <= now
    {
      host, started, at, now := *, *, *, *;
      if env.calm { host, at, now := Host(true, true, false, false, false), started, started; }
    }

    /** `drainedHostReader`: the gate must be retired, the unit stopped and masked, and nothing of the
        slot's user, cgroup or port left. */
    method ObserveRetirement(a: Pool.Assignment, host: Host, at: int) returns (o: Result<Pool.Observation>)
      ensures o.Ok? <==>
                && a.op in gate.files && gate.files[a.op].assignment == a && (gate.files[a.op].started ==> gate.files[a.op].installed)
                && gate.files[a.op].retired
                && host.stopped && host.masked && !host.processes && !host.cgroup && !host.listener
      ensures o.Ok? ==> o.value == Pool.Observation(a, at, true, true, true, true)
      ensures a.op in gate.files && Gate.Readable(gate.files, a) && o.Err? ==> o.error == ErrRetirement
    {
      var control := gate.Inspect(a);
      if control.Err? { return Err(control.error); }
      if !control.value.retired { return Err(ErrRetirement); }
      if !host.stopped || !host.masked { return Err(ErrRetirement); }
      if host.processes || host.cgroup || host.listener { return Err(ErrRetirement); }
      return Ok(Pool.Observation(a, at, true, true, true, true));
    }

    method SettleWork(op: string) returns (result: Result<()>)
      requires Valid() && Processing(View(), op) && op in pool.rows
      requires Replaced(View(), op) || pool.rows[op].state == Pool.Retired
      modifies this, inbox
      ensures Valid() && Quiet(old(steps), steps)
      ensures result.Err? ==> result.error == ErrInterrupted
      ensures result.Ok? ==> !Inbox.Busy(inbox.rows) && Settled(inbox.rows, op)
      ensures env.calm ==> result.Ok?
    {
      var cut := env.Fault();
      if cut { return Err(ErrInterrupted); }
      ghost var before := View();
      SoleProcessing(op);
      var committed := inbox.Settle(op);
      Took(Settle(op), before);
      Submissions();
      return Outcome(committed);
    }

    lemma SoleProcessing(op: string)
      requires Valid() && Processing(View(), op)
      ensures Digest(op)
      ensures forall o | o in inbox.rows && inbox.rows[o].state == Inbox.Processing :: o == op
    {
      InboxSound();
    }

    // -------------------------------------------------------------- control flow

    /** `RetireRoutedNode`: close claims, fence and drain the route, retire the unit, free the slot.
        Callers move traffic away first. The drain itself is `RouterThreads`. */
    method RetireRoutedNode(c: Router.Candidate) returns (result: Result<()>)
      requires Valid() && c.op in pool.rows && c.op in inbox.rows && c == CandidateOf(sys, View(), c.op)
      requires !Serves(View(), c.op) && router.route.status != Router.Pending
      modifies this, inbox, pool, gate, router
      ensures Valid() && Quiet(old(steps), steps) && KeepsWork(old(inbox.rows), inbox.rows)
      ensures router.route == old(router.route)
      ensures c.op in pool.rows && pool.rows == old(pool.rows)[c.op := pool.rows[c.op]]
      ensures pool.rows[c.op].assignment == old(pool.rows)[c.op].assignment
      ensures result.Err? ==> EnvironmentFault(result.error)
      ensures result.Ok? ==> pool.rows[c.op].state == Pool.Retired
      ensures env.calm ==> result.Ok?
    {
      CandidateSound(c.op);
      result := CheckIdentity(c);
      if result.Ok? { result := RetireIdentified(c); }
    }

    /** The candidate must name the slot it is to free. */
    method CheckIdentity(c: Router.Candidate) returns (result: Result<()>)
      ensures result.Ok? <==> Digest(c.op) && c.op in pool.rows && Identifies(router.config, c, pool.rows[c.op].assignment)
    {
      var current := pool.Lookup(c.op);
      if current.Err? { return Err(current.error); }
      var a := current.value.assignment;
      var port := router.BackendPort(c);
      if port.Err? { return Err(port.error); }
      if c.project != a.project || c.runtime != a.runtime || c.artifact != a.artifact || port.value != a.port {
        return Err(ErrAssignment);
      }
      return Ok(());
    }

    method RetireIdentified(c: Router.Candidate) returns (result: Result<()>)
      requires Valid() && c.op in pool.rows && c.op in inbox.rows && c == CandidateOf(sys, View(), c.op)
      requires !Serves(View(), c.op) && router.route.status != Router.Pending
      modifies this, inbox, pool, gate, router
      ensures Valid() && Quiet(old(steps), steps) && KeepsWork(old(inbox.rows), inbox.rows)
      ensures router.route == old(router.route)
      ensures c.op in pool.rows && pool.rows == old(pool.rows)[c.op := pool.rows[c.op]]
      ensures pool.rows[c.op].assignment == old(pool.rows)[c.op].assignment
      ensures result.Err? ==> EnvironmentFault(result.error)
      ensures result.Ok? ==> pool.rows[c.op].state == Pool.Retired
      ensures env.calm ==> result.Ok?
    {
      if pool.rows[c.op].state == Pool.Retired { return Ok(()); }
      result := CloseClaims(c.op);
      if result.Err? { return; }
      result := FenceAndStop(c);
    }

    /** With claims closed: fence the route, then stop and release under the drain guard. */
    method FenceAndStop(c: Router.Candidate) returns (result: Result<()>)
      requires Valid() && c.op in pool.rows && c.op in inbox.rows && c == CandidateOf(sys, View(), c.op)
      requires !Serves(View(), c.op) && router.route.status != Router.Pending && pool.rows[c.op].state == Pool.Retiring
      modifies this, inbox, pool, gate, router
      ensures Valid() && Quiet(old(steps), steps) && KeepsWork(old(inbox.rows), inbox.rows)
      ensures router.route == old(router.route)
      ensures c.op in pool.rows && pool.rows == old(pool.rows)[c.op := pool.rows[c.op]]
      ensures pool.rows[c.op].assignment == old(pool.rows)[c.op].assignment
      ensures result.Err? ==> EnvironmentFault(result.error)
      ensures result.Ok? ==> pool.rows[c.op].state == Pool.Retired
      ensures env.calm ==> result.Ok?
    {
      result := FenceOperation(c);
      if result.Err? { return; }
      DrainOpen(c);
      result := router.CheckDrainable(c);
      if result.Ok? { result := StopAndRelease(c.op); }
    }

    /** The drain guard finds nothing to refuse. */
    lemma DrainOpen(c: Router.Candidate)
      requires Valid() && c.op in pool.rows && c.op in inbox.rows && c == CandidateOf(sys, View(), c.op)
      requires !Serves(View(), c.op) && router.route.status != Router.Pending && Pool.Live(pool.rows[c.op])
      requires c.op in router.retired && router.retired[c.op] == c
      ensures Router.Drainable(router.View(), c)
    {
      Sound();
      RetireNeverConflicts(sys, View(), c.op);
    }

    /** What runs under the drain guard: retire the unit, observe the host, free the slot. */
    method StopAndRelease(op: string) returns (result: Result<()>)
      requires Valid() && op in pool.rows && pool.rows[op].state == Pool.Retiring && op in router.retired && !Serves(View(), op)
      modifies this, inbox, pool, gate
      ensures Valid() && Quiet(old(steps), steps) && KeepsWork(old(inbox.rows), inbox.rows)
      ensures op in pool.rows && pool.rows == old(pool.rows)[op := pool.rows[op]]
      ensures pool.rows[op].assignment == old(pool.rows)[op].assignment
      ensures result.Err? ==> EnvironmentFault(result.error)
      ensures result.Ok? ==> pool.rows[op].state == Pool.Retired
      ensures env.calm ==> result.Ok?
    {
      result := RetireUnit(op);
      if result.Err? { return; }
      var host, started, at, now := Look();
      result := ReleaseSlot(op, host, started, at, now);
    }

    /** `recoverProcessing`: reconcile interrupted work without repeating an install or a start. It
        fails only for reasons outside the stores, and success leaves nothing processing. */
    method RecoverProcessing(r: Inbox.Request) returns (result: Result<()>)
      requires Valid() && Processing(View(), r.op) && inbox.rows[r.op].request == r
      modifies this, inbox, pool, gate, router
      ensures Valid() && Quiet(old(steps), steps)
      ensures result.Err? ==> EnvironmentFault(result.error)
      ensures result.Ok? ==> !Inbox.Busy(inbox.rows) && Settled(inbox.rows, r.op)
      ensures result.Ok? ==> if old(Serves(View(), r.op)) then Replaced(View(), r.op) else Rejected(View(), r.op)
      ensures env.calm ==> result.Ok?
    {
      var reserved := ReserveSlot(r);
      if reserved.Err? { return Err(reserved.error); }
      CandidateSound(r.op);
      var candidate := RecoveryCandidate(r, reserved.value.assignment);
      if candidate.Ok? { result := Reconcile(r, candidate.value); } else { result := Err(ErrAssignment); }
    }

    /** What recovery does once it knows the candidate. */
    method Reconcile(r: Inbox.Request, candidate: Router.Candidate) returns (result: Result<()>)
      requires Valid() && Processing(View(), r.op) && inbox.rows[r.op].request == r && r.op in pool.rows
      requires candidate == CandidateOf(sys, View(), r.op) && candidate.op == r.op
      modifies this, inbox, pool, gate, router
      ensures Valid() && Quiet(old(steps), steps)
      ensures result.Err? ==> EnvironmentFault(result.error)
      ensures result.Ok? ==> !Inbox.Busy(inbox.rows) && Settled(inbox.rows, r.op)
      ensures result.Ok? ==> if old(Serves(View(), r.op)) then Replaced(View(), r.op) else Rejected(View(), r.op)
      ensures env.calm ==> result.Ok?
    {
      ServesExactly(r.op);
      var state := router.route;
      if state.status == Router.Active && state.fence == candidate && state.active.Some? && state.active.value == candidate {
        result := RetireOthers(r);
        if result.Err? { return; }
        result := SettleWork(r.op);
      } else {
        result := GiveUp(candidate);
      }
    }

    /** Activation already committed: retire every earlier reservation. */
    method RetireOthers(r: Inbox.Request) returns (result: Result<()>)
      requires Valid() && Processing(View(), r.op) && inbox.rows[r.op].request == r && r.op in pool.rows
      requires Serves(View(), r.op)
      modifies this, inbox, pool, gate, router
      ensures Valid() && Quiet(old(steps), steps) && Processing(View(), r.op) && r.op in pool.rows
      ensures result.Err? ==> EnvironmentFault(result.error)
      ensures result.Ok? ==> Replaced(View(), r.op)
      ensures env.calm ==> result.Ok?
    {
      OwnRows();
      ServesExactly(r.op);
      var outstanding := pool.Outstanding();
      ghost var rows := pool.rows;
      var i := 0;
      while i < |outstanding|
        invariant 0 <= i <= |outstanding|
        invariant Valid() && Quiet(old(steps), steps) && KeepsWork(old(inbox.rows), inbox.rows)
        invariant router.route == old(router.route)
        invariant Swept(rows, pool.rows, outstanding, i, r.op)
      {
        var earlier := outstanding[i].assignment;
        ghost var before := pool.rows;
        if earlier.op != r.op {
          result := RetireEarlier(r.op, earlier);
          if result.Err? { return; }
        }
        SweepOne(rows, before, pool.rows, outstanding, i, r.op);
        i := i + 1;
      }
      SweptAll(rows, pool.rows, outstanding, r.op);
      return Ok(());
    }

    /** One round of recovery's loop. The revision check of the source cannot fail. */
    method RetireEarlier(op: string, earlier: Pool.Assignment) returns (result: Result<()>)
      requires Valid() && Processing(View(), op) && earlier.op in pool.rows && earlier.op != op
      requires pool.rows[earlier.op].assignment == earlier
      requires Serves(View(), op) && router.route.status == Router.Active
      modifies this, inbox, pool, gate, router
      ensures Valid() && Quiet(old(steps), steps) && KeepsWork(old(inbox.rows), inbox.rows)
      ensures router.route == old(router.route)
      ensures earlier.op in pool.rows && pool.rows == old(pool.rows)[earlier.op := pool.rows[earlier.op]]
      ensures pool.rows[earlier.op].assignment == earlier
      ensures result.Err? ==> EnvironmentFault(result.error)
      ensures result.Ok? ==> pool.rows[earlier.op].state == Pool.Retired
      ensures env.calm ==> result.Ok?
    {
      Earlier(op, earlier.op);
      CandidateSound(earlier.op);
      var work := inbox.rows[earlier.op];
      result := Err(ErrReconciliation);
      if work.request.revision < inbox.rows[op].request.revision {
        var previous := RecoveryCandidate(work.request, earlier);
        if previous.Ok? { result := RetireRoutedNode(previous.value); } else { result := Err(ErrAssignment); }
      }
    }

    lemma OwnRows()
      requires Valid()
      ensures forall op | op in pool.rows :: pool.rows[op].assignment.op == op
    {
      Sound();
    }

    /** No other reservation is as new as the operation in progress, so recovery never reports one. */
    lemma Earlier(op: string, other: string)
      requires Valid() && Processing(View(), op) && other in pool.rows && other != op
      ensures other in inbox.rows && inbox.rows[other].request.revision < inbox.rows[op].request.revision
    {
      Sound();
      NewestClaim(inbox.rows, op, other);
    }

    /** `RejectActivation` and `RetireRoutedNode` for work that did not get to serve. */
    method RejectAndRetire(c: Router.Candidate) returns (result: Result<()>)
      requires Valid() && Processing(View(), c.op) && c.op in pool.rows && c == CandidateOf(sys, View(), c.op)
      requires !Serves(View(), c.op)
      modifies this, inbox, pool, gate, router
      ensures Valid() && Quiet(old(steps), steps) && KeepsWork(old(inbox.rows), inbox.rows) && c.op in pool.rows
      ensures result.Err? ==> EnvironmentFault(result.error)
      ensures result.Ok? ==> pool.rows[c.op].state == Pool.Retired
      ensures result.Ok? ==> router.route == old(router.route).(fence := c, status := Router.Failed)
      ensures env.calm ==> result.Ok?
    {
      result := RejectActivation(c);
      if result.Err? { return; }
      result := RetireRoutedNode(c);
    }

    /** `RejectActivation`: the fence first, then the failure. */
    method RejectActivation(c: Router.Candidate) returns (result: Result<()>)
      requires Valid() && Processing(View(), c.op) && c.op in pool.rows && c == CandidateOf(sys, View(), c.op)
      requires !Serves(View(), c.op)
      modifies this, inbox, router
      ensures Valid() && Quiet(old(steps), steps) && KeepsWork(old(inbox.rows), inbox.rows)
      ensures result.Err? ==> EnvironmentFault(result.error)
      ensures result.Ok? ==> router.route == old(router.route).(fence := c, status := Router.Failed)
      ensures env.calm ==> result.Ok?
    {
      result := FenceOperation(c);
      if result.Err? { return; }
      result := PublishFailure(c);
    }

    /** The fresh-claim path of `ProcessNext`, up to activation: reserve, install, start, activate. */
    method Launch(r: Inbox.Request, c: Router.Candidate) returns (result: Result<()>)
      requires Valid() && Processing(View(), r.op) && inbox.rows[r.op].request == r
      requires r.op in pool.rows && pool.rows[r.op] == Pool.Fresh(pool.rows[r.op].assignment)
      requires c == CandidateOf(sys, View(), r.op) && c.op == r.op
      requires r.op !in gate.files && r.op !in router.retired && router.route.fence.op != r.op && !Serves(View(), r.op)
      modifies this, inbox, pool, gate, router
      ensures Valid() && old(steps) <= steps && KeepsWork(old(inbox.rows), inbox.rows)
      ensures result.Err? ==> EnvironmentFault(result.error)
      ensures result.Ok? ==>
                && r.op in pool.rows && pool.rows == old(pool.rows)[r.op := pool.rows[r.op]]
                && router.route == Router.Route(c, Router.Active, Some(c))
      ensures env.calm ==> result.Ok?
    {
      result := BringUp(r.op);
      if result.Err? { return; }
      result := Switch(c);
    }

    /** Install, claim the start and start, on a fresh reservation. */
    method BringUp(op: string) returns (result: Result<()>)
      requires Valid() && Processing(View(), op) && op in pool.rows && op !in gate.files
      requires pool.rows[op] == Pool.Fresh(pool.rows[op].assignment)
      modifies this, inbox, pool, gate
      ensures Valid() && old(steps) <= steps && KeepsWork(old(inbox.rows), inbox.rows)
      ensures result.Err? ==> EnvironmentFault(result.error)
      ensures result.Ok? ==>
                && Started(pool.rows, gate.files, op) && pool.rows == old(pool.rows)[op := pool.rows[op]]
                && pool.rows[op].assignment == old(pool.rows)[op].assignment
      ensures env.calm ==> result.Ok?
    {
      result := InstallFresh(op);
      if result.Err? { return; }
      result := StartInstalled(op);
    }

    /** `ClaimStart` and the gated start, on an installed reservation. */
    method StartInstalled(op: string) returns (result: Result<()>)
      requires Valid() && Processing(View(), op) && op in pool.rows
      requires pool.rows[op].state == Pool.Reserved && pool.rows[op].attempted && pool.rows[op].installed.Some?
      requires pool.rows[op].installed.value.assignment == pool.rows[op].assignment
      requires op in gate.files && gate.files[op] == Gate.Control(pool.rows[op].assignment, true, false, false)
      modifies this, inbox, pool, gate
      ensures Valid() && old(steps) <= steps && KeepsWork(old(inbox.rows), inbox.rows)
      ensures result.Err? ==> EnvironmentFault(result.error)
      ensures result.Ok? ==>
                && Started(pool.rows, gate.files, op) && pool.rows == old(pool.rows)[op := pool.rows[op]]
                && pool.rows[op].assignment == old(pool.rows)[op].assignment
      ensures env.calm ==> result.Ok?
    {
      result := ClaimStartOnce(op);
      if result.Err? { return; }
      result := StartService(op);
    }

    /** `PrepareRelease` with the gated installer, on a fresh reservation. */
    method InstallFresh(op: string) returns (result: Result<()>)
      requires Valid() && Processing(View(), op) && op in pool.rows && op !in gate.files
      requires pool.rows[op] == Pool.Fresh(pool.rows[op].assignment)
      modifies this, inbox, pool, gate
      ensures Valid() && old(steps) <= steps && KeepsWork(old(inbox.rows), inbox.rows)
      ensures result.Err? ==> EnvironmentFault(result.error)
      ensures result.Ok? ==>
                && op in pool.rows && pool.rows == old(pool.rows)[op := pool.rows[op]]
                && pool.rows[op].assignment == old(pool.rows)[op].assignment
                && pool.rows[op].state == Pool.Reserved && pool.rows[op].attempted && pool.rows[op].installed.Some?
                && pool.rows[op].installed.value.assignment == pool.rows[op].assignment
                && op in gate.files && gate.files[op] == Gate.Control(pool.rows[op].assignment, true, false, false)
      ensures env.calm ==> result.Ok?
    {
      var m: Pool.Manifest := *;
      result := PrepareInstall(op, m);
      if result.Err? { return; }
      result := InstallPrepared(op, m);
    }

    /** The install action and its receipt, once the attempt is on record. */
    method InstallPrepared(op: string, m: Pool.Manifest) returns (result: Result<()>)
      requires Valid() && Processing(View(), op) && op in pool.rows && op !in gate.files
      requires pool.rows[op] == Pool.Fresh(pool.rows[op].assignment).(attempted := true)
      modifies this, inbox, pool, gate
      ensures Valid() && old(steps) <= steps && KeepsWork(old(inbox.rows), inbox.rows)
      ensures result.Err? ==> EnvironmentFault(result.error)
      ensures result.Ok? ==>
                && op in pool.rows && pool.rows == old(pool.rows)[op := pool.rows[op]]
                && pool.rows[op].assignment == old(pool.rows)[op].assignment
                && pool.rows[op].state == Pool.Reserved && pool.rows[op].attempted && pool.rows[op].installed.Some?
                && pool.rows[op].installed.value.assignment == pool.rows[op].assignment
                && op in gate.files && gate.files[op] == Gate.Control(pool.rows[op].assignment, true, false, false)
      ensures env.calm ==> result.Ok?
    {
      result := InstallRelease(op);
      if result.Err? { return; }
      result := RecordReceipt(op, m);
    }

    /** `WaitHealthy` and `Activate`. */
    method Switch(c: Router.Candidate) returns (result: Result<()>)
      requires Valid() && Processing(View(), c.op) && Started(pool.rows, gate.files, c.op)
      requires c == CandidateOf(sys, View(), c.op)
      requires c.op !in router.retired && router.route.fence.op != c.op && !Serves(View(), c.op)
      modifies this, inbox, router
      ensures Valid() && old(steps) <= steps && KeepsWork(old(inbox.rows), inbox.rows)
      ensures result.Err? ==> EnvironmentFault(result.error)
      ensures result.Ok? ==> router.route == Router.Route(c, Router.Active, Some(c))
      ensures env.calm ==> result.Ok?
    {
      var cut := env.Fault();
      if cut { return Err(ErrInterrupted); }
      result := BeginActivation(c);
      if result.Err? { return; }
      result := CommitActivation(c);
    }

    /** After activation: retire what served before and settle. */
    method Finish(c: Router.Candidate, previous: Option<Router.Candidate>) returns (result: Result<()>)
      requires Valid() && Processing(View(), c.op) && c.op in pool.rows && router.route == Router.Route(c, Router.Active, Some(c))
      requires previous.Some? ==>
                 && previous.value.op != c.op && previous.value.op in pool.rows && previous.value.op in inbox.rows
                 && previous.value == CandidateOf(sys, View(), previous.value.op)
      requires forall o | o in pool.rows && o != c.op && !(previous.Some? && previous.value.op == o) :: pool.rows[o].state == Pool.Retired
      modifies this, inbox, pool, gate, router
      ensures Valid() && old(steps) <= steps
      ensures result.Err? ==> EnvironmentFault(result.error)
      ensures result.Ok? ==> !Inbox.Busy(inbox.rows) && Settled(inbox.rows, c.op) && Replaced(View(), c.op)
      ensures env.calm ==> result.Ok?
    {
      if previous.Some? {
        result := RetireRoutedNode(previous.value);
        if result.Err? { return; }
      }
      result := SettleWork(c.op);
    }

    /** Until the operation in progress serves, whatever else occupies a slot is what serves. */
    lemma OthersServe(op: string)
      requires Valid() && Processing(View(), op) && !Serves(View(), op)
      ensures forall o | o in pool.rows && o != op && Pool.Live(pool.rows[o]) :: Serves(View(), o)
    {
      Sound();
      InProgressIs(inbox.rows, op);
    }

    /** One freshly claimed operation, from its slot to its settlement: in time it ends up serving,
        alone; past its deadline it is turned down and nothing of it is ever launched. */
    method RunClaimed(r: Inbox.Request, now: int) returns (result: Result<()>)
      requires Valid() && Processing(View(), r.op) && inbox.rows[r.op].request == r && r.op !in pool.rows && r.op != ""
      modifies this, inbox, pool, gate, router
      ensures Valid() && old(steps) <= steps
      ensures result.Err? ==> EnvironmentFault(result.error)
      ensures result.Ok? ==> !Inbox.Busy(inbox.rows) && Settled(inbox.rows, r.op)
      ensures result.Ok? && now < r.activateBefore ==> Replaced(View(), r.op)
      ensures r.activateBefore <= now ==> Quiet(old(steps), steps) && (result.Ok? ==> Rejected(View(), r.op))
      ensures env.calm ==> result.Ok?
    {
      Untouched(r.op);
      var reserved := ReserveSlot(r);
      if reserved.Err? { return Err(reserved.error); }
      CandidateSound(r.op);
      var candidate := FreshCandidate(r, reserved.value.assignment.port);
      if candidate.Ok? { result := RunReserved(r, candidate.value, now); } else { result := Err(ErrInvalid); }
    }

    /** A claimed operation on its fresh slot: too late, or deployed. */
    method RunReserved(r: Inbox.Request, c: Router.Candidate, now: int) returns (result: Result<()>)
      requires Valid() && Processing(View(), r.op) && inbox.rows[r.op].request == r
      requires r.op in pool.rows && pool.rows[r.op] == Pool.Fresh(pool.rows[r.op].assignment)
      requires c == CandidateOf(sys, View(), r.op) && c.op == r.op
      requires r.op !in gate.files && r.op !in router.retired && router.route.fence.op != r.op
      modifies this, inbox, pool, gate, router
      ensures Valid() && old(steps) <= steps
      ensures result.Err? ==> EnvironmentFault(result.error)
      ensures result.Ok? ==> !Inbox.Busy(inbox.rows) && Settled(inbox.rows, r.op)
      ensures result.Ok? && now < r.activateBefore ==> Replaced(View(), r.op)
      ensures r.activateBefore <= now ==> Quiet(old(steps), steps) && (result.Ok? ==> Rejected(View(), r.op))
      ensures env.calm ==> result.Ok?
    {
      NotServing(r.op);
      if r.activateBefore <= now {
        result := GiveUp(c);
      } else {
        result := Deploy(r, c);
      }
    }

    /** Past its deadline, an operation is rejected, retired and settled. */
    method GiveUp(c: Router.Candidate) returns (result: Result<()>)
      requires Valid() && Processing(View(), c.op) && c.op in pool.rows && c == CandidateOf(sys, View(), c.op)
      requires !Serves(View(), c.op)
      modifies this, inbox, pool, gate, router
      ensures Valid() && Quiet(old(steps), steps)
      ensures result.Err? ==> EnvironmentFault(result.error)
      ensures result.Ok? ==> !Inbox.Busy(inbox.rows) && Settled(inbox.rows, c.op) && Rejected(View(), c.op)
      ensures env.calm ==> result.Ok?
    {
      result := RejectAndRetire(c);
      if result.Err? { return; }
      Vacant(c.op);
      result := SettleWork(c.op);
    }

    /** A slot is given up only for an operation the router will not have back. */
    lemma Vacant(op: string)
      requires Valid() && op in pool.rows && pool.rows[op].state == Pool.Retired
      ensures op in router.retired && !Serves(View(), op)
    {
      Sound();
      RetiredIsGone(sys, View(), op);
    }

    /** An operation whose slot was never started does not serve. */
    lemma NotServing(op: string)
      requires Valid() && op in pool.rows && pool.rows[op].state != Pool.Starting
      ensures !Serves(View(), op)
    {
      RowSound(op);
    }

    method Deploy(r: Inbox.Request, c: Router.Candidate) returns (result: Result<()>)
      requires Valid() && Processing(View(), r.op) && inbox.rows[r.op].request == r
      requires r.op in pool.rows && pool.rows[r.op] == Pool.Fresh(pool.rows[r.op].assignment)
      requires c == CandidateOf(sys, View(), r.op) && c.op == r.op
      requires r.op !in gate.files && r.op !in router.retired && router.route.fence.op != r.op && !Serves(View(), r.op)
      modifies this, inbox, pool, gate, router
      ensures Valid() && old(steps) <= steps
      ensures result.Err? ==> EnvironmentFault(result.error)
      ensures result.Ok? ==> !Inbox.Busy(inbox.rows) && Settled(inbox.rows, r.op) && Replaced(View(), r.op)
      ensures env.calm ==> result.Ok?
    {
      var previous := router.route.active;
      OthersServe(r.op);
      if previous.Some? { ServedKnown(); }
      result := Launch(r, c);
      if result.Err? { return; }
      result := Finish(c, previous);
    }

    /** `ProcessNext`, for what the clock shows when it is looked at. Whatever happens on the way, the
        history stays a run of the protocol and the stores refuse nothing; if nothing outside fails,
        neither does the call. Unfinished work is left alone until its deadline and then settled as
        it stands, launching nothing; otherwise the oldest queued work is taken, and ends up serving
        if it was in time and turned down if it was not. */
    method ProcessNext(now: int) returns (worked: bool, result: Result<()>, ghost op: string)
      requires Valid()
      modifies this, inbox, pool, gate, router
      ensures Valid() && old(steps) <= steps
      ensures result.Err? ==> EnvironmentFault(result.error)
      ensures env.calm ==> result.Ok?
      ensures worked && result.Ok? ==> !Inbox.Busy(inbox.rows) && Settled(inbox.rows, op)
      ensures old(Inbox.Busy(inbox.rows)) ==>
                && Processing(old(View()), op)
                && (!worked <==> now < old(inbox.rows)[op].request.activateBefore)
                && (!worked ==> result.Ok? && View() == old(View()) && steps == old(steps))
                && Quiet(old(steps), steps)
                && (worked && result.Ok? ==> if old(Serves(View(), op)) then Replaced(View(), op) else Rejected(View(), op))
      ensures !old(Inbox.Busy(inbox.rows)) && !worked && result.Ok? ==>
                forall o | o in old(inbox.rows) :: old(inbox.rows)[o].state != Inbox.Queued
      ensures !old(Inbox.Busy(inbox.rows)) && worked ==>
                && Inbox.NextQueued(old(inbox.rows), op)
                && (if old(inbox.rows)[op].request.activateBefore <= now
                    then Quiet(old(steps), steps) && (result.Ok? ==> Rejected(View(), op))
                    else result.Ok? ==> Replaced(View(), op))
    {
      op := "";
      var processing := inbox.FindProcessing();
      if processing.Some? {
        ProcessingKeyed(processing.value);
        op := processing.value.request.op;
        if processing.value.request.activateBefore > now { return false, Ok(()), op; }
        result := RecoverProcessing(processing.value.request);
        return true, result, op;
      }
      worked, result, op := TakeNext(now);
    }

    /** The half of `ProcessNext` that starts from an idle inbox. */
    method TakeNext(now: int) returns (worked: bool, result: Result<()>, ghost op: string)
      requires Valid() && !Inbox.Busy(inbox.rows)
      modifies this, inbox, pool, gate, router
      ensures Valid() && old(steps) <= steps
      ensures result.Err? ==> EnvironmentFault(result.error)
      ensures env.calm ==> result.Ok?
      ensures worked && result.Ok? ==> !Inbox.Busy(inbox.rows) && Settled(inbox.rows, op)
      ensures !worked && result.Ok? ==> forall o | o in old(inbox.rows) :: old(inbox.rows)[o].state != Inbox.Queued
      ensures worked ==>
                && Inbox.NextQueued(old(inbox.rows), op)
                && (if old(inbox.rows)[op].request.activateBefore <= now
                    then Quiet(old(steps), steps) && (result.Ok? ==> Rejected(View(), op))
                    else result.Ok? ==> Replaced(View(), op))
    {
      op := "";
      var work := ClaimNext();
      if work.Err? { return false, Err(work.error), op; }
      if work.value.None? { return false, Ok(()), op; }
      op := work.value.value.request.op;
      SoleProcessing(op);
      result := RunClaimed(work.value.value.request, now);
      return true, result, op;
    }

    lemma ProcessingKeyed(work: Inbox.Work)
      requires Valid() && exists op | op in inbox.rows :: inbox.rows[op] == work && inbox.rows[op].state == Inbox.Processing
      ensures Processing(View(), work.request.op) && inbox.rows[work.request.op] == work
    {
      InboxSound();
    }
  }
}
