/** Whole runs of the deployment protocol: what holds in every reachable state and between any
    two of them, whatever crashes, retries and probe results occur. */
module Runs {
  import opened Common
  import opened Protocol
  import Inbox
  import Pool
  import Gate
  import Router

  /** The run takes its `i`-th step. */
  ghost predicate Took(sys: System, states: seq<Stores>, steps: seq<Step>, i: int)
    requires ValidSystem(sys) && |states| == |steps| + 1
  {
    0 <= i < |steps| && Enabled(sys, states[i], steps[i]) && states[i + 1] == Apply(sys, states[i], steps[i])
  }

  ghost predicate IsRun(sys: System, states: seq<Stores>, steps: seq<Step>) {
    && ValidSystem(sys)
    && |states| == |steps| + 1
    && states[0] == EMPTY
    && forall i | 0 <= i < |steps| :: Took(sys, states, steps, i)
  }

  /** A receipt is only ever recorded after the install action ran. */
  ghost predicate Receipted(states: seq<Stores>, steps: seq<Step>)
    requires |states| == |steps| + 1
  {
    forall j | 0 <= j < |steps| && steps[j].Record? :: InstalledBefore(states, steps, j, steps[j].op)
  }

  ghost predicate InstalledBefore(states: seq<Stores>, steps: seq<Step>, j: int, op: string)
    requires |states| == |steps| + 1 && 0 <= j <= |steps|
  {
    exists i | 0 <= i < j :: Installs(states[i], steps[i], op)
  }

  /** The step runs the host's install action for `op`. */
  predicate Installs(s: Stores, step: Step, op: string) {
    step == Install(op, true) && op in s.pool && Gate.IntentTx(s.gate, s.pool[op].assignment, Gate.Install).result.Ok?
  }

  /** The step runs the host's start action for `op`. */
  predicate Starts(s: Stores, step: Step, op: string) {
    step == Start(op, true) && op in s.pool && Gate.IntentTx(s.gate, s.pool[op].assignment, Gate.Start).result.Ok?
  }

  lemma {:induction false} EmptySound(sys: System)
    ensures Inv(sys, EMPTY)
  {
    assert Inbox.Bytes(EMPTY.inbox, EMPTY.inbox.Keys) == 0;
  }

  lemma {:induction false} RunSound(sys: System, states: seq<Stores>, steps: seq<Step>, i: nat)
    requires IsRun(sys, states, steps) && i <= |steps|
    ensures Inv(sys, states[i])
    decreases i
  {
    if i == 0 {
      EmptySound(sys);
    } else {
      RunSound(sys, states, steps, i - 1);
      assert Took(sys, states, steps, i - 1);
      StepPreserves(sys, states[i - 1], steps[i - 1]);
    }
  }

  // ---------------------------------------------------------------- what never goes back

  ghost predicate InboxForward(rows: Inbox.Rows, rows': Inbox.Rows) {
    forall op | op in rows ::
      op in rows' && rows'[op].request == rows[op].request && Inbox.Rank(rows[op].state) <= Inbox.Rank(rows'[op].state)
  }

  predicate ControlForward(c: Gate.Control, c': Gate.Control) {
    && c'.assignment == c.assignment
    && (c.installed ==> c'.installed) && (c.started ==> c'.started) && (c.retired ==> c'.retired)
  }

  ghost predicate GateForward(files: Gate.Files, files': Gate.Files) {
    forall op | op in files :: op in files' && ControlForward(files[op], files'[op])
  }

  ghost predicate Forward(s: Stores, s': Stores) {
    && InboxForward(s.inbox, s'.inbox)
    && Pool.Extends(s.pool, s'.pool)
    && GateForward(s.gate, s'.gate)
    && Router.Advances(s.router, s'.router)
  }

  lemma {:induction false} StepForward(sys: System, s: Stores, step: Step)
    requires ValidSystem(sys) && Inv(sys, s) && Enabled(sys, s, step)
    ensures Forward(s, Apply(sys, s, step))
  {
    if IsRouterStep(step) || step.Reserve? {
      PlacingForward(sys, s, step);
    } else if IsPoolStep(step) {
      PoolForward(sys, s, step);
    } else if IsGateStep(step) {
      GateStepForward(sys, s, step);
    } else {
      InboxStepForward(sys, s, step);
    }
  }

  lemma {:induction false} PlacingForward(sys: System, s: Stores, step: Step)
    requires ValidSystem(sys) && Inv(sys, s) && Enabled(sys, s, step) && (IsRouterStep(step) || step.Reserve?)
    ensures Forward(s, Apply(sys, s, step))
  {
    if step.Reserve? {
      Pool.ReservePreserves(sys.pool, s.pool, Wanted(s.inbox[step.op].request));
      ReserveForward(sys, s, step);
    } else {
      RouteFrame(sys, s, step);
      CandidateValid(sys, s, step.op);
      RouterStepForward(sys, s, step);
    }
  }

  lemma {:induction false} RouterStepForward(sys: System, s: Stores, step: Step)
    requires ValidSystem(sys) && Router.Inv(sys.router, s.router) && Enabled(sys, s, step) && IsRouterStep(step)
    requires Router.Valid(sys.router, CandidateOf(sys, s, step.op)) && CandidateOf(sys, s, step.op).op == step.op
    requires Routed(sys, s.inbox, s.pool, s.router)
    ensures Forward(s, Apply(sys, s, step))
  {
    RouteFrame(sys, s, step);
    RouteSound(sys, s, step);
  }

  lemma {:induction false} ReserveForward(sys: System, s: Stores, step: Step)
    requires ValidSystem(sys) && Enabled(sys, s, step) && step.Reserve?
    requires Pool.Extends(s.pool, Pool.ReserveTx(sys.pool, s.pool, Wanted(s.inbox[step.op].request)).state)
    ensures Forward(s, Apply(sys, s, step))
  {
  }

  lemma {:induction false} InboxStepForward(sys: System, s: Stores, step: Step)
    requires ValidSystem(sys) && Enabled(sys, s, step)
    requires step.Submit? || step.Claim? || step.Settle?
    ensures Forward(s, Apply(sys, s, step))
  {
    if step.Submit? {
      Inbox.SubmitShape(sys.inbox, s.inbox, step.r, step.valid, step.now);
    } else if step.Settle? {
      SettleFrame(sys, s, step);
    }
  }

  lemma {:induction false} PoolForward(sys: System, s: Stores, step: Step)
    requires ValidSystem(sys) && Inv(sys, s) && Enabled(sys, s, step) && IsPoolStep(step)
    ensures Forward(s, Apply(sys, s, step))
  {
    if step.op in s.pool { RowFacts(sys, s, step.op); }
    RowForward(sys, s, step);
  }

  lemma {:induction false} RowForward(sys: System, s: Stores, step: Step)
    requires ValidSystem(sys) && Enabled(sys, s, step) && IsPoolStep(step) && (step.op in s.pool ==> RowOk(s, step.op))
    ensures Forward(s, Apply(sys, s, step))
  {
    if step.op in s.pool {
      RowAfter(sys, s, step);
    }
  }

  lemma {:induction false} GateStepForward(sys: System, s: Stores, step: Step)
    requires ValidSystem(sys) && Inv(sys, s) && Enabled(sys, s, step) && IsGateStep(step)
    ensures Forward(s, Apply(sys, s, step))
  {
    GateFrame(sys, s, step);
    RowFacts(sys, s, step.op);
    ControlsForward(sys, s, step);
  }

  lemma {:induction false} ControlsForward(sys: System, s: Stores, step: Step)
    requires ValidSystem(sys) && Enabled(sys, s, step) && IsGateStep(step) && RowOk(s, step.op)
    ensures Forward(s, Apply(sys, s, step))
  {
    GateFrame(sys, s, step);
    GateFilesForward(sys, s, step);
  }

  lemma {:induction false} GateFilesForward(sys: System, s: Stores, step: Step)
    requires ValidSystem(sys) && Enabled(sys, s, step) && IsGateStep(step) && RowOk(s, step.op)
    ensures GateForward(s.gate, Apply(sys, s, step).gate)
  {
  }

  lemma {:induction false} ForwardTransitive(a: Stores, b: Stores, c: Stores)
    requires Forward(a, b) && Forward(b, c)
    ensures Forward(a, c)
  {
    Router.AdvancesTransitive(a.router, b.router, c.router);
  }

  lemma {:induction false} RunForward(sys: System, states: seq<Stores>, steps: seq<Step>, i: nat, j: nat)
    requires IsRun(sys, states, steps) && i <= j <= |steps|
    ensures Forward(states[i], states[j])
    decreases j
  {
    if i < j {
      RunForward(sys, states, steps, i, j - 1);
      ForwardAt(sys, states, steps, j - 1);
      ForwardTransitive(states[i], states[j - 1], states[j]);
    }
  }

  lemma {:induction false} ForwardAt(sys: System, states: seq<Stores>, steps: seq<Step>, i: nat)
    requires IsRun(sys, states, steps) && i < |steps|
    ensures Forward(states[i], states[i + 1])
  {
    RunSound(sys, states, steps, i);
    assert Took(sys, states, steps, i);
    StepForward(sys, states[i], steps[i]);
  }

  // ---------------------------------------------------------------- the work queue

  /** Over a whole run each operation is claimed at most once, and claims come in strictly increasing
      revision order, each while nothing else is processing. */
  lemma {:induction false} ClaimsInOrder(sys: System, states: seq<Stores>, steps: seq<Step>, i: nat, j: nat)
    requires IsRun(sys, states, steps) && i < j < |steps| && steps[i].Claim? && steps[j].Claim?
    ensures steps[i].op != steps[j].op && steps[i].op in states[i].inbox && steps[j].op in states[j].inbox
    ensures states[i].inbox[steps[i].op].request.revision < states[j].inbox[steps[j].op].request.revision
    ensures steps[i].op in states[j].inbox && states[j].inbox[steps[i].op].state == Inbox.Settled
  {
    ClaimedAt(sys, states, steps, i);
    RunForward(sys, states, steps, i + 1, j);
    ClaimAfter(sys, states, steps, j, steps[i].op);
  }

  lemma {:induction false} ClaimAfter(sys: System, states: seq<Stores>, steps: seq<Step>, j: nat, o: string)
    requires IsRun(sys, states, steps) && j < |steps| && steps[j].Claim?
    requires o in states[j].inbox && states[j].inbox[o].state != Inbox.Queued
    ensures steps[j].op in states[j].inbox && o != steps[j].op && states[j].inbox[o].state == Inbox.Settled
    ensures states[j].inbox[o].request.revision < states[j].inbox[steps[j].op].request.revision
  {
    RunSound(sys, states, steps, j);
    assert Took(sys, states, steps, j);
    Inbox.ClaimPreserves(sys.inbox, states[j].inbox, steps[j].op);
  }

  lemma {:induction false} ClaimedAt(sys: System, states: seq<Stores>, steps: seq<Step>, i: nat)
    requires IsRun(sys, states, steps) && i < |steps| && steps[i].Claim?
    ensures var op := steps[i].op;
            && op in states[i].inbox && op in states[i + 1].inbox && states[i + 1].inbox[op].state == Inbox.Processing
            && states[i + 1].inbox[op].request == states[i].inbox[op].request
  {
    assert Took(sys, states, steps, i);
  }

  // ---------------------------------------------------------------- safe slot reuse

  /** The pool calls the operation retired, its slot was seen vacated, and all three other stores
      forbid its return. */
  predicate Gone(s: Stores, op: string) {
    && op in s.pool && s.pool[op].state == Pool.Retired && s.pool[op].assignment.op == op
    && SeenVacated(s.pool[op])
    && op in s.gate && s.gate[op].retired
    && op in s.router.retired
    && !Serves(s, op)
    && !(s.router.route.status == Router.Pending && s.router.route.fence.op == op)
  }

  /** An observation of this slot, with no start to come, no process, no listener and no route left. */
  predicate SeenVacated(r: Pool.Reservation) {
    && r.retirement.Some? && r.retirement.value.assignment == r.assignment
    && r.retirement.value.startsFenced && r.retirement.value.processesGone
    && r.retirement.value.listenerGone && r.retirement.value.routingDetached
  }

  lemma {:induction false} RetiredIsGone(sys: System, s: Stores, op: string)
    requires Inv(sys, s) && op in s.pool && s.pool[op].state == Pool.Retired
    ensures Gone(s, op)
  {
    RowFacts(sys, s, op);
  }

  /** Once a slot is given up, its former holder is gone from every store, now and at every later
      point of the run, and no later step installs it, starts it or makes it serve. */
  lemma {:induction false} SafeReuse(sys: System, states: seq<Stores>, steps: seq<Step>, i: nat, j: nat, op: string)
    requires IsRun(sys, states, steps) && i <= j <= |steps|
    requires op in states[i].pool && states[i].pool[op].state == Pool.Retired
    ensures Gone(states[i], op) && Gone(states[j], op)
    ensures j < |steps| ==> !Installs(states[j], steps[j], op) && !Starts(states[j], steps[j], op) && !Serves(states[j + 1], op)
  {
    GoneForever(sys, states, steps, i, i, op);
    GoneForever(sys, states, steps, i, j, op);
    if j < |steps| {
      GoneForever(sys, states, steps, i, j + 1, op);
      GoneRefused(states[j], steps[j], op);
    }
  }

  lemma {:induction false} GoneRefused(s: Stores, step: Step, op: string)
    requires Gone(s, op) && s.pool[op].assignment.op == op
    ensures !Installs(s, step, op) && !Starts(s, step, op)
  {
  }

  lemma {:induction false} GoneForever(sys: System, states: seq<Stores>, steps: seq<Step>, i: nat, j: nat, op: string)
    requires IsRun(sys, states, steps) && i <= j <= |steps|
    requires op in states[i].pool && states[i].pool[op].state == Pool.Retired
    ensures Gone(states[j], op)
  {
    RunForward(sys, states, steps, i, j);
    RunSound(sys, states, steps, j);
    RetiredIsGone(sys, states[j], op);
  }

  /** Two operations are ever given the same UID or port only after the earlier holder is gone for good. */
  lemma {:induction false} SlotHandover(sys: System, states: seq<Stores>, steps: seq<Step>, j: nat, k: nat, next: string, former: string)
    requires IsRun(sys, states, steps) && j < k <= |steps|
    requires next !in states[j].pool && next in states[j + 1].pool
    requires former in states[j].pool
    requires states[j + 1].pool[next].assignment.uid == states[j].pool[former].assignment.uid
          || states[j + 1].pool[next].assignment.port == states[j].pool[former].assignment.port
    ensures Gone(states[j], former) && Gone(states[k], former)
    ensures k < |steps| ==> !Installs(states[k], steps[k], former) && !Starts(states[k], steps[k], former) && !Serves(states[k + 1], former)
  {
    assert Took(sys, states, steps, j);
    RunSound(sys, states, steps, j);
    FormerRetired(sys, states[j], steps[j], next, former);
    SafeReuse(sys, states, steps, j, k, former);
  }

  /** Rows appear only as fresh reservations. */
  lemma {:induction false} NewRowIsLive(sys: System, s: Stores, step: Step, op: string)
    requires ValidSystem(sys) && Enabled(sys, s, step) && op !in s.pool && op in Apply(sys, s, step).pool
    ensures step.Reserve? && Pool.Live(Apply(sys, s, step).pool[op])
    ensures Apply(sys, s, step).pool == s.pool[op := Apply(sys, s, step).pool[op]]
  {
    if step.Reserve? {
      Pool.ReserveShape(sys.pool, s.pool, Wanted(s.inbox[step.op].request));
    } else {
      SamePoolKeys(sys, s, step);
    }
  }

  lemma {:induction false} SamePoolKeys(sys: System, s: Stores, step: Step)
    requires ValidSystem(sys) && Enabled(sys, s, step) && !step.Reserve?
    ensures Apply(sys, s, step).pool.Keys == s.pool.Keys
  {
  }

  lemma {:induction false} FormerRetired(sys: System, s: Stores, step: Step, next: string, former: string)
    requires ValidSystem(sys) && Pool.Inv(sys.pool, s.pool) && Enabled(sys, s, step)
    requires next !in s.pool && next in Apply(sys, s, step).pool && former in s.pool
    requires var r := Apply(sys, s, step).pool[next].assignment;
             r.uid == s.pool[former].assignment.uid || r.port == s.pool[former].assignment.port
    ensures s.pool[former].state == Pool.Retired
  {
    NewRowIsLive(sys, s, step, next);
    Pool.ReservePreserves(sys.pool, s.pool, Wanted(s.inbox[step.op].request));
    ExclusiveApplied(Apply(sys, s, step).pool, next, former);
  }

  lemma {:induction false} ExclusiveApplied(rows: Pool.Rows, o: string, p: string)
    requires Pool.Exclusive(rows) && o in rows && p in rows && o != p && Pool.Live(rows[o])
    requires rows[o].assignment.uid == rows[p].assignment.uid || rows[o].assignment.port == rows[p].assignment.port
    ensures rows[p].state == Pool.Retired
  {
  }

  // ---------------------------------------------------------------- the serving route

  /** In every reachable state the serving operation runs on its own claimed, installed and
      started slot, and no other live reservation touches that UID or port. */
  lemma {:induction false} ServingIsBacked(sys: System, states: seq<Stores>, steps: seq<Step>, i: nat)
    requires IsRun(sys, states, steps) && i <= |steps| && states[i].router.route.active.Some?
    ensures var s, c := states[i], states[i].router.route.active.value;
            && c.op in s.inbox && c.op in s.pool && c == CandidateOf(sys, s, c.op)
            && s.pool[c.op].state == Pool.Starting
            && s.pool[c.op].installed.Some? && s.pool[c.op].installed.value.assignment == s.pool[c.op].assignment
            && c.backend in sys.router.backends
            && sys.router.backends[c.backend] == s.pool[c.op].assignment.port
            && c.op in s.gate && s.gate[c.op].started && !s.gate[c.op].retired
            && c.op !in s.router.retired
    ensures forall o | o in states[i].pool && o != states[i].router.route.active.value.op && Pool.Live(states[i].pool[o]) ::
              var mine := states[i].pool[states[i].router.route.active.value.op].assignment;
              states[i].pool[o].assignment.uid != mine.uid && states[i].pool[o].assignment.port != mine.port
  {
    RunSound(sys, states, steps, i);
    var c := states[i].router.route.active.value;
    CandidateValid(sys, states[i], c.op);
    RowFacts(sys, states[i], c.op);
  }

  // ---------------------------------------------------------------- capacity and conflicts

  /** `Reserve` for the processing operation never fails: a fresh one finds a free slot, a known
      one gets its recorded reservation back. */
  lemma {:induction false} NeverOutOfSlots(sys: System, states: seq<Stores>, steps: seq<Step>, i: nat, op: string)
    requires IsRun(sys, states, steps) && i <= |steps| && Processing(states[i], op)
    ensures var tx := Pool.ReserveTx(sys.pool, states[i].pool, Wanted(states[i].inbox[op].request));
            && tx.result.Ok?
            && op in tx.state && tx.result.value == tx.state[op]
            && (op in states[i].pool ==> tx.state == states[i].pool)
  {
    RunSound(sys, states, steps, i);
    ReserveSucceeds(sys, states[i], op);
  }

  lemma {:induction false} ReserveSucceeds(sys: System, s: Stores, op: string)
    requires ValidSystem(sys) && Inv(sys, s) && Processing(s, op)
    ensures var tx := Pool.ReserveTx(sys.pool, s.pool, Wanted(s.inbox[op].request));
            && tx.result.Ok?
            && op in tx.state && tx.result.value == tx.state[op]
            && (op in s.pool ==> tx.state == s.pool)
  {
    var a := Wanted(s.inbox[op].request);
    assert Inbox.Accepts(sys.inbox, s.inbox[op].request);
    WantedRequestable(sys, s.inbox[op].request);
    if op in s.pool {
      assert Pool.Place(a, Pool.HeldSlot(s.pool[op])) == s.pool[op].assignment;
    } else {
      DirectoryFree(s.inbox, s.pool, op);
      InProgressIs(s.inbox, op);
      RoomLeft(sys, s.pool, op, Served(s.router));
    }
  }

  lemma {:induction false} WantedRequestable(sys: System, r: Inbox.Request)
    requires ValidSystem(sys) && Inbox.Accepts(sys.inbox, r)
    ensures Pool.Requestable(sys.pool, Wanted(r))
  {
    var a := Wanted(r);
    assert a.directory[|Pool.PREFIX|..] == r.op;
  }

  lemma {:induction false} DirectoryFree(inbox: Inbox.Rows, pool: Pool.Rows, op: string)
    requires Linked(inbox, pool) && op !in pool && op in inbox && inbox[op].request.op == op
    requires forall o | o in pool :: pool[o].assignment.op == o
    ensures !Pool.DirectoryTaken(pool, Pool.PREFIX + op)
  {
    if Pool.DirectoryTaken(pool, Pool.PREFIX + op) {
      var o :| o in pool && pool[o].assignment.directory == Pool.PREFIX + op;
      PrefixInjective(o, op);
    }
  }

  lemma {:induction false} PrefixInjective(a: string, b: string)
    requires Pool.PREFIX + a == Pool.PREFIX + b
    ensures a == b
  {
    assert a == (Pool.PREFIX + a)[|Pool.PREFIX|..];
  }

  /** With at least two slots and one live reservation at most, a slot is free. */
  lemma {:induction false} RoomLeft(sys: System, pool: Pool.Rows, op: string, served: Option<string>)
    requires ValidSystem(sys) && Pool.Inv(sys.pool, pool) && op !in pool
    requires Occupied(pool, Some(op), served)
    ensures Pool.FirstFree(pool, sys.pool.slots).Some?
  {
    if Pool.FirstFree(pool, sys.pool.slots).None? {
      Pool.FullPool(sys.pool, pool);
      AtMostOneLive(pool, op, served);
    }
  }

  lemma {:induction false} AtMostOneLive(pool: Pool.Rows, op: string, served: Option<string>)
    requires Occupied(pool, Some(op), served) && op !in pool
    ensures |Pool.LiveOps(pool)| <= 1
  {
    if Pool.LiveOps(pool) != {} {
      var o :| o in Pool.LiveOps(pool);
      assert Pool.LiveOps(pool) == {o};
    }
  }

  /** The processing operation is the newest the router has heard of; if it serves, the route says
      so in every field that recovery compares. */
  lemma {:induction false} ServingInProgress(sys: System, s: Stores, op: string)
    requires ValidSystem(sys) && Inv(sys, s) && Processing(s, op) && op in s.pool
    ensures s.router.route.fence.revision <= CandidateOf(sys, s, op).revision
    ensures s.router.route.fence.revision == CandidateOf(sys, s, op).revision ==> s.router.route.fence == CandidateOf(sys, s, op)
    ensures Serves(s, op) <==>
              s.router.route == Router.Route(CandidateOf(sys, s, op), Router.Active, Some(CandidateOf(sys, s, op)))
  {
    var c := CandidateOf(sys, s, op);
    CandidateValid(sys, s, op);
    var fence := s.router.route.fence;
    if s.router.route.status != Router.Unset {
      assert Known(sys, s.inbox, s.pool, fence);
      NewestClaim(s.inbox, op, fence.op);
    }
  }

  lemma {:induction false} NewestClaim(inbox: Inbox.Rows, op: string, o: string)
    requires Inbox.Ordered(inbox) && Inbox.Distinct(inbox) && op in inbox && o in inbox
    requires inbox[op].state == Inbox.Processing && inbox[o].state != Inbox.Queued
    ensures o == op || inbox[o].request.revision < inbox[op].request.revision
  {
  }

  /** Recovery never conflicts: unless the processing operation already serves, both transactions
      of `RejectActivation` commit, and its backend can then be drained. */
  lemma {:induction false} RejectNeverConflicts(sys: System, states: seq<Stores>, steps: seq<Step>, i: nat, op: string)
    requires IsRun(sys, states, steps) && i <= |steps| && Processing(states[i], op) && op in states[i].pool
    requires !Serves(states[i], op)
    ensures var c := CandidateOf(sys, states[i], op);
            var fenced := Router.FenceTx(sys.router, states[i].router, c);
            var failed := Router.RejectTx(fenced.state, c);
            fenced.result.Ok? && failed.result.Ok? && Router.Drainable(failed.state, c)
            && failed.state.route == states[i].router.route.(fence := c, status := Router.Failed)
  {
    RunSound(sys, states, steps, i);
    RejectSucceeds(sys, states[i], op);
  }

  lemma {:induction false} RejectSucceeds(sys: System, s: Stores, op: string)
    requires ValidSystem(sys) && Inv(sys, s) && Processing(s, op) && op in s.pool && !Serves(s, op)
    ensures var c := CandidateOf(sys, s, op);
            var fenced := Router.FenceTx(sys.router, s.router, c);
            var failed := Router.RejectTx(fenced.state, c);
            fenced.result.Ok? && failed.result.Ok? && Router.Drainable(failed.state, c)
            && failed.state.route == s.router.route.(fence := c, status := Router.Failed)
  {
    CandidateValid(sys, s, op);
    ServingInProgress(sys, s, op);
    NotInUse(sys, s, op);
    RecordedCandidate(sys, s, op);
    RejectCommits(sys.router, s.router, CandidateOf(sys, s, op));
  }

  /** Wherever the router has recorded the operation, it recorded this candidate. */
  lemma {:induction false} RecordedCandidate(sys: System, s: Stores, op: string)
    requires Routed(sys, s.inbox, s.pool, s.router) && Router.Coherent(s.router.route)
    requires op in s.inbox && op in s.pool && op != ""
    ensures op in s.router.retired ==> s.router.retired[op] == CandidateOf(sys, s, op)
    ensures s.router.route.fence.op == op ==> s.router.route.fence == CandidateOf(sys, s, op)
  {
    if op in s.router.retired { assert Known(sys, s.inbox, s.pool, s.router.retired[op]); }
  }

  lemma {:induction false} FenceCommits(cfg: Router.Config, db: Router.Db, c: Router.Candidate)
    requires Router.Valid(cfg, c) && !Router.InUse(db, c)
    requires c.op in db.retired ==> db.retired[c.op] == c
    requires db.route.fence.op == c.op ==> db.route.fence == c
    ensures var fenced := Router.FenceTx(cfg, db, c);
            && fenced.result.Ok? && c.op in fenced.state.retired && fenced.state.retired[c.op] == c
            && fenced.state.route.active == db.route.active && fenced.state.route.fence == db.route.fence
            && (fenced.state.route.status == db.route.status || (db.route.status == Router.Pending && fenced.state.route.status == Router.Failed))
  {
  }

  lemma {:induction false} RejectCommits(cfg: Router.Config, db: Router.Db, c: Router.Candidate)
    requires Router.Valid(cfg, c) && !Router.InUse(db, c)
    requires c.op in db.retired ==> db.retired[c.op] == c
    requires db.route.fence.op == c.op ==> db.route.fence == c
    requires db.route.fence.revision < c.revision || db.route.fence == c
    ensures var fenced := Router.FenceTx(cfg, db, c);
            var failed := Router.RejectTx(fenced.state, c);
            fenced.result.Ok? && failed.result.Ok? && Router.Drainable(failed.state, c)
            && failed.state.route == db.route.(fence := c, status := Router.Failed)
  {
    FenceCommits(cfg, db, c);
  }

  /** Neither the operation nor its listener is the one that serves. */
  lemma {:induction false} NotInUse(sys: System, s: Stores, op: string)
    requires ValidSystem(sys) && Inv(sys, s) && op in s.inbox && op in s.pool && !Serves(s, op)
    requires Processing(s, op) || Pool.Live(s.pool[op])
    ensures !Router.InUse(s.router, CandidateOf(sys, s, op))
  {
    if s.router.route.active.Some? {
      assert s.router.route.active.value.backend != CandidateOf(sys, s, op).backend by {
        CandidatePort(sys, s, op);
        ServedPort(sys, s);
        PortsApart(sys, s, op);
      }
    }
  }

  lemma {:induction false} CandidatePort(sys: System, s: Stores, op: string)
    requires ValidSystem(sys) && Inv(sys, s) && op in s.inbox && op in s.pool
    ensures CandidateOf(sys, s, op).op == op && CandidateOf(sys, s, op).backend in sys.router.backends
    ensures sys.router.backends[CandidateOf(sys, s, op).backend] == s.pool[op].assignment.port
  {
    CandidateValid(sys, s, op);
  }

  lemma {:induction false} ServedPort(sys: System, s: Stores)
    requires ValidSystem(sys) && Inv(sys, s) && s.router.route.active.Some?
    ensures var c := s.router.route.active.value;
            && c.op in s.inbox && c.op in s.pool && Pool.Live(s.pool[c.op])
            && c.backend in sys.router.backends && sys.router.backends[c.backend] == s.pool[c.op].assignment.port
  {
    CandidateValid(sys, s, s.router.route.active.value.op);
  }

  lemma {:induction false} PortsApart(sys: System, s: Stores, op: string)
    requires Inv(sys, s) && op in s.pool && s.router.route.active.Some? && !Serves(s, op)
    requires Processing(s, op) || Pool.Live(s.pool[op])
    requires s.router.route.active.value.op in s.pool && Pool.Live(s.pool[s.router.route.active.value.op])
    ensures s.pool[op].assignment.port != s.pool[s.router.route.active.value.op].assignment.port
  {
    if Processing(s, op) { InProgressIs(s.inbox, op); }
    else { ExclusivePorts(s.pool, op, s.router.route.active.value.op); }
  }

  lemma {:induction false} ExclusivePorts(rows: Pool.Rows, o: string, p: string)
    requires Pool.Exclusive(rows) && o in rows && p in rows && o != p && Pool.Live(rows[o]) && Pool.Live(rows[p])
    ensures rows[o].assignment.port != rows[p].assignment.port
  {
  }

  /** An occupied slot that no longer serves can always be fenced and, once its replacement is
      live, drained: `RetireRoutedNode` meets no conflict in the router. */
  lemma {:induction false} RetireNeverConflicts(sys: System, s: Stores, op: string)
    requires ValidSystem(sys) && Inv(sys, s) && op in s.pool && Pool.Live(s.pool[op]) && !Serves(s, op)
    requires s.router.route.status != Router.Pending
    ensures op in s.inbox
    ensures var c := CandidateOf(sys, s, op);
            var fenced := Router.FenceTx(sys.router, s.router, c);
            fenced.result.Ok? && Router.Drainable(fenced.state, c) && fenced.state.route == s.router.route
  {
    CandidateValid(sys, s, op);
    NotInUse(sys, s, op);
    RecordedCandidate(sys, s, op);
    FenceCommits(sys.router, s.router, CandidateOf(sys, s, op));
  }

  /** When nothing is processing, every settled operation but the serving one has given up its slot. */
  lemma {:induction false} IdleMeansRetired(sys: System, states: seq<Stores>, steps: seq<Step>, i: nat, op: string)
    requires IsRun(sys, states, steps) && i <= |steps|
    requires forall o :: !Processing(states[i], o)
    requires op in states[i].inbox && states[i].inbox[op].state == Inbox.Settled
    ensures Serves(states[i], op) || Gone(states[i], op)
  {
    RunSound(sys, states, steps, i);
    var s := states[i];
    assert InProgress(s.inbox).None? by {
      if Inbox.Busy(s.inbox) {
        var o :| o in s.inbox && s.inbox[o].state == Inbox.Processing;
        assert Processing(s, o);
      }
    }
    if s.pool[op].state == Pool.Retired {
      RetiredIsGone(sys, s, op);
    }
  }

  // ---------------------------------------------------------------- host actions

  /** Across every crash and retry, the install action and the start action of an operation run at
      most once each. */
  lemma {:induction false} ActionsAtMostOnce(sys: System, states: seq<Stores>, steps: seq<Step>, i: nat, j: nat, op: string)
    requires IsRun(sys, states, steps) && i < j < |steps|
    ensures !(Installs(states[i], steps[i], op) && Installs(states[j], steps[j], op))
    ensures !(Starts(states[i], steps[i], op) && Starts(states[j], steps[j], op))
  {
    ActionAt(sys, states, steps, i, op);
    ActionAt(sys, states, steps, j, op);
    MarksPersist(sys, states, steps, i + 1, j, op);
  }

  predicate InstallMarked(s: Stores, op: string) {
    op in s.gate && s.gate[op].installed
  }

  predicate StartMarked(s: Stores, op: string) {
    op in s.gate && s.gate[op].started
  }

  lemma {:induction false} MarksPersist(sys: System, states: seq<Stores>, steps: seq<Step>, i: nat, j: nat, op: string)
    requires IsRun(sys, states, steps) && i <= j <= |steps|
    ensures InstallMarked(states[i], op) ==> InstallMarked(states[j], op)
    ensures StartMarked(states[i], op) ==> StartMarked(states[j], op)
  {
    RunForward(sys, states, steps, i, j);
  }

  /** An action finds its intent unmarked and leaves it marked. */
  lemma {:induction false} ActionAt(sys: System, states: seq<Stores>, steps: seq<Step>, i: nat, op: string)
    requires IsRun(sys, states, steps) && i < |steps|
    ensures Installs(states[i], steps[i], op) ==> !InstallMarked(states[i], op) && InstallMarked(states[i + 1], op)
    ensures Starts(states[i], steps[i], op) ==> !StartMarked(states[i], op) && StartMarked(states[i + 1], op)
  {
    assert Took(sys, states, steps, i);
    RunSound(sys, states, steps, i);
    OwnAssignment(sys, states[i], op);
    ActionMarks(sys, states[i], steps[i], op);
  }

  lemma {:induction false} OwnAssignment(sys: System, s: Stores, op: string)
    requires Inv(sys, s)
    ensures op in s.pool ==> s.pool[op].assignment.op == op
  {
  }

  lemma {:induction false} ActionMarks(sys: System, s: Stores, step: Step, op: string)
    requires ValidSystem(sys) && Enabled(sys, s, step) && (op in s.pool ==> s.pool[op].assignment.op == op)
    ensures Installs(s, step, op) ==> !InstallMarked(s, op) && InstallMarked(Apply(sys, s, step), op)
    ensures Starts(s, step, op) ==> !StartMarked(s, op) && StartMarked(Apply(sys, s, step), op)
  {
  }

  /** A start action runs only for a claimed slot whose receipt is stored, after its install action ran. */
  lemma {:induction false} StartAfterInstall(sys: System, states: seq<Stores>, steps: seq<Step>, j: nat, op: string)
    requires IsRun(sys, states, steps) && Receipted(states, steps) && j < |steps| && Starts(states[j], steps[j], op)
    ensures op in states[j].pool && states[j].pool[op].state == Pool.Starting
    ensures states[j].pool[op].installed.Some? && states[j].pool[op].installed.value.assignment == states[j].pool[op].assignment
    ensures InstalledBefore(states, steps, j, op)
  {
    RunSound(sys, states, steps, j);
    RowFacts(sys, states[j], op);
    StartClaimed(sys, states, steps, j, op);
    ReceiptHasInstall(sys, states, steps, j, op);
  }

  lemma {:induction false} StartClaimed(sys: System, states: seq<Stores>, steps: seq<Step>, j: nat, op: string)
    requires IsRun(sys, states, steps) && j < |steps| && Starts(states[j], steps[j], op)
    ensures op in states[j].pool && states[j].pool[op].state == Pool.Starting
  {
    assert Took(sys, states, steps, j);
  }

  lemma {:induction false} ReceiptHasInstall(sys: System, states: seq<Stores>, steps: seq<Step>, j: nat, op: string)
    requires IsRun(sys, states, steps) && Receipted(states, steps) && j <= |steps|
    requires op in states[j].pool && states[j].pool[op].installed.Some?
    ensures InstalledBefore(states, steps, j, op)
    decreases j
  {
    if j > 0 {
      assert Took(sys, states, steps, j - 1);
      if op in states[j - 1].pool && states[j - 1].pool[op].installed.Some? {
        ReceiptHasInstall(sys, states, steps, j - 1, op);
      } else {
        ReceiptComesFromRecord(sys, states[j - 1], steps[j - 1], op);
        assert InstalledBefore(states, steps, j - 1, op);
      }
    }
  }

  lemma {:induction false} ReceiptComesFromRecord(sys: System, s: Stores, step: Step, op: string)
    requires ValidSystem(sys) && Enabled(sys, s, step)
    requires op in Apply(sys, s, step).pool && Apply(sys, s, step).pool[op].installed.Some?
    requires !(op in s.pool && s.pool[op].installed.Some?)
    ensures step.Record? && step.op == op
  {
    if step.Reserve? {
      Pool.ReserveShape(sys.pool, s.pool, Wanted(s.inbox[step.op].request));
    } else if !IsPoolStep(step) {
      SamePool(sys, s, step);
    }
  }

  lemma {:induction false} SamePool(sys: System, s: Stores, step: Step)
    requires ValidSystem(sys) && Enabled(sys, s, step) && !IsPoolStep(step) && !step.Reserve?
    ensures Apply(sys, s, step).pool == s.pool
  {
  }
}
