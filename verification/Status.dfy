/** What an observation may claim (internal/noderuntime/status_linux.go, checked by
    internal/noderuntimeapi/status.go).

    `InspectNodeRuntime` reads the stores one after the other while the runner keeps working, so
    its readings come from different points of one run. */
module Status {
  import opened Common
  import opened Protocol
  import opened Runs
  import Inbox
  import Pool
  import Gate
  import Router

  /** The five store reads, in the order they are made. */
  datatype Readings = Readings(inbox: Inbox.Rows, pool: Pool.Rows, route: Router.Route, gate: Gate.Files, latest: Router.Route)

  datatype Unit = Unit(active: bool, mainPid: int, needReload: bool, job: string, masked: bool, stopped: bool)

  datatype Usage = Usage(processes: bool, cgroup: bool, listener: bool)

  /** What the host answers; only the answers the status asks for are looked at. */
  datatype Host = Host(unit: Result<Unit>, installed: Result<Pool.Manifest>, healthy: bool, usage: Result<Usage>)

  datatype Observation = Observation(facts: Router.ObservationFacts, healthy: bool, stopped: bool)

  predicate SameRelease(a: Pool.Assignment, r: Inbox.Request, project: string, runtime: string) {
    && a.project == project && a.runtime == runtime
    && a.artifact == r.artifact && a.toolchain == r.toolchain && a.arch == r.arch
  }

  /** The route says that exactly this candidate serves. */
  predicate Live(route: Router.Route, c: Router.Candidate) {
    route.status == Router.Active && route.active == Some(c)
  }

  /** The checks an active operation must pass in the pool and the gate. */
  predicate StoreChecks(r: Pool.Reservation, c: Gate.Control) {
    r.state == Pool.Starting && r.installed.Some? && c.started && !c.retired
  }

  predicate UnitRuns(u: Unit) {
    u.active && u.mainPid != 0 && !u.needReload && (u.job == "" || u.job == "0")
  }

  /** The failed branch asks the host for what is left of the operation. */
  predicate Cleaned(route: Router.Route, r: Pool.Reservation, c: Gate.Control, u: Unit) {
    route.status == Router.Failed && r.state == Pool.Retired && c.retired && u.masked && u.stopped
  }

  predicate Empty(u: Usage) {
    !u.processes && !u.cgroup && !u.listener
  }

  ghost predicate Reaches(sys: System, project: string, runtime: string, op: string, seen: Readings)
    requires ValidSystem(sys)
  {
    && project == sys.inbox.project && runtime == sys.inbox.runtime && Digest(op)
    && op in seen.inbox && op in seen.pool
    && SameRelease(seen.pool[op].assignment, seen.inbox[op].request, project, runtime)
    && HasBackend(sys, seen.pool[op].assignment.port)
    && seen.route.fence == Expected(sys, project, runtime, op, seen)
    && seen.pool[op].assignment.op in seen.gate && Gate.Readable(seen.gate, seen.pool[op].assignment)
  }

  /** The candidate the operation should be fenced as. */
  ghost function Expected(sys: System, project: string, runtime: string, op: string, seen: Readings): Router.Candidate
    requires op in seen.inbox && op in seen.pool
  {
    var r := seen.inbox[op].request;
    Router.Candidate(project, runtime, r.deployment, op, r.revision, r.artifact, Backend(sys, seen.pool[op].assignment.port))
  }

  ghost predicate Supported(sys: System, project: string, runtime: string, op: string, seen: Readings, host: Host)
    requires ValidSystem(sys) && Reaches(sys, project, runtime, op, seen)
  {
    var r := seen.pool[op];
    var c := seen.gate[r.assignment.op];
    && host.unit.Ok?
    && (Live(seen.route, seen.route.fence) ==>
          && StoreChecks(r, c) && UnitRuns(host.unit.value)
          && host.installed.Ok? && host.installed.value == r.installed.value.manifest)
    && (Cleaned(seen.route, r, c, host.unit.value) ==> host.usage.Ok?)
    && seen.latest == seen.route
  }

  /** A report is given exactly when every reading supports it; a pending operation is never
      called settled, healthy or stopped, and settlement is claimed only from the inbox. */
  method InspectNodeRuntime(sys: System, project: string, runtime: string, op: string, seen: Readings, host: Host)
    returns (result: Result<Observation>)
    requires ValidSystem(sys)
    ensures result.Ok? <==> Reaches(sys, project, runtime, op, seen) && Supported(sys, project, runtime, op, seen, host)
    ensures result.Ok? ==>
              var o, r := result.value, seen.pool[op];
              && o.facts.routing == seen.route && o.facts.toolchain == r.assignment.toolchain && o.facts.arch == r.assignment.arch
              && (o.facts.settled <==> seen.inbox[op].state == Inbox.Settled && (o.stopped || Live(seen.route, seen.route.fence)))
              && (o.healthy <==> Live(seen.route, seen.route.fence) && host.healthy)
              && (o.stopped <==> Cleaned(seen.route, r, seen.gate[r.assignment.op], host.unit.value) && Empty(host.usage.value))
  {
    if runtime != sys.inbox.runtime || project != sys.inbox.project { return Err(ErrAssignment); }
    if !Digest(op) { return Err(ErrAssignment); }
    if op !in seen.inbox { return Err(ErrNotFound); }
    var work := seen.inbox[op];
    if op !in seen.pool { return Err(ErrNotFound); }
    var reservation := seen.pool[op];
    var a := reservation.assignment;
    var request := work.request;
    if a.project != project || a.runtime != runtime || a.artifact != request.artifact
       || a.toolchain != request.toolchain || a.arch != request.arch {
      return Err(ErrAssignment);
    }
    var backend := Router.BackendForPort(sys.router, a.port);
    if backend.None? { return Err(ErrAssignment); }
    var expected := Router.Candidate(project, runtime, request.deployment, op, request.revision, request.artifact, backend.value);
    var state := seen.route;
    if state.fence != expected { return Err(ErrReconciliation); }
    if a.op !in seen.gate { return Err(ErrNotFound); }
    if !Gate.Readable(seen.gate, a) { return Err(ErrConflict); }
    var control := seen.gate[a.op];
    if host.unit.Err? { return Err(host.unit.error); }
    var unit := host.unit.value;
    var healthy, stopped, settled := false, false, false;
    if state.status == Router.Active && state.active == Some(expected) {
      if reservation.state != Pool.Starting || reservation.installed.None? || !control.started || control.retired
         || !unit.active || unit.mainPid == 0 || unit.needReload || (unit.job != "" && unit.job != "0") {
        return Err(ErrReconciliation);
      }
      if host.installed.Err? { return Err(host.installed.error); }
      if host.installed.value != reservation.installed.value.manifest { return Err(ErrAssignment); }
      healthy := host.healthy;
      settled := work.state == Inbox.Settled;
    } else if state.status == Router.Failed && reservation.state == Pool.Retired && control.retired && unit.masked && unit.stopped {
      if host.usage.Err? { return Err(host.usage.error); }
      var usage := host.usage.value;
      stopped := !usage.processes && !usage.cgroup && !usage.listener;
      settled := stopped && work.state == Inbox.Settled;
    }
    if seen.latest.fence != state.fence || seen.latest.status != state.status || seen.latest.active != state.active {
      return Err(ErrReconciliation);
    }
    return Ok(Observation(Router.ObservationFacts(state, a.toolchain, a.arch, settled), healthy, stopped));
  }

  // ---------------------------------------------------------------- readings of a run

  /** When the five reads were made. */
  datatype Times = Times(inbox: nat, pool: nat, route: nat, gate: nat, latest: nat)

  ghost predicate ReadFrom(sys: System, states: seq<Stores>, steps: seq<Step>, seen: Readings, at: Times) {
    && IsRun(sys, states, steps)
    && at.inbox <= at.pool <= at.route <= at.gate <= at.latest <= |steps|
    && seen == Readings(states[at.inbox].inbox, states[at.pool].pool, states[at.route].router.route,
                        states[at.gate].gate, states[at.latest].router.route)
  }

  /** Every report made from readings of a run is one the management API accepts. */
  lemma {:induction false} ReportsAreValid(sys: System, states: seq<Stores>, steps: seq<Step>, seen: Readings, at: Times,
                                           project: string, runtime: string, op: string, o: Router.ObservationFacts)
    requires ReadFrom(sys, states, steps, seen, at) && Reaches(sys, project, runtime, op, seen)
    requires o.routing == seen.route && o.toolchain == seen.pool[op].assignment.toolchain && o.arch == seen.pool[op].assignment.arch
    requires o.settled ==> Live(seen.route, seen.route.fence) || seen.route.status == Router.Failed
    ensures Router.ValidObservation(o, project, runtime, op)
  {
    RunSound(sys, states, steps, at.inbox);
    assert Inbox.Accepts(sys.inbox, seen.inbox[op].request);
    RunSound(sys, states, steps, at.route);
    Router.SoundRouteIsReportable(sys.router, states[at.route].router, o, op);
  }

  /** Two equal snapshots of a serving route bracket nothing else. */
  lemma {:induction false} ServingThroughout(sys: System, states: seq<Stores>, steps: seq<Step>, i: nat, k: nat, j: nat, c: Router.Candidate)
    requires IsRun(sys, states, steps) && i <= k <= j <= |steps|
    requires Live(states[i].router.route, c) && Live(states[j].router.route, c)
    ensures states[k].router.route.active == Some(c)
  {
    RunForward(sys, states, steps, i, k);
    RunForward(sys, states, steps, k, j);
  }

  /** For the active operation the checks in the stores pass exactly when its slot had been claimed
      for starting by the time the reservation was read. */
  lemma {:induction false} StoreChecksExactly(sys: System, states: seq<Stores>, steps: seq<Step>, seen: Readings, at: Times,
                                              project: string, runtime: string, op: string)
    requires ReadFrom(sys, states, steps, seen, at) && Reaches(sys, project, runtime, op, seen)
    requires Live(seen.route, seen.route.fence) && seen.latest == seen.route
    ensures StoreChecks(seen.pool[op], seen.gate[seen.pool[op].assignment.op]) <==> seen.pool[op].state == Pool.Starting
  {
    RunSound(sys, states, steps, at.pool);
    RowFacts(sys, states[at.pool], op);
    ServingThroughout(sys, states, steps, at.route, at.gate, at.latest, seen.route.fence);
    RunSound(sys, states, steps, at.gate);
    StartedNow(sys, states[at.gate], op);
  }

  lemma {:induction false} StartedNow(sys: System, s: Stores, op: string)
    requires Inv(sys, s) && Serves(s, op)
    ensures Started(s.pool, s.gate, op)
  {
  }

  /** An operation that already served when its reservation was read passes the checks. */
  lemma {:induction false} ServingPassesChecks(sys: System, states: seq<Stores>, steps: seq<Step>, seen: Readings, at: Times,
                                               project: string, runtime: string, op: string)
    requires ReadFrom(sys, states, steps, seen, at) && Reaches(sys, project, runtime, op, seen)
    requires Live(seen.route, seen.route.fence) && seen.latest == seen.route
    requires Serves(states[at.pool], op)
    ensures StoreChecks(seen.pool[op], seen.gate[seen.pool[op].assignment.op])
  {
    RunSound(sys, states, steps, at.pool);
    StartedNow(sys, states[at.pool], op);
    StoreChecksExactly(sys, states, steps, seen, at, project, runtime, op);
  }

  /** A settled report is final: the work stays settled, and the operation either serves over the
      whole read of the route or is gone from every store for the rest of the run. */
  lemma {:induction false} SettledIsFinal(sys: System, states: seq<Stores>, steps: seq<Step>, seen: Readings, at: Times,
                                          project: string, runtime: string, op: string, k: nat)
    requires ReadFrom(sys, states, steps, seen, at) && Reaches(sys, project, runtime, op, seen)
    requires seen.inbox[op].state == Inbox.Settled && seen.latest == seen.route && at.pool <= k <= |steps|
    ensures op in states[k].inbox && states[k].inbox[op].state == Inbox.Settled
    ensures Live(seen.route, seen.route.fence) && at.route <= k <= at.latest ==> Serves(states[k], op)
    ensures seen.pool[op].state == Pool.Retired ==> Gone(states[k], op)
  {
    RunForward(sys, states, steps, at.inbox, k);
    if Live(seen.route, seen.route.fence) && at.route <= k <= at.latest {
      ServingThroughout(sys, states, steps, at.route, k, at.latest, seen.route.fence);
    }
    if seen.pool[op].state == Pool.Retired {
      GoneForever(sys, states, steps, at.pool, k, op);
    }
  }

  // ---------------------------------------------------------------- the first deployment

  /** What a first deployment has done to the stores after `i` steps. */
  ghost function FirstState(sys: System, r: Inbox.Request, m: Pool.Manifest, now: int, i: int): Stores
    requires ValidSystem(sys)
  {
    var a := Pool.Place(Wanted(r), sys.pool.slots[0]);
    var c := Candidate(sys, r, sys.pool.slots[0].port);
    var row := Pool.Fresh(a).(attempted := true);
    var done := row.(installed := Some(Pool.Receipt(a, m, now)));
    Stores(
      if i == 0 then map[] else map[r.op := Inbox.Work(r, if i == 1 then Inbox.Queued else Inbox.Processing)],
      if i <= 2 then map[] else map[r.op := if i == 3 then Pool.Fresh(a) else if i <= 5 then row
                                            else if i == 6 then done else done.(state := Pool.Starting)],
      if i <= 4 then map[] else map[r.op := Gate.Control(a, true, i >= 8, false)],
      if i <= 8 then Router.EMPTY
      else Router.Db(if i == 9 then Router.Route(c, Router.Pending, None) else Router.Route(c, Router.Active, Some(c)), map[]))
  }

  ghost function FirstStates(sys: System, r: Inbox.Request, m: Pool.Manifest, now: int): (states: seq<Stores>)
    requires ValidSystem(sys)
    ensures |states| == 11 && forall i | 0 <= i < 11 :: states[i] == FirstState(sys, r, m, now, i)
  {
    seq(11, i => FirstState(sys, r, m, now, i))
  }

  function FirstSteps(r: Inbox.Request, m: Pool.Manifest, now: int): seq<Step> {
    [Submit(r, true, now), Claim(r.op), Reserve(r.op), Prepare(r.op, m), Install(r.op, true), Record(r.op, m, now),
     ClaimStart(r.op), Start(r.op, true), ActivateBegin(r.op), ActivateCommit(r.op, true)]
  }

  predicate Acceptable(sys: System, r: Inbox.Request, now: int) {
    Inbox.Accepts(sys.inbox, r) && now < r.activateBefore <= now + Inbox.SUBMIT_WINDOW && |r.archive| <= Inbox.MAX_BYTES
  }

  /** On an empty installation every acceptable request can be deployed, in ten steps. */
  lemma {:induction false} FirstDeployment(sys: System, r: Inbox.Request, m: Pool.Manifest, now: int)
    requires ValidSystem(sys) && Acceptable(sys, r, now)
    ensures IsRun(sys, FirstStates(sys, r, m, now), FirstSteps(r, m, now))
    ensures Receipted(FirstStates(sys, r, m, now), FirstSteps(r, m, now))
    ensures Serves(FirstStates(sys, r, m, now)[10], r.op)
  {
    var states, steps := FirstStates(sys, r, m, now), FirstSteps(r, m, now);
    forall i | 0 <= i < |steps| ensures Took(sys, states, steps, i) {
      FirstTook(sys, r, m, now, i);
    }
    FirstReceipted(sys, r, m, now);
  }

  lemma {:induction false} FirstReceipted(sys: System, r: Inbox.Request, m: Pool.Manifest, now: int)
    requires ValidSystem(sys)
    ensures Receipted(FirstStates(sys, r, m, now), FirstSteps(r, m, now))
  {
    assert Installs(FirstStates(sys, r, m, now)[4], FirstSteps(r, m, now)[4], r.op);
  }

  lemma {:induction false} FirstTook(sys: System, r: Inbox.Request, m: Pool.Manifest, now: int, i: nat)
    requires ValidSystem(sys) && Acceptable(sys, r, now) && i < 10
    ensures Took(sys, FirstStates(sys, r, m, now), FirstSteps(r, m, now), i)
  {
    if i < 2 { FirstClaimed(sys, r, m, now, i); }
    else if i == 2 { FirstReserved(sys, r, m, now); }
    else if i == 3 { FirstPrepared(sys, r, m, now); }
    else if i == 4 { FirstInstalled(sys, r, m, now); }
    else if i == 5 { FirstRecorded(sys, r, m, now); }
    else if i < 8 { FirstStarted(sys, r, m, now, i); }
    else if i == 8 { FirstProbed(sys, r, m, now); }
    else { FirstRouted(sys, r, m, now); }
  }

  lemma {:induction false} FirstClaimed(sys: System, r: Inbox.Request, m: Pool.Manifest, now: int, i: nat)
    requires ValidSystem(sys) && Acceptable(sys, r, now) && i < 2
    ensures Took(sys, FirstStates(sys, r, m, now), FirstSteps(r, m, now), i)
  {
    if i == 0 { assert Inbox.Bytes(EMPTY.inbox, EMPTY.inbox.Keys) == 0; }
  }

  lemma {:induction false} FirstReserved(sys: System, r: Inbox.Request, m: Pool.Manifest, now: int)
    requires ValidSystem(sys) && Acceptable(sys, r, now)
    ensures Took(sys, FirstStates(sys, r, m, now), FirstSteps(r, m, now), 2)
  {
    WantedRequestable(sys, r);
    assert Pool.SlotFree(map[], sys.pool.slots[0]);
  }

  lemma {:induction false} FirstPrepared(sys: System, r: Inbox.Request, m: Pool.Manifest, now: int)
    requires ValidSystem(sys)
    ensures Took(sys, FirstStates(sys, r, m, now), FirstSteps(r, m, now), 3)
  {
  }

  lemma {:induction false} FirstInstalled(sys: System, r: Inbox.Request, m: Pool.Manifest, now: int)
    requires ValidSystem(sys)
    ensures Took(sys, FirstStates(sys, r, m, now), FirstSteps(r, m, now), 4)
  {
  }

  lemma {:induction false} FirstRecorded(sys: System, r: Inbox.Request, m: Pool.Manifest, now: int)
    requires ValidSystem(sys)
    ensures Took(sys, FirstStates(sys, r, m, now), FirstSteps(r, m, now), 5)
  {
  }

  lemma {:induction false} FirstStarted(sys: System, r: Inbox.Request, m: Pool.Manifest, now: int, i: nat)
    requires ValidSystem(sys) && 6 <= i < 8
    ensures Took(sys, FirstStates(sys, r, m, now), FirstSteps(r, m, now), i)
  {
  }

  lemma {:induction false} FirstProbed(sys: System, r: Inbox.Request, m: Pool.Manifest, now: int)
    requires ValidSystem(sys) && Acceptable(sys, r, now)
    ensures Took(sys, FirstStates(sys, r, m, now), FirstSteps(r, m, now), 8)
  {
    assert HasBackend(sys, sys.pool.slots[0].port);
  }

  lemma {:induction false} FirstRouted(sys: System, r: Inbox.Request, m: Pool.Manifest, now: int)
    requires ValidSystem(sys)
    ensures Took(sys, FirstStates(sys, r, m, now), FirstSteps(r, m, now), 9)
  {
  }

  /** The checks can fail for the operation that serves: here the reservation is read just after
      it was made and the route just after activation. */
  lemma {:induction false} ChecksCanFail(sys: System, r: Inbox.Request, m: Pool.Manifest, now: int)
    returns (seen: Readings, at: Times)
    requires ValidSystem(sys) && Acceptable(sys, r, now)
    ensures ReadFrom(sys, FirstStates(sys, r, m, now), FirstSteps(r, m, now), seen, at)
    ensures Reaches(sys, sys.inbox.project, sys.inbox.runtime, r.op, seen)
    ensures Live(seen.route, seen.route.fence) && seen.latest == seen.route && seen.route.fence.op == r.op
    ensures !StoreChecks(seen.pool[r.op], seen.gate[seen.pool[r.op].assignment.op])
  {
    var states := FirstStates(sys, r, m, now);
    FirstDeployment(sys, r, m, now);
    at := Times(3, 3, 10, 10, 10);
    seen := Readings(states[3].inbox, states[3].pool, states[10].router.route, states[10].gate, states[10].router.route);
    assert HasBackend(sys, sys.pool.slots[0].port);
  }
}
