/** The container worker in its own form: `SubmitContainerRuntime`, `InspectContainerRuntime` and
    `AdvanceContainerRuntime` (internal/fleetdeploy/container_runtime.go, container_advance.go).

    `Valid` says that the history of every durable write, deployer call and report is a run of
    `Container`. The clock and the deployer move between any two actions; any call may stop
    between two actions, lose a reply, or fail a write that did or did not reach the disk. */
module ContainerWorker {
  import opened Common
  import opened Container

  /** Terminal deployer records stay. */
  ghost predicate Settled(remote: map<string, Remote>, remote': map<string, Remote>) {
    forall id | id in remote && (remote[id] == Applied || remote[id] == Discarded) :: id in remote' && remote'[id] == remote[id]
  }

  /** Only the record of `id` may differ. */
  ghost predicate Only(files: Files, files': Files, id: string) {
    files' - {id} == files - {id} && (id in files ==> id in files')
  }

  /** A valid request that neither the fence nor another request under its ID contradicts. */
  predicate Answerable(w: World, a: Assignment, q: Request) {
    && Container.Valid(a, q) && FenceAdmits(w.fence, q)
    && (q.deployment in w.files ==>
          && w.files[q.deployment].request == q && w.files[q.deployment].domain == a.domain
          && (!Ended(w.files[q.deployment].stage) ==> FencedFor(w.fence, q)))
  }

  /** What comes back from the deployer besides its own record: whether it answers at all, whether the
      receipt is for this request and consistent in itself, and the identities of a withdrawal. */
  datatype Reply = Reply(answered: bool, genuine: bool, deployment: string, app: string)

  /** A withdrawal the deployer reports in answer to a submission, with its identities. */
  datatype Withdrawal = Withdrawal(deployment: string, app: string)

  predicate Identified(w: Withdrawal) {
    w.deployment != "" && w.app != ""
  }

  /** What the deployer's client can do. */
  datatype Client = Client(tracks: bool, candidates: bool)

  /** The verdict on a tracked request, by the deployer's own record. A withdrawal that could not be
      saved is not told. */
  ghost predicate TrackedVerdict(record: Remote, reply: Reply, replaced: bool, releaseHealthy: bool, result: Result<Verdict>) {
    if !reply.answered || record == Absent then result == Ok(Unsettled)
    else if !reply.genuine then result == Err(ErrInvalid)
    else match record
      case Applied => result == Ok(if releaseHealthy then Succeeded else Unsettled)
      case Discarded =>
        if reply.deployment == "" || reply.app == "" then result == Err(ErrInvalid)
        else result == Err(ErrInterrupted) || result == Ok(if replaced then Failed else Unsettled)
      case _ => result == Ok(Unsettled)
  }

  /** The verdict that needs no answer of the deployer's: `replaced` when no previous release is unwell. */
  function Verdicts(w: World, q: Request, replaced: bool, releaseHealthy: bool): Option<Verdict> {
    var over := q.activateBefore <= w.now;
    if q.deployment !in w.files then Some(if over && replaced then Failed else Unsettled)
    else
      var op := w.files[q.deployment];
      match op.stage
      case Withdrawn => Some(if replaced then Failed else Unsettled)
      case NotSubmitted => Some(if replaced then Failed else Unsettled)
      case Preparing => Some(if over && replaced then Failed else Unsettled)
      case Dispatched => if op.requestId != "" then None else Some(if releaseHealthy then Succeeded else Unsettled)
      case Recovering => if op.requestId != "" then None else Some(if releaseHealthy then Succeeded else Unsettled)
  }

  /** What an inspection says, by the record, the clock, the fence, the health of both releases and
      the deployer's record. */
  ghost predicate Says(w: World, a: Assignment, q: Request, previousHealthy: bool, releaseHealthy: bool, reply: Reply, result: Result<Verdict>) {
    var replaced := q.previous.None? || previousHealthy;
    if !Answerable(w, a, q) then result.Err?
    else if Verdicts(w, q, replaced, releaseHealthy).Some? then result == Ok(Verdicts(w, q, replaced, releaseHealthy).value)
    else TrackedVerdict(RemoteOf(w, q.deployment), reply, replaced, releaseHealthy, result)
  }

  lemma {:induction false} Extend(states: seq<World>, steps: seq<Step>, step: Step, w: World)
    requires IsRun(states, steps) && Enabled(states[|steps|], step) && w == Apply(states[|steps|], step)
    ensures IsRun(states + [w], steps + [step])
  {
    var states', steps' := states + [w], steps + [step];
    forall i | 0 <= i < |steps'| ensures Took(states', steps', i) {
      if i < |steps| { assert Took(states, steps, i); }
    }
  }

  class Worker {
    const env: Environment
    var files: Files
    var fence: Option<Fence>
    var now: int
    var remote: map<string, Remote>
    var log: seq<Event>
    ghost var call: Option<Call>
    ghost var states: seq<World>
    ghost var steps: seq<Step>

    ghost function View(): World
      reads this
    {
      World(files, fence, now, remote, call, log)
    }

    ghost predicate Valid()
      reads this
    {
      IsRun(states, steps) && states[|steps|] == View()
    }

    constructor (env: Environment)
      ensures this.env == env && Valid() && View() == START && steps == []
    {
      this.env := env;
      files, fence, now, remote, log, call := map[], None, 0, map[], [], None;
      states, steps := [START], [];
    }

    lemma Sound()
      requires Valid()
      ensures Inv(View())
    {
      RunSound(states, steps, |steps|);
    }

    ghost method Record(step: Step, before: World)
      requires IsRun(states, steps) && states[|steps|] == before
      requires Enabled(before, step) && View() == Apply(before, step)
      modifies this`states, this`steps
      ensures Valid() && steps == old(steps) + [step]
    {
      Extend(states, steps, step, View());
      states, steps := states + [View()], steps + [step];
    }

    // -------------------------------------------------------------- the world outside

    function Answer(id: string): Remote
      reads this
    {
      if id in remote then remote[id] else Absent
    }

    method Pass()
      requires Valid()
      modifies this`now, this`states, this`steps
      ensures Valid() && old(steps) <= steps && now >= old(now) && (env.calm ==> now == old(now))
    {
      ghost var before := View();
      var later: int := *;
      if later > now && !env.calm { now := later; }
      Record(Tick(now), before);
    }

    /** The deployer works on a record of its own. */
    method Move(id: string)
      requires Valid()
      modifies this`remote, this`states, this`steps
      ensures Valid() && old(steps) <= steps && Settled(old(remote), remote)
    {
      ghost var before := View();
      var applies: bool := *;
      var discards: bool := *;
      if Answer(id) == Applied || Answer(id) == Discarded { return; }
      var asked := id in files && Asked(files[id].request) in log;
      var to := if applies && asked then Applied else if discards then Discarded else Pending;
      remote := remote[id := to];
      Record(DeployerMoves(id, to), before);
    }

    /** Time passes and the deployer works, as much as either likes; calls are quick when all is calm. */
    method Outside()
      requires Valid()
      modifies this`now, this`remote, this`states, this`steps
      ensures Valid() && old(steps) <= steps && now >= old(now) && Settled(old(remote), remote)
      ensures env.calm ==> now == old(now)
    {
      Pass();
      var n: int := *;
      var i := 0;
      while i < n
        invariant Valid() && old(steps) <= steps && now >= old(now) && Settled(old(remote), remote)
        invariant env.calm ==> now == old(now)
      {
        var id: string := *;
        Move(id);
        i := i + 1;
      }
    }

    /** `save`: the write may fail before or after it took effect. */
    method Save(op: Operation, ghost step: Step)
      returns (ok: bool)
      requires Valid() && Enabled(View(), step)
      requires Apply(View(), step) == View().(files := files[op.request.deployment := op], call := Apply(View(), step).call)
      modifies this`files, this`call, this`states, this`steps
      ensures Valid() && old(steps) <= steps
      ensures files == old(files) || files == old(files)[op.request.deployment := op]
      ensures ok ==> files == old(files)[op.request.deployment := op] && call == Apply(old(View()), step).call
      ensures call == old(call) || call == Apply(old(View()), step).call
      ensures env.calm ==> ok
    {
      var failed := env.Fault();
      if failed { return false; }
      ghost var before := View();
      files, call := files[op.request.deployment := op], Apply(before, step).call;
      Record(step, before);
      failed := env.Fault();
      ok := !failed;
    }

    /** Returning and crashing end a submission alike. */
    ghost method Leave()
      requires Valid()
      modifies this`call, this`states, this`steps
      ensures Valid() && old(steps) <= steps && call.None?
    {
      ghost var before := View();
      call := None;
      Record(Return, before);
    }

    // -------------------------------------------------------------- submission

    /** A request on record is never sent again; a new one is sent at most once, while its deadline
        and the fence allow it. */
    method SubmitContainerRuntime(a: Assignment, q: Request, candidates: bool, client: Client, told: Option<Withdrawal>) returns (result: Result<()>)
      requires Valid() && call.None?
      modifies this
      ensures Valid() && call.None? && old(steps) <= steps
      ensures log == old(log) || log == old(log) + [Asked(q)]
      ensures Only(old(files), files, q.deployment) && (fence == old(fence) || FencedFor(fence, q))
      ensures q.deployment in old(files) ==>
                && files == old(files) && fence == old(fence) && log == old(log)
                && (result.Ok? <==> Container.Valid(a, q) && files[q.deployment].request == q && files[q.deployment].domain == a.domain)
      ensures result.Ok? && q.deployment !in old(files) ==> log == old(log) + [Asked(q)]
      ensures files != old(files) || log != old(log) ==>
                Container.Valid(a, q) && old(now) < q.activateBefore <= old(now) + SUBMIT_WINDOW && FenceAdmits(old(fence), q)
      ensures env.calm && Container.Valid(a, q) && q.deployment !in old(files)
              && old(now) < q.activateBefore <= old(now) + 630 && FenceAdmits(old(fence), q) ==>
                && q.deployment in files && FencedFor(fence, q)
                && if candidates && !(client.tracks && client.candidates)
                   then log == old(log) && result.Err? && files[q.deployment].stage == NotSubmitted
                   else log == old(log) + [Asked(q)] && SentAs(files[q.deployment], candidates, client) && Answered(files[q.deployment], client, told, result)
    {
      if !Container.Valid(a, q) { return Err(ErrInvalid); }
      Sound();
      if q.deployment in files {
        var op := files[q.deployment];
        return if Readable(op) && op.request == q && op.domain == a.domain then Ok(()) else Err(ErrConflict);
      }
      if q.activateBefore <= now || q.activateBefore > now + SUBMIT_WINDOW { return Err(ErrStale); }
      if !FenceAdmits(fence, q) { return Err(ErrStale); }
      result := Send(a, q, candidates, client, told);
      Leave();
    }

    /** The record of a request that was sent, and perhaps withdrawn at once. */
    predicate SentAs(op: Operation, candidates: bool, client: Client) {
      && (op.stage == Dispatched || op.stage == Withdrawn) && op.candidate == candidates
      && (op.requestId != "" <==> client.tracks)
    }

    /** What an untracked submission makes of the reply: an identified withdrawal is put on record. */
    predicate Answered(op: Operation, client: Client, told: Option<Withdrawal>, result: Result<()>) {
      !client.tracks ==>
        && (result.Ok? <==> told.Some? ==> Identified(told.value))
        && (op.stage == Withdrawn <==> told.Some? && Identified(told.value))
        && (op.stage == Withdrawn ==> told == Some(Withdrawal(op.withdrawalDeployment, op.withdrawalApp)))
    }

    /** This call owns the record, has not sent it, and nothing forbids sending it yet. */
    ghost predicate Owns(q: Request, stage: Stage)
      reads this
    {
      && call == Some(Call(q.deployment, false))
      && q.deployment in files && files[q.deployment].request == q && files[q.deployment].stage == stage
    }

    method Send(a: Assignment, q: Request, candidates: bool, client: Client, told: Option<Withdrawal>) returns (result: Result<()>)
      requires Valid() && call.None? && Container.Valid(a, q) && q.deployment !in files
      requires now < q.activateBefore <= now + SUBMIT_WINDOW && FenceAdmits(fence, q)
      modifies this
      ensures Valid() && old(steps) <= steps
      ensures log == old(log) || log == old(log) + [Asked(q)]
      ensures Only(old(files), files, q.deployment) && (fence == old(fence) || FencedFor(fence, q))
      ensures result.Ok? ==> log == old(log) + [Asked(q)]
      ensures env.calm ==>
                && q.deployment in files && FencedFor(fence, q)
                && if candidates && !(client.tracks && client.candidates)
                   then log == old(log) && result.Err? && files[q.deployment].stage == NotSubmitted
                   else log == old(log) + [Asked(q)] && SentAs(files[q.deployment], candidates, client) && Answered(files[q.deployment], client, told, result)
    {
      var saved := Save(Begun(q, a.domain), Prepare(a, q));
      if !saved { return Err(ErrInterrupted); }
      Outside();
      result := WriteFence(q);
      if result.Err? { return; }
      Outside();
      result := Arm(q, candidates, client);
      if result.Err? { return; }
      Outside();
      result := Fire(q, told);
    }

    method WriteFence(q: Request) returns (result: Result<()>)
      requires Valid() && Owns(q, Preparing) && FenceAdmits(fence, q)
      modifies this`fence, this`states, this`steps
      ensures Valid() && old(steps) <= steps
      ensures (fence == old(fence) || FencedFor(fence, q)) && (result.Ok? ==> FencedFor(fence, q))
      ensures env.calm ==> result.Ok?
    {
      var failed := env.Fault();
      if failed { return Err(ErrInterrupted); }
      ghost var before := View();
      fence := Some(Fence(q.revision, q.deployment));
      Record(RaiseFence(q.deployment), before);
      failed := env.Fault();
      return if failed then Err(ErrInterrupted) else Ok(());
    }

    /** Everything that precedes the call: rendering, credentials, environment, preflight, intent. */
    method Arm(q: Request, candidates: bool, client: Client) returns (result: Result<()>)
      requires Valid() && Owns(q, Preparing) && FencedFor(fence, q)
      modifies this`files, this`call, this`states, this`steps
      ensures Valid() && old(steps) <= steps && Only(old(files), files, q.deployment) && fence == old(fence)
      ensures result.Ok? ==> Owns(q, Dispatched) && SentAs(files[q.deployment], candidates, client)
      ensures env.calm && now < q.activateBefore ==>
                if candidates && !(client.tracks && client.candidates) then result.Err? && files[q.deployment].stage == NotSubmitted else result.Ok?
    {
      Sound();
      var unprepared := env.Fault();
      if unprepared || q.activateBefore <= now {
        result := RejectBeforeSubmission(q, None);
        return;
      }
      var tracking: Tracking := *;
      var t := if client.tracks then Some(tracking) else None;
      if candidates && !(client.tracks && client.candidates) {
        result := RejectBeforeSubmission(q, t);
        return;
      }
      var op := Tracked(files[q.deployment], t).(stage := Dispatched, candidate := candidates);
      var saved := Save(op, Dispatch(q.deployment, t, candidates));
      return if saved then Ok(()) else Err(ErrInterrupted);
    }

    /** `rejectBeforeSubmission`. */
    method RejectBeforeSubmission(q: Request, t: Option<Tracking>) returns (result: Result<()>)
      requires Valid() && (Owns(q, Preparing) || (Owns(q, Dispatched) && t.None?))
      modifies this`files, this`call, this`states, this`steps
      ensures Valid() && old(steps) <= steps && Only(old(files), files, q.deployment) && result.Err?
      ensures env.calm ==> files[q.deployment].stage == NotSubmitted
    {
      var op := Tracked(files[q.deployment], t).(stage := NotSubmitted);
      var _ := Save(op, Refuse(q.deployment, t));
      return Err(ErrArtifact);
    }

    /** The deployer is asked, and may answer with a confirmed withdrawal. */
    method Fire(q: Request, told: Option<Withdrawal>) returns (result: Result<()>)
      requires Valid() && Owns(q, Dispatched)
      modifies this
      ensures Valid() && old(steps) <= steps
      ensures log == old(log) || log == old(log) + [Asked(q)]
      ensures Only(old(files), files, q.deployment) && fence == old(fence)
      ensures result.Ok? ==> log == old(log) + [Asked(q)]
      ensures env.calm && old(now) < q.activateBefore ==>
                && log == old(log) + [Asked(q)] && (files[q.deployment].stage == Dispatched || files[q.deployment].stage == Withdrawn)
                && files[q.deployment].candidate == old(files)[q.deployment].candidate
                && files[q.deployment].requestId == old(files)[q.deployment].requestId
                && Answered(files[q.deployment], Client(files[q.deployment].requestId != "", true), told, result)
    {
      var cancelled := env.Fault();
      if cancelled || q.activateBefore <= now {
        result := RejectBeforeSubmission(q, None);
        return;
      }
      CallDeployer(q);
      Outside();
      result := HearReply(q, told);
    }

    method CallDeployer(q: Request)
      requires Valid() && Owns(q, Dispatched) && now < q.activateBefore
      modifies this`log, this`call, this`states, this`steps
      ensures Valid() && old(steps) <= steps && log == old(log) + [Asked(q)] && call == Some(Call(q.deployment, true))
    {
      ghost var before := View();
      log, call := log + [Asked(q)], Some(Call(q.deployment, true));
      Record(Ask(q.deployment), before);
    }

    /** A confirmed withdrawal is only believed with identities; a tracked one is the deployer's own record. */
    method HearReply(q: Request, told: Option<Withdrawal>) returns (result: Result<()>)
      requires Valid() && call == Some(Call(q.deployment, true)) && q.deployment in files
      requires files[q.deployment].request == q && files[q.deployment].stage == Dispatched
      modifies this`files, this`call, this`states, this`steps
      ensures Valid() && old(steps) <= steps && Only(old(files), files, q.deployment)
      ensures files[q.deployment].stage == Dispatched || files[q.deployment].stage == Withdrawn
      ensures files[q.deployment].candidate == old(files)[q.deployment].candidate
      ensures files[q.deployment].requestId == old(files)[q.deployment].requestId
      ensures env.calm ==> Answered(files[q.deployment], Client(files[q.deployment].requestId != "", true), told, result)
    {
      Sound();
      var op := files[q.deployment];
      var lost := env.Fault();
      if lost { return Err(ErrInterrupted); }
      if told.None? || (op.requestId != "" && Answer(q.deployment) != Discarded) { return Ok(()); }
      var Withdrawal(deployment, app) := told.value;
      if deployment == "" || app == "" { return Err(ErrInvalid); }
      op := op.(stage := Withdrawn, withdrawalDeployment := deployment, withdrawalApp := app);
      var saved := Save(op, HearWithdrawal(q.deployment, deployment, app));
      return if saved then Ok(()) else Err(ErrInterrupted);
    }

    // -------------------------------------------------------------- observation

    method Tell(q: Request, v: Verdict) returns (result: Result<Verdict>)
      requires Valid() && call.None? && FenceAdmits(fence, q) && Reportable(View(), q, v)
      modifies this`log, this`states, this`steps
      ensures Valid() && old(steps) <= steps && result == Ok(v) && log == old(log) + [Reported(q, v)]
    {
      ghost var before := View();
      log := log + [Reported(q, v)];
      Record(Report(q, v), before);
      return Ok(v);
    }

    /** Only a healthy previous release lets a failure be told, only a healthy release a success. */
    method InspectContainerRuntime(a: Assignment, q: Request, previousHealthy: bool, releaseHealthy: bool, reply: Reply)
      returns (result: Result<Verdict>)
      requires Valid() && call.None?
      modifies this
      ensures Valid() && call.None? && old(steps) <= steps && fence == old(fence)
      ensures Only(old(files), files, q.deployment) && (q.deployment !in old(files) ==> files == old(files))
      ensures log == if result.Ok? then old(log) + [Reported(q, result.value)] else old(log)
      ensures result.Ok? && result.value == Failed ==> q.previous.None? || previousHealthy
      ensures result.Ok? && result.value == Succeeded ==> releaseHealthy && FencedFor(fence, q)
      ensures Says(old(View()), a, q, previousHealthy, releaseHealthy, reply, result)
      ensures env.calm ==> result != Err(ErrInterrupted)
      ensures !Answerable(old(View()), a, q) ==> result.Err? && View() == old(View())
    {
      if !Container.Valid(a, q) { return Err(ErrInvalid); }
      if !FenceAdmits(fence, q) { return Err(ErrConflict); }
      var replaced := q.previous.None? || previousHealthy;
      if q.deployment !in files {
        result := Tell(q, if q.activateBefore <= now && replaced then Failed else Unsettled);
        return;
      }
      result := InspectRecorded(a, q, replaced, releaseHealthy, reply);
    }

    /** The half of `InspectContainerRuntime` that finds a record. */
    method InspectRecorded(a: Assignment, q: Request, replaced: bool, releaseHealthy: bool, reply: Reply) returns (result: Result<Verdict>)
      requires Valid() && call.None? && Container.Valid(a, q) && FenceAdmits(fence, q) && q.deployment in files
      modifies this
      ensures Valid() && call.None? && old(steps) <= steps && fence == old(fence) && Only(old(files), files, q.deployment)
      ensures log == if result.Ok? then old(log) + [Reported(q, result.value)] else old(log)
      ensures Answerable(old(View()), a, q) && Verdicts(old(View()), q, replaced, releaseHealthy).Some? ==>
                result == Ok(Verdicts(old(View()), q, replaced, releaseHealthy).value)
      ensures Answerable(old(View()), a, q) && Verdicts(old(View()), q, replaced, releaseHealthy).None? ==>
                TrackedVerdict(old(Answer(q.deployment)), reply, replaced, releaseHealthy, result)
      ensures env.calm ==> result != Err(ErrInterrupted)
      ensures !Answerable(old(View()), a, q) ==> result.Err? && View() == old(View())
    {
      Sound();
      var op := files[q.deployment];
      if op.request != q || op.domain != a.domain { return Err(ErrConflict); }
      if op.stage == Withdrawn {
        result := Tell(q, if replaced then Failed else Unsettled);
      } else if op.stage == Preparing || op.stage == NotSubmitted {
        var over := op.stage == NotSubmitted || q.activateBefore <= now;
        result := Tell(q, if over && replaced then Failed else Unsettled);
      } else if !FencedFor(fence, q) {
        return Err(ErrConflict);
      } else if op.requestId != "" {
        result := InspectTracked(q, replaced, releaseHealthy, reply);
      } else {
        result := Tell(q, if releaseHealthy then Succeeded else Unsettled);
      }
    }

    /** `inspectTracked`: the deployer's own record decides; a withdrawal is saved before it is told.
        What the deployer does before it is asked, it does before the call. */
    method InspectTracked(q: Request, replaced: bool, releaseHealthy: bool, reply: Reply) returns (result: Result<Verdict>)
      requires Valid() && call.None? && Holds(View(), q) && FencedFor(fence, q) && Tracks(View(), q.deployment)
      modifies this
      ensures Valid() && call.None? && old(steps) <= steps && fence == old(fence) && Only(old(files), files, q.deployment)
      ensures log == if result.Ok? then old(log) + [Reported(q, result.value)] else old(log)
      ensures !reply.answered || old(Answer(q.deployment)) == Absent ==> result == Ok(Unsettled)
      ensures reply.answered && old(Answer(q.deployment)) != Absent && !reply.genuine ==> result == Err(ErrInvalid) && files == old(files)
      ensures reply.answered && reply.genuine && old(Answer(q.deployment)) == Pending ==> result == Ok(Unsettled)
      ensures reply.answered && reply.genuine && old(Answer(q.deployment)) == Applied ==>
                result == Ok(if releaseHealthy then Succeeded else Unsettled)
      ensures reply.answered && reply.genuine && old(Answer(q.deployment)) == Discarded ==>
                if reply.deployment == "" || reply.app == "" then result == Err(ErrInvalid) && files == old(files)
                else SettledAs(q, replaced, reply, result)
    {
      var record := Answer(q.deployment);
      if !reply.answered || record == Absent {
        result := Tell(q, Unsettled);
      } else if !reply.genuine {
        result := Err(ErrInvalid);
      } else if record == Pending {
        result := Tell(q, Unsettled);
      } else if record == Discarded {
        result := SettleTracked(q, replaced, reply);
      } else {
        Outside();
        result := Tell(q, if releaseHealthy then Succeeded else Unsettled);
      }
    }

    /** A withdrawal is told once it is on record under its identities; only a failed write prevents that. */
    predicate SettledAs(q: Request, replaced: bool, reply: Reply, result: Result<Verdict>)
      reads this, env
    {
      if result.Err? then result.error == ErrInterrupted && !env.calm
      else
        && result.value == (if replaced then Failed else Unsettled)
        && q.deployment in files && files[q.deployment].stage == Withdrawn
        && files[q.deployment].withdrawalDeployment == reply.deployment && files[q.deployment].withdrawalApp == reply.app
    }

    method SettleTracked(q: Request, replaced: bool, reply: Reply) returns (result: Result<Verdict>)
      requires Valid() && call.None? && Holds(View(), q) && FencedFor(fence, q) && Tracks(View(), q.deployment)
      requires Answer(q.deployment) == Discarded
      modifies this
      ensures Valid() && call.None? && old(steps) <= steps && fence == old(fence) && Only(old(files), files, q.deployment)
      ensures log == if result.Ok? then old(log) + [Reported(q, result.value)] else old(log)
      ensures if reply.deployment == "" || reply.app == "" then result == Err(ErrInvalid) && files == old(files)
              else SettledAs(q, replaced, reply, result)
    {
      if reply.deployment == "" || reply.app == "" { return Err(ErrInvalid); }
      var op := files[q.deployment].(stage := Withdrawn, withdrawalDeployment := reply.deployment, withdrawalApp := reply.app);
      var saved := Save(op, Settle(q.deployment, reply.deployment, reply.app));
      if !saved { return Err(ErrInterrupted); }
      Outside();
      result := Tell(q, if replaced then Failed else Unsettled);
    }

    // -------------------------------------------------------------- advance and recovery

    /** A candidate operation of this request that may be advanced or recovered. */
    predicate Eligible(a: Assignment, q: Request)
      reads this
    {
      && Container.Valid(a, q) && q.deployment in files && files[q.deployment].request == q && files[q.deployment].domain == a.domain
      && files[q.deployment].candidate && (files[q.deployment].stage == Dispatched || files[q.deployment].stage == Recovering)
      && FencedFor(fence, q)
    }

    /** Never deploys. Once recovery intent is on record, nothing but an applied deployment is advanced.
        What the clock and the deployer do before the lookup, they do before the call. */
    method AdvanceContainerRuntime(a: Assignment, q: Request, enabled: bool, allow: bool, reply: Reply) returns (result: Result<()>)
      requires Valid() && call.None?
      modifies this
      ensures Valid() && call.None? && old(steps) <= steps && fence == old(fence)
      ensures Only(old(files), files, q.deployment) && (q.deployment !in old(files) ==> files == old(files))
      ensures log == old(log) || log == old(log) + [Advanced(q.deployment, true)]
           || (log == old(log) + [Advanced(q.deployment, false)] && allow && old(now) < q.activateBefore
               && q.deployment in old(files) && old(files)[q.deployment].stage == Dispatched && files == old(files))
      ensures files != old(files) ==> q.deployment in files && files[q.deployment].stage == Recovering
      ensures !enabled || !old(Eligible(a, q)) ==> View() == old(View())
      ensures !enabled || (old(Answerable(View(), a, q)) && !old(Eligible(a, q))) ==> result.Ok?
      ensures enabled && old(Eligible(a, q)) && reply.answered && old(Answer(q.deployment)) != Absent ==>
                AdvancedAs(old(View()), q, old(Answer(q.deployment)), allow, reply, result)
      ensures enabled && old(Eligible(a, q)) && !(reply.answered && old(Answer(q.deployment)) != Absent) ==>
                if old(files)[q.deployment].stage == Dispatched && allow && old(now) < q.activateBefore
                then result == Err(ErrInterrupted) && View() == old(View())
                else env.calm ==> files[q.deployment].stage == Recovering
    {
      if !enabled { return Ok(()); }
      if !Container.Valid(a, q) { return Err(ErrInvalid); }
      if q.deployment !in files { return Ok(()); }
      Sound();
      var op := files[q.deployment];
      if op.request != q || op.domain != a.domain { return Err(ErrConflict); }
      if !op.candidate || (op.stage != Dispatched && op.stage != Recovering) { return Ok(()); }
      if !FencedFor(fence, q) { return Err(ErrConflict); }
      if reply.answered && Answer(q.deployment) != Absent {
        result := Continue(q, Answer(q.deployment), allow, reply.genuine);
      } else {
        result := WithdrawMissing(q, allow);
      }
    }

    /** What follows from the deployer's record: an applied deployment is always advanced, a pending one
        while it may still be activated and recovered from then on, a withdrawn one left alone. */
    ghost predicate AdvancedAs(w: World, q: Request, record: Remote, allow: bool, reply: Reply, result: Result<()>)
      requires q.deployment in w.files
      reads this, env
    {
      var inTime := w.files[q.deployment].stage == Dispatched && allow && w.now < q.activateBefore;
      if !reply.genuine then result == Err(ErrInvalid) && files == w.files && log == w.log
      else match record
        case Applied => log == w.log + [Advanced(q.deployment, true)] && files == w.files && (env.calm ==> result.Ok?)
        case Pending =>
          if inTime then log == w.log + [Advanced(q.deployment, false)] && files == w.files && (env.calm ==> result.Ok?)
          else log == w.log && (env.calm ==> result.Ok? && q.deployment in files && files[q.deployment].stage == Recovering)
        case _ => result.Ok? && files == w.files && log == w.log
    }

    /** A candidate operation under its own fence. */
    ghost predicate Candidate(q: Request)
      reads this
    {
      call.None? && Holds(View(), q) && FencedFor(fence, q) && Tracks(View(), q.deployment) && files[q.deployment].candidate
    }

    /** Recovery intent, saved before it is acted on. */
    method IntendRecovery(q: Request) returns (saved: bool)
      requires Valid() && Candidate(q)
      modifies this`files, this`call, this`states, this`steps
      ensures Valid() && old(steps) <= steps && Candidate(q) && Only(old(files), files, q.deployment)
      ensures files == old(files) || files[q.deployment].stage == Recovering
      ensures saved ==> files[q.deployment].stage == Recovering
      ensures env.calm ==> saved
    {
      var op := files[q.deployment];
      if op.stage == Recovering { return true; }
      saved := Save(op.(stage := Recovering), Recover(q.deployment));
    }

    /** A failed lookup proves nothing: past the deadline or authorization, withdraw the original. */
    method WithdrawMissing(q: Request, allow: bool) returns (result: Result<()>)
      requires Valid() && Candidate(q)
      modifies this
      ensures Valid() && call.None? && old(steps) <= steps && fence == old(fence) && Only(old(files), files, q.deployment)
      ensures log == old(log) || log == old(log) + [Advanced(q.deployment, true)]
      ensures files == old(files) || files[q.deployment].stage == Recovering
      ensures if old(files)[q.deployment].stage != Recovering && allow && old(now) < q.activateBefore
              then result == Err(ErrInterrupted) && View() == old(View())
              else env.calm ==> files[q.deployment].stage == Recovering
    {
      if files[q.deployment].stage != Recovering && allow && q.activateBefore > now { return Err(ErrInterrupted); }
      var saved := IntendRecovery(q);
      if !saved { return Err(ErrInterrupted); }
      var unrendered := env.Fault();
      if unrendered { return Err(ErrInvalid); }
      Outside();
      var lost := env.Fault();
      if lost || Answer(q.deployment) == Absent { return Err(ErrInterrupted); }
      var genuine: bool := *;
      result := Continue(q, Answer(q.deployment), allow, genuine);
    }

    /** What follows a genuine record of the deployer. */
    method Continue(q: Request, record: Remote, allow: bool, genuine: bool) returns (result: Result<()>)
      requires Valid() && Candidate(q) && record == Answer(q.deployment) != Absent
      modifies this
      ensures Valid() && call.None? && old(steps) <= steps && fence == old(fence) && Only(old(files), files, q.deployment)
      ensures log == old(log) || log == old(log) + [Advanced(q.deployment, true)]
           || (log == old(log) + [Advanced(q.deployment, false)] && allow && old(now) < q.activateBefore
               && old(files)[q.deployment].stage == Dispatched && files == old(files))
      ensures files == old(files) || files[q.deployment].stage == Recovering
      ensures AdvancedAs(old(View()), q, record, allow, Reply(true, genuine, "", ""), result)
      ensures old(files)[q.deployment].stage == Recovering ==> files[q.deployment].stage == Recovering
    {
      if !genuine { return Err(ErrInvalid); }
      if record == Applied {
        result := AskAdvance(q, record);
      } else if record != Pending {
        result := Ok(());
      } else if files[q.deployment].stage == Recovering || !allow || q.activateBefore <= now {
        var saved := IntendRecovery(q);
        if !saved { return Err(ErrInterrupted); }
        Outside();
        var lost := env.Fault();
        result := if lost then Err(ErrInterrupted) else Ok(());
      } else {
        result := AskAdvance(q, record);
      }
    }

    method AskAdvance(q: Request, seen: Remote) returns (result: Result<()>)
      requires Valid() && Candidate(q)
      requires if seen == Applied then Answer(q.deployment) == Applied
               else seen == Pending && files[q.deployment].stage == Dispatched && now < q.activateBefore
      modifies this`log, this`states, this`steps
      ensures Valid() && old(steps) <= steps && log == old(log) + [Advanced(q.deployment, seen == Applied)]
      ensures env.calm ==> result.Ok?
    {
      ghost var before := View();
      log := log + [Advanced(q.deployment, seen == Applied)];
      Record(Advance(q.deployment, seen), before);
      var lost := env.Fault();
      return if lost then Err(ErrInterrupted) else Ok(());
    }
  }
}
