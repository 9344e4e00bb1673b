/** The container operation protocol (internal/fleetdeploy/container_runtime.go and
    container_advance.go).

    A step is one durable write of the worker, one call to the deployer, one report to the
    portal, or one move of the world outside: the clock, the deployer's own records, a crash.
    The worker lock makes its calls sequential; `call` is what a running submission knows and a
    crash forgets. */
module Container {
  import opened Common

  datatype Release = Release(id: string, project: string, revision: int, image: string)

  datatype Request = Request(
    deployment: string, project: string, deployedRelease: string, runtime: string, revision: int, running: bool,
    release: Release, previous: Option<Release>, activateBefore: int)

  /** The operator's assignment; it may be edited between calls. `releases` are those the worker can render. */
  datatype Assignment = Assignment(id: string, isContainer: bool, arch: string, runtime: string, domain: string, releases: set<Release>)

  predicate ValidDomain(s: string) {
    s != "" && forall i | 0 <= i < |s| :: s[i] != '/' && s[i] != '?' && s[i] != '#' && s[i] != '@'
  }

  predicate ValidRelease(a: Assignment, r: Release) {
    Digest(r.id) && r.revision >= 1 && r.project == a.id && r in a.releases
  }

  /** `validContainerRequest`. */
  predicate Valid(a: Assignment, q: Request) {
    && a.isContainer && a.arch == "arm64" && Digest(a.id) && ValidDomain(a.domain)
    && q.activateBefore > 0 && Digest(q.deployment) && Digest(q.project) && Digest(q.runtime)
    && q.project == a.id && q.runtime == a.runtime && q.deployedRelease == q.release.id
    && q.revision >= 1 && q.running
    && ValidRelease(a, q.release) && (q.previous.Some? ==> ValidRelease(a, q.previous.value))
  }

  datatype Stage = Preparing | Dispatched | NotSubmitted | Withdrawn | Recovering

  /** A decoded JSON object, as preflight returned it. */
  type Desired = string

  /** What is kept about a request the deployer tracks under its identity. */
  datatype Tracking = Tracking(preflight: Desired, yaml: string)

  /** The write-ahead record of one deployment. */
  datatype Operation = Operation(
    request: Request, domain: string, stage: Stage, requestId: string, candidate: bool,
    preflight: Option<Desired>, yaml: string, withdrawalDeployment: string, withdrawalApp: string)

  /** What `readContainerOperation` accepts after a restart. */
  predicate Readable(op: Operation) {
    && op.domain != ""
    && (op.stage == Withdrawn <==> op.withdrawalDeployment != "" && op.withdrawalApp != "")
    && (op.candidate ==> op.requestId != "")
    && (op.stage == Recovering ==> op.candidate)
    && (if op.requestId != "" then op.requestId == op.request.deployment && Digest(op.requestId) && op.preflight.Some?
        else op.preflight.None?)
  }

  function Begun(q: Request, domain: string): Operation {
    Operation(q, domain, Preparing, "", false, None, "", "", "")
  }

  function Tracked(op: Operation, t: Option<Tracking>): Operation {
    match t
    case None => op
    case Some(t) => op.(requestId := op.request.deployment, preflight := Some(t.preflight), yaml := t.yaml)
  }

  datatype Fence = Fence(revision: int, deployment: string)

  /** The deployer's record of a tracked request. */
  datatype Remote = Absent | Pending | Applied | Discarded

  datatype Verdict = Unsettled | Succeeded | Failed

  datatype Event =
    | Asked(q: Request)                        // the deployer is asked to deploy
    | Reported(q: Request, verdict: Verdict)   // the portal is told
    | Advanced(id: string, applied: bool)      // the deployer is asked to advance, having said whether it is applied

  /** A submission between its first write and its return. */
  datatype Call = Call(id: string, sent: bool)

  type Files = map<string, Operation>

  datatype World = World(
    files: Files, fence: Option<Fence>, now: int,
    remote: map<string, Remote>, call: Option<Call>, log: seq<Event>)

  const SUBMIT_WINDOW := 630

  function RemoteOf(w: World, id: string): Remote {
    if id in w.remote then w.remote[id] else Absent
  }

  /** The fence refuses an older revision and a rival at its own. */
  predicate FenceAdmits(fence: Option<Fence>, q: Request) {
    fence.Some? ==> fence.value.revision < q.revision || fence.value == Fence(q.revision, q.deployment)
  }

  predicate FencedFor(fence: Option<Fence>, q: Request) {
    fence == Some(Fence(q.revision, q.deployment))
  }

  predicate Submitting(w: World, id: string, sent: bool) {
    w.call == Some(Call(id, sent)) && id in w.files
  }

  predicate Tracks(w: World, id: string) {
    w.call.None? && id in w.files && (w.files[id].stage == Dispatched || w.files[id].stage == Recovering) && w.files[id].requestId != ""
  }

  /** The record answers this very request. */
  predicate Holds(w: World, q: Request) {
    q.deployment in w.files && w.files[q.deployment].request == q
  }

  predicate Reportable(w: World, q: Request, v: Verdict) {
    match v
    case Unsettled => true
    case Failed =>
      if q.deployment !in w.files then q.activateBefore <= w.now
      else
        && Holds(w, q)
        && var stage := w.files[q.deployment].stage;
           stage == Withdrawn || stage == NotSubmitted || (stage == Preparing && q.activateBefore <= w.now)
    case Succeeded =>
      && Holds(w, q) && FencedFor(w.fence, q)
      && var op := w.files[q.deployment];
         && (op.stage == Dispatched || op.stage == Recovering)
         && (op.requestId != "" ==> RemoteOf(w, q.deployment) == Applied)
  }

  datatype Step =
    | Tick(now: int)
    | DeployerMoves(id: string, to: Remote)
    | Prepare(a: Assignment, q: Request)
    | RaiseFence(id: string)
    | Refuse(id: string, tracking: Option<Tracking>)
    | Dispatch(id: string, tracking: Option<Tracking>, candidate: bool)
    | Ask(id: string)
    | HearWithdrawal(id: string, deployment: string, app: string)
    | Return
    | Settle(id: string, deployment: string, app: string)
    | Recover(id: string)
    | Advance(id: string, seen: Remote)
    | Report(q: Request, verdict: Verdict)

  predicate Enabled(w: World, s: Step) {
    match s
    case Tick(now) => w.now <= now
    case DeployerMoves(id, to) =>
      && (RemoteOf(w, id) == Absent || RemoteOf(w, id) == Pending) && to != Absent
      && (to == Applied ==> id in w.files && Asked(w.files[id].request) in w.log)
    case Prepare(a, q) =>
      && w.call.None? && Valid(a, q) && q.deployment !in w.files
      && w.now < q.activateBefore <= w.now + SUBMIT_WINDOW && FenceAdmits(w.fence, q)
    case RaiseFence(id) => Submitting(w, id, false) && w.files[id].stage == Preparing && FenceAdmits(w.fence, w.files[id].request)
    case Refuse(id, t) =>
      && Submitting(w, id, false)
      && (w.files[id].stage == Preparing || (w.files[id].stage == Dispatched && t.None?))
    case Dispatch(id, t, candidate) =>
      && Submitting(w, id, false) && w.files[id].stage == Preparing && FencedFor(w.fence, w.files[id].request)
      && (candidate ==> t.Some?)
    case Ask(id) => Submitting(w, id, false) && w.files[id].stage == Dispatched && w.now < w.files[id].request.activateBefore
    case HearWithdrawal(id, deployment, app) =>
      && Submitting(w, id, true) && w.files[id].stage == Dispatched && deployment != "" && app != ""
      && (w.files[id].requestId != "" ==> RemoteOf(w, id) == Discarded)
    case Return => true
    case Settle(id, deployment, app) => Tracks(w, id) && RemoteOf(w, id) == Discarded && deployment != "" && app != ""
    case Recover(id) => Tracks(w, id) && w.files[id].candidate
    case Advance(id, seen) =>  // the deployer may have moved on since it was asked
      && Tracks(w, id) && w.files[id].candidate && FencedFor(w.fence, w.files[id].request)
      && ((seen == Applied && RemoteOf(w, id) == Applied)
          || (seen == Pending && w.files[id].stage == Dispatched && w.now < w.files[id].request.activateBefore))
    case Report(q, v) => w.call.None? && FenceAdmits(w.fence, q) && Reportable(w, q, v)
  }

  function Apply(w: World, s: Step): World
    requires Enabled(w, s)
  {
    match s
    case Tick(now) => w.(now := now)
    case DeployerMoves(id, to) => w.(remote := w.remote[id := to])
    case Prepare(a, q) => w.(files := w.files[q.deployment := Begun(q, a.domain)], call := Some(Call(q.deployment, false)))
    case RaiseFence(id) => w.(fence := Some(Fence(w.files[id].request.revision, id)))
    case Refuse(id, t) => w.(files := w.files[id := Tracked(w.files[id], t).(stage := NotSubmitted)])
    case Dispatch(id, t, candidate) =>
      w.(files := w.files[id := Tracked(w.files[id], t).(stage := Dispatched, candidate := candidate)])
    case Ask(id) => w.(call := Some(Call(id, true)), log := w.log + [Asked(w.files[id].request)])
    case HearWithdrawal(id, deployment, app) =>
      w.(files := w.files[id := w.files[id].(stage := Withdrawn, withdrawalDeployment := deployment, withdrawalApp := app)])
    case Return => w.(call := None)
    case Settle(id, deployment, app) =>
      w.(files := w.files[id := w.files[id].(stage := Withdrawn, withdrawalDeployment := deployment, withdrawalApp := app)])
    case Recover(id) => w.(files := w.files[id := w.files[id].(stage := Recovering)])
    case Advance(id, seen) => w.(log := w.log + [Advanced(id, seen == Applied)])
    case Report(q, v) => w.(log := w.log + [Reported(q, v)])
  }

  // ---------------------------------------------------------------- invariant

  /** Every record is filed under its deployment and passes the reader, and begins untracked. */
  ghost predicate Filed(files: Files) {
    forall id | id in files ::
      && files[id].request.deployment == id && Digest(id) && Readable(files[id])
      && (files[id].stage == Preparing ==> files[id] == Begun(files[id].request, files[id].domain))
  }

  /** A running submission owns a record that may still be sent, or was just sent. */
  predicate Owned(w: World) {
    w.call.Some? ==>
      && w.call.value.id in w.files
      && (w.call.value.sent ==> w.files[w.call.value.id].stage == Dispatched || w.files[w.call.value.id].stage == Withdrawn)
      && (!w.call.value.sent ==> w.files[w.call.value.id].stage != Recovering && w.files[w.call.value.id].stage != Withdrawn)
  }

  predicate Calling(w: World, id: string) {
    w.call.Some? && w.call.value.id == id
  }

  /** Whatever was asked is on record as sent, and nothing about to be sent was asked before. */
  ghost predicate AskedOnRecord(w: World) {
    forall i | 0 <= i < |w.log| && w.log[i].Asked? ::
      && Holds(w, w.log[i].q)
      && w.files[w.log[i].q.deployment].stage != Preparing && w.files[w.log[i].q.deployment].stage != NotSubmitted
      && w.call != Some(Call(w.log[i].q.deployment, false))
  }

  ghost predicate AskedOnce(log: seq<Event>) {
    forall i, j | 0 <= i < j < |log| && log[i].Asked? && log[j].Asked? :: log[i].q.deployment != log[j].q.deployment
  }

  /** The request cannot be sent any more. */
  predicate Dead(w: World, q: Request) {
    if q.deployment !in w.files then q.activateBefore <= w.now
    else w.files[q.deployment].request != q || (!Calling(w, q.deployment) && Ended(w.files[q.deployment].stage))
  }

  predicate Ended(s: Stage) {
    s == Withdrawn || s == NotSubmitted || s == Preparing
  }

  /** The request is on record as dispatched for good; if the deployer tracks it, it was sent and applied. */
  predicate Won(w: World, q: Request) {
    && Holds(w, q) && !Calling(w, q.deployment) && !Ended(w.files[q.deployment].stage)
    && (w.files[q.deployment].requestId != "" ==> RemoteOf(w, q.deployment) == Applied && Asked(q) in w.log)
  }

  /** What the portal was told stays true. */
  ghost predicate Kept(w: World) {
    forall i | 0 <= i < |w.log| && w.log[i].Reported? ::
      && (w.log[i].verdict == Failed ==> Dead(w, w.log[i].q))
      && (w.log[i].verdict == Succeeded ==> Won(w, w.log[i].q))
  }

  ghost predicate SilentAfterFailure(log: seq<Event>) {
    forall i, j | 0 <= i < j < |log| && log[i].Reported? && log[i].verdict == Failed :: log[j] != Asked(log[i].q)
  }

  /** The deployer applies only what it was asked for. */
  ghost predicate Honest(w: World) {
    forall id | id in w.remote && w.remote[id] == Applied :: id in w.files && Asked(w.files[id].request) in w.log
  }

  /** Whatever got past its refusal was dispatched under the fence, which has not gone back since. */
  ghost predicate Raised(w: World) {
    forall id | id in w.files && w.files[id].stage != Preparing && w.files[id].stage != NotSubmitted ::
      w.fence.Some? && (w.files[id].request.revision < w.fence.value.revision || FencedFor(w.fence, w.files[id].request))
  }

  /** A tracked request is on record as withdrawn only if the deployer's own record says so. */
  ghost predicate Confirmed(w: World) {
    forall id | id in w.files && w.files[id].stage == Withdrawn && w.files[id].requestId != "" :: RemoteOf(w, id) == Discarded
  }

  ghost predicate Inv(w: World) {
    && Confirmed(w)
    && Filed(w.files) && Owned(w) && Raised(w) && AskedOnRecord(w) && AskedOnce(w.log)
    && Kept(w) && SilentAfterFailure(w.log) && Honest(w)
  }

  const START := World(map[], None, 0, map[], None, [])

  lemma {:induction false} FiledStep(w: World, s: Step)
    requires Inv(w) && Enabled(w, s)
    ensures Filed(Apply(w, s).files)
  {
    if Writes(s) { WrittenRecord(w, s); } else { SameFiles(w, s); }
  }

  /** One write replaces one record by a readable one. */
  lemma {:induction false} WrittenRecord(w: World, s: Step)
    requires Filed(w.files) && Enabled(w, s) && Writes(s)
    ensures var id := if s.Prepare? then s.q.deployment else s.id;
            var files' := Apply(w, s).files;
            && id in files' && files' == w.files[id := files'[id]] && Digest(id)
            && files'[id].request.deployment == id && Readable(files'[id])
            && (files'[id].stage == Preparing ==> files'[id] == Begun(files'[id].request, files'[id].domain))
  {
  }

  /** The steps that write a record. */
  predicate Writes(s: Step) {
    s.Prepare? || s.Refuse? || s.Dispatch? || s.HearWithdrawal? || s.Settle? || s.Recover?
  }

  lemma {:induction false} SameFiles(w: World, s: Step)
    requires Enabled(w, s) && !Writes(s)
    ensures Apply(w, s).files == w.files
  {
  }

  lemma {:induction false} OwnedStep(w: World, s: Step)
    requires Inv(w) && Enabled(w, s)
    ensures Owned(Apply(w, s))
  {
  }

  lemma {:induction false} RaisedStep(w: World, s: Step)
    requires Filed(w.files) && Raised(w) && Enabled(w, s)
    ensures Raised(Apply(w, s))
  {
    if !Writes(s) { SameFiles(w, s); }
  }

  lemma {:induction false} AskedStep(w: World, s: Step)
    requires Inv(w) && Enabled(w, s)
    ensures AskedOnRecord(Apply(w, s))
  {
    if Writes(s) { AskedBeforeWrite(w, s); } else { SameFiles(w, s); }
  }

  lemma {:induction false} AskedBeforeWrite(w: World, s: Step)
    requires Inv(w) && Enabled(w, s) && Writes(s)
    ensures AskedOnRecord(Apply(w, s))
  {
  }

  lemma {:induction false} AskedOnceStep(w: World, s: Step)
    requires Inv(w) && Enabled(w, s)
    ensures AskedOnce(Apply(w, s).log)
  {
  }

  lemma {:induction false} DeadStays(w: World, s: Step, q: Request)
    requires Inv(w) && Enabled(w, s) && Dead(w, q)
    ensures Dead(Apply(w, s), q)
  {
  }

  lemma {:induction false} WonStays(w: World, s: Step, q: Request)
    requires Inv(w) && Enabled(w, s) && Won(w, q)
    ensures Won(Apply(w, s), q)
  {
  }

  lemma {:induction false} ReportIsTrue(w: World, q: Request, v: Verdict)
    requires Inv(w) && Enabled(w, Report(q, v))
    ensures v == Failed ==> Dead(w, q)
    ensures v == Succeeded ==> Won(w, q)
  {
  }

  lemma {:induction false} KeptStep(w: World, s: Step)
    requires Inv(w) && Enabled(w, s)
    ensures Kept(Apply(w, s))
  {
    var w' := Apply(w, s);
    forall i | 0 <= i < |w'.log| && w'.log[i].Reported?
      ensures w'.log[i].verdict == Failed ==> Dead(w', w'.log[i].q)
      ensures w'.log[i].verdict == Succeeded ==> Won(w', w'.log[i].q)
    {
      var q := w'.log[i].q;
      if i == |w.log| { ReportIsTrue(w, q, w'.log[i].verdict); }
      if Dead(w, q) { DeadStays(w, s, q); }
      if Won(w, q) { WonStays(w, s, q); }
    }
  }

  lemma {:induction false} SilentStep(w: World, s: Step)
    requires Inv(w) && Enabled(w, s)
    ensures SilentAfterFailure(Apply(w, s).log)
  {
  }

  lemma {:induction false} HonestStep(w: World, s: Step)
    requires Inv(w) && Enabled(w, s)
    ensures Honest(Apply(w, s))
  {
  }

  lemma {:induction false} ConfirmedStep(w: World, s: Step)
    requires Filed(w.files) && Owned(w) && Confirmed(w) && Enabled(w, s)
    ensures Confirmed(Apply(w, s))
  {
    if !Writes(s) { SameFiles(w, s); }
  }

  lemma {:induction false} StepPreserves(w: World, s: Step)
    requires Inv(w) && Enabled(w, s)
    ensures Inv(Apply(w, s))
  {
    ConfirmedStep(w, s);
    FiledStep(w, s);
    OwnedStep(w, s);
    RaisedStep(w, s);
    AskedStep(w, s);
    AskedOnceStep(w, s);
    KeptStep(w, s);
    SilentStep(w, s);
    HonestStep(w, s);
  }

  // ---------------------------------------------------------------- runs

  predicate Took(states: seq<World>, steps: seq<Step>, i: int)
    requires |states| == |steps| + 1
  {
    0 <= i < |steps| && Enabled(states[i], steps[i]) && states[i + 1] == Apply(states[i], steps[i])
  }

  ghost predicate IsRun(states: seq<World>, steps: seq<Step>) {
    |states| == |steps| + 1 && states[0] == START && forall i | 0 <= i < |steps| :: Took(states, steps, i)
  }

  lemma {:induction false} RunSound(states: seq<World>, steps: seq<Step>, i: nat)
    requires IsRun(states, steps) && i <= |steps|
    ensures Inv(states[i])
    decreases i
  {
    if i > 0 {
      RunSound(states, steps, i - 1);
      assert Took(states, steps, i - 1);
      StepPreserves(states[i - 1], steps[i - 1]);
    }
  }

  /** A record's stage only ever moves on. */
  predicate StageForward(s: Stage, s': Stage) {
    match s
    case Preparing => true
    case Dispatched => s' != Preparing
    case Recovering => s' == Recovering || s' == Withdrawn
    case NotSubmitted => s' == NotSubmitted
    case Withdrawn => s' == Withdrawn
  }

  predicate FenceForward(f: Option<Fence>, f': Option<Fence>) {
    f.Some? ==>
      && f'.Some? && f.value.revision <= f'.value.revision
      && (f.value.revision == f'.value.revision ==> f == f')
  }

  ghost predicate Forward(w: World, w': World) {
    w.now <= w'.now && w.log <= w'.log && FenceForward(w.fence, w'.fence) && FilesForward(w.files, w'.files)
  }

  ghost predicate FilesForward(files: Files, files': Files) {
    forall id | id in files ::
      && id in files' && files'[id].request == files[id].request && files'[id].domain == files[id].domain
      && StageForward(files[id].stage, files'[id].stage)
      && (files[id].stage != Preparing ==> files'[id].requestId == files[id].requestId)
  }

  lemma {:induction false} StepForward(w: World, s: Step)
    requires Inv(w) && Enabled(w, s)
    ensures Forward(w, Apply(w, s))
  {
    FilesStepForward(w, s);
    FenceStepForward(w, s);
  }

  lemma {:induction false} FilesStepForward(w: World, s: Step)
    requires Owned(w) && Enabled(w, s)
    ensures FilesForward(w.files, Apply(w, s).files)
  {
    if Writes(s) { RecordForward(w, s); } else { SameFiles(w, s); }
  }

  lemma {:induction false} RecordForward(w: World, s: Step)
    requires Owned(w) && Enabled(w, s) && Writes(s)
    ensures var id := if s.Prepare? then s.q.deployment else s.id;
            var files' := Apply(w, s).files;
            && id in files' && files' == w.files[id := files'[id]]
            && (id in w.files ==> files'[id].request == w.files[id].request && files'[id].domain == w.files[id].domain
                                  && StageForward(w.files[id].stage, files'[id].stage)
                                  && (w.files[id].stage != Preparing ==> files'[id].requestId == w.files[id].requestId))
  {
  }

  lemma {:induction false} FenceStepForward(w: World, s: Step)
    requires Filed(w.files) && Enabled(w, s)
    ensures FenceForward(w.fence, Apply(w, s).fence)
  {
  }

  lemma {:induction false} ForwardTransitive(a: World, b: World, c: World)
    requires Forward(a, b) && Forward(b, c)
    ensures Forward(a, c)
  {
  }

  /** The fence never goes back, records are never forgotten or rewritten for another request, and
      stages only move on. */
  lemma {:induction false} RunForward(states: seq<World>, steps: seq<Step>, i: nat, j: nat)
    requires IsRun(states, steps) && i <= j <= |steps|
    ensures Forward(states[i], states[j])
    decreases j
  {
    if i < j {
      RunForward(states, steps, i, j - 1);
      RunSound(states, steps, j - 1);
      assert Took(states, steps, j - 1);
      StepForward(states[j - 1], steps[j - 1]);
      ForwardTransitive(states[i], states[j - 1], states[j]);
    }
  }

  /** No request is ever reported both failed and succeeded. */
  lemma {:induction false} VerdictsNeverContradict(states: seq<World>, steps: seq<Step>, i: nat, q: Request)
    requires IsRun(states, steps) && i <= |steps|
    ensures !(Reported(q, Failed) in states[i].log && Reported(q, Succeeded) in states[i].log)
  {
    RunSound(states, steps, i);
  }

  /** Once a request is reported failed it is never sent to the deployer. */
  lemma {:induction false} NothingSentAfterFailure(states: seq<World>, steps: seq<Step>, i: nat, j: nat, q: Request)
    requires IsRun(states, steps) && i <= j <= |steps| && Reported(q, Failed) in states[i].log
    ensures |states[i].log| <= |states[j].log| && Asked(q) !in states[j].log[|states[i].log|..]
  {
    RunForward(states, steps, i, j);
    RunSound(states, steps, j);
    var log := states[j].log;
    var k :| 0 <= k < |states[i].log| && states[i].log[k] == Reported(q, Failed);
    assert log[k] == Reported(q, Failed);
  }

  /** The deployer is asked to deploy at most once under one deployment ID. */
  lemma {:induction false} SentAtMostOnce(states: seq<World>, steps: seq<Step>, i: nat, j: nat, k: nat)
    requires IsRun(states, steps) && i <= |steps| && j < k < |states[i].log|
    requires states[i].log[j].Asked? && states[i].log[k].Asked?
    ensures states[i].log[j].q.deployment != states[i].log[k].q.deployment
  {
    RunSound(states, steps, i);
  }

  /** A record in stage not_submitted proves that its request was never sent and never will be. */
  lemma {:induction false} NotSubmittedMeansNeverSent(states: seq<World>, steps: seq<Step>, i: nat, j: nat, id: string)
    requires IsRun(states, steps) && i <= j <= |steps| && id in states[i].files && states[i].files[id].stage == NotSubmitted
    ensures forall k | 0 <= k < |states[j].log| && states[j].log[k].Asked? :: states[j].log[k].q.deployment != id
  {
    RunForward(states, steps, i, j);
    RunSound(states, steps, j);
  }

  /** Every record ever saved is accepted by the reader after a restart. */
  lemma {:induction false} RecordsStayReadable(states: seq<World>, steps: seq<Step>, i: nat, id: string)
    requires IsRun(states, steps) && i <= |steps| && id in states[i].files
    ensures Readable(states[i].files[id]) && states[i].files[id].request.deployment == id
  {
    RunSound(states, steps, i);
  }

  /** A tracked request is reported successful only if it was sent. */
  lemma {:induction false} TrackedSuccessWasSent(states: seq<World>, steps: seq<Step>, i: nat, q: Request)
    requires IsRun(states, steps) && i <= |steps| && Reported(q, Succeeded) in states[i].log
    ensures Holds(states[i], q)
    ensures states[i].files[q.deployment].requestId != "" ==> Asked(q) in states[i].log
  {
    RunSound(states, steps, i);
    assert Won(states[i], q);
  }

  /** The step records a new request, which its project's assignment admits: a container of this project
      and runtime, a release the worker can render, and a deadline in the window. */
  ghost predicate Admits(w: World, s: Step, q: Request) {
    && s.Prepare? && s.q == q
    && s.a.isContainer && s.a.arch == "arm64" && q.project == s.a.id && q.runtime == s.a.runtime && q.running && q.revision >= 1
    && q.deployedRelease == q.release.id && q.release.project == s.a.id && q.release in s.a.releases
    && (q.previous.Some? ==> q.previous.value.project == s.a.id && q.previous.value in s.a.releases)
    && Digest(q.deployment) && Digest(q.project) && Digest(q.runtime) && Digest(q.release.id)
    && w.now < q.activateBefore <= w.now + 630 && q.deployment !in w.files
    && (w.fence.Some? ==> w.fence.value.revision < q.revision || w.fence.value == Fence(q.revision, q.deployment))
  }

  /** Whatever was sent to the deployer had been admitted before. */
  lemma {:induction false} SentWasAdmitted(states: seq<World>, steps: seq<Step>, i: nat, q: Request)
    requires IsRun(states, steps) && i <= |steps| && Asked(q) in states[i].log
    ensures exists j | 0 <= j < i :: Admits(states[j], steps[j], q)
  {
    RunSound(states, steps, i);
    var k :| 0 <= k < |states[i].log| && states[i].log[k] == Asked(q);
    RecordWasAdmitted(states, steps, i, q);
  }

  lemma {:induction false} RecordWasAdmitted(states: seq<World>, steps: seq<Step>, i: nat, q: Request)
    requires IsRun(states, steps) && i <= |steps| && Holds(states[i], q)
    ensures exists j | 0 <= j < i :: Admits(states[j], steps[j], q)
    decreases i
  {
    if i > 0 {
      assert Took(states, steps, i - 1);
      if Holds(states[i - 1], q) {
        RecordWasAdmitted(states, steps, i - 1, q);
      } else {
        RunForward(states, steps, i - 1, i);
        NewRecord(states[i - 1], steps[i - 1], q);
        assert Admits(states[i - 1], steps[i - 1], q);
      }
    }
  }

  lemma {:induction false} NewRecord(w: World, s: Step, q: Request)
    requires Enabled(w, s) && Holds(Apply(w, s), q) && q.deployment !in w.files
    ensures Admits(w, s, q)
  {
    if !Writes(s) { SameFiles(w, s); }
  }

  /** A request that was reported failed is not, and never will be, applied by the deployer, unless it
      was withdrawn without being tracked. */
  lemma {:induction false} FailureIsNeverApplied(states: seq<World>, steps: seq<Step>, i: nat, j: nat, q: Request)
    requires IsRun(states, steps) && i <= j <= |steps| && Reported(q, Failed) in states[i].log && Holds(states[j], q)
    requires states[j].files[q.deployment].requestId != "" || states[j].files[q.deployment].stage != Withdrawn
    ensures RemoteOf(states[j], q.deployment) != Applied
  {
    RunForward(states, steps, i, j);
    RunSound(states, steps, j);
    var k :| 0 <= k < |states[i].log| && states[i].log[k] == Reported(q, Failed);
    assert states[j].log[k] == Reported(q, Failed);
    assert Dead(states[j], q);
  }

  // ---------------------------------------------------------------- success that was never sent

  /** The worker writes its intent to dispatch an untracked request, crashes before the call, and
      then observes its release healthy. */
  function UnsentSteps(a: Assignment, q: Request, now: int): seq<Step> {
    [Tick(now), Prepare(a, q), RaiseFence(q.deployment), Dispatch(q.deployment, None, false), Return, Report(q, Succeeded)]
  }

  function UnsentState(a: Assignment, q: Request, now: int, i: int): World {
    World(
      if i <= 1 then map[] else map[q.deployment := Begun(q, a.domain).(stage := if i <= 3 then Preparing else Dispatched)],
      if i <= 2 then None else Some(Fence(q.revision, q.deployment)),
      if i == 0 then 0 else now,
      map[],
      if 2 <= i <= 4 then Some(Call(q.deployment, false)) else None,
      if i <= 5 then [] else [Reported(q, Succeeded)])
  }

  function UnsentStates(a: Assignment, q: Request, now: int): (states: seq<World>)
    ensures |states| == 7 && forall i | 0 <= i < 7 :: states[i] == UnsentState(a, q, now, i)
  {
    seq(7, i => UnsentState(a, q, now, i))
  }

  /** For every valid request, within its window, there is a run in which it is reported successful
      and the deployer was never asked. */
  lemma {:induction false} UnsentSuccess(a: Assignment, q: Request, now: int)
    requires Valid(a, q) && 0 <= now < q.activateBefore <= now + SUBMIT_WINDOW
    ensures IsRun(UnsentStates(a, q, now), UnsentSteps(a, q, now))
    ensures var w := UnsentStates(a, q, now)[6]; Reported(q, Succeeded) in w.log && Asked(q) !in w.log && Won(w, q)
  {
    var states, steps := UnsentStates(a, q, now), UnsentSteps(a, q, now);
    forall i | 0 <= i < |steps| ensures Took(states, steps, i) {
      UnsentTook(a, q, now, i);
    }
  }

  lemma {:induction false} UnsentTook(a: Assignment, q: Request, now: int, i: nat)
    requires Valid(a, q) && 0 <= now < q.activateBefore <= now + SUBMIT_WINDOW && i < 6
    ensures Took(UnsentStates(a, q, now), UnsentSteps(a, q, now), i)
  {
  }

  /** This continuation of the first `i` steps of a run goes on to report the request successful, and
      to its end the deployer has not been asked for it. */
  ghost predicate UnsentFrom(states: seq<World>, steps: seq<Step>, i: int, q: Request, states': seq<World>, steps': seq<Step>)
    requires |states| == |steps| + 1 && 0 <= i <= |steps|
  {
    && IsRun(states', steps') && i <= |steps'| && states'[..i + 1] == states[..i + 1]
    && (exists k | i <= k < |steps'| :: steps'[k] == Report(q, Succeeded))
    && Asked(q) !in states'[|steps'|].log
  }

  /** Exactly when that can happen: from any reachable state whose record of the request is past
      refusal and whose submission has ended, a success can be reported for a request that was and
      is never sent if and only if it is untracked, has not been sent yet and still has the fence. */
  lemma {:induction false} UnsentExactly(states: seq<World>, steps: seq<Step>, i: nat, q: Request)
    requires IsRun(states, steps) && i <= |steps|
    requires states[i].call.None? && Holds(states[i], q) && !Ended(states[i].files[q.deployment].stage)
    ensures (exists states', steps' :: UnsentFrom(states, steps, i, q, states', steps')) <==>
              states[i].files[q.deployment].requestId == "" && Asked(q) !in states[i].log && FencedFor(states[i].fence, q)
  {
    if states[i].files[q.deployment].requestId == "" && Asked(q) !in states[i].log && FencedFor(states[i].fence, q) {
      UnsentNow(states, steps, i, q);
    }
    forall states', steps' | UnsentFrom(states, steps, i, q, states', steps')
      ensures states[i].files[q.deployment].requestId == "" && Asked(q) !in states[i].log && FencedFor(states[i].fence, q)
    {
      UnsentNeeds(states, steps, i, q, states', steps');
    }
  }

  lemma {:induction false} UnsentNow(states: seq<World>, steps: seq<Step>, i: nat, q: Request)
    requires IsRun(states, steps) && i <= |steps|
    requires states[i].call.None? && Holds(states[i], q) && !Ended(states[i].files[q.deployment].stage)
    requires states[i].files[q.deployment].requestId == "" && Asked(q) !in states[i].log && FencedFor(states[i].fence, q)
    ensures exists states', steps' :: UnsentFrom(states, steps, i, q, states', steps')
  {
    var s := Report(q, Succeeded);
    var states', steps' := states[..i + 1] + [Apply(states[i], s)], steps[..i] + [s];
    forall k | 0 <= k < |steps'| ensures Took(states', steps', k) {
      if k < i { assert Took(states, steps, k); }
    }
    assert states'[..i + 1] == states[..i + 1];
    assert steps'[i] == Report(q, Succeeded);
    assert UnsentFrom(states, steps, i, q, states', steps');
  }

  lemma {:induction false} UnsentNeeds(states: seq<World>, steps: seq<Step>, i: nat, q: Request, states': seq<World>, steps': seq<Step>)
    requires IsRun(states, steps) && i <= |steps| && UnsentFrom(states, steps, i, q, states', steps')
    requires Holds(states[i], q) && !Ended(states[i].files[q.deployment].stage)
    ensures states[i].files[q.deployment].requestId == "" && Asked(q) !in states[i].log && FencedFor(states[i].fence, q)
  {
    var k :| i <= k < |steps'| && steps'[k] == Report(q, Succeeded);
    assert states'[i] == states'[..i + 1][i] == states[i];
    RunForward(states', steps', i, k);
    RunSound(states', steps', i);
    SuccessfulReport(states', steps', k, q);
  }

  lemma {:induction false} SuccessfulReport(states: seq<World>, steps: seq<Step>, k: nat, q: Request)
    requires IsRun(states, steps) && k < |steps| && steps[k] == Report(q, Succeeded)
    ensures Won(states[k], q) && FencedFor(states[k].fence, q) && states[k].log <= states[|steps|].log
  {
    assert Took(states, steps, k);
    RunForward(states, steps, k, |steps|);
    RunSound(states, steps, k);
    ReportIsTrue(states[k], q, Succeeded);
  }

  /** Once recovery intent is saved, the record can only become withdrawn, and whatever advance is
      requested from then on is for a deployment the deployer has already applied. */
  lemma {:induction false} RecoveryIsSticky(states: seq<World>, steps: seq<Step>, i: nat, j: nat, id: string)
    requires IsRun(states, steps) && i <= j <= |steps| && id in states[i].files && states[i].files[id].stage == Recovering
    ensures id in states[j].files && (states[j].files[id].stage == Recovering || states[j].files[id].stage == Withdrawn)
    ensures |states[i].log| <= |states[j].log|
    ensures Advanced(id, false) !in states[j].log[|states[i].log|..]
    decreases j
  {
    RunForward(states, steps, i, j);
    if i < j {
      RecoveryIsSticky(states, steps, i, j - 1, id);
      assert Took(states, steps, j - 1);
      OneMore(states[j - 1], steps[j - 1], |states[i].log|, id);
    }
  }

  lemma {:induction false} OneMore(w: World, s: Step, n: nat, id: string)
    requires Enabled(w, s) && n <= |w.log| && Advanced(id, false) !in w.log[n..]
    requires id in w.files && (w.files[id].stage == Recovering || w.files[id].stage == Withdrawn)
    ensures |Apply(w, s).log| >= |w.log| && Advanced(id, false) !in Apply(w, s).log[n..]
  {
    var log, log' := w.log, Apply(w, s).log;
    if |log'| > |log| {
      assert log'[n..] == log[n..] + [log'[|log|]];
    } else {
      assert log' == log;
    }
  }
}
