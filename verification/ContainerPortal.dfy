/** The portal's container deployments of one project (internal/portal/container_deployments.go,
    container_dispatch.go and container_reconciliation.go), over the worker that carries them out.

    Each request is committed as intent before it is submitted, and what the table finally says
    is what the worker reported. */
module ContainerPortal {
  import opened Common
  import opened Container
  import opened ContainerWorker

  datatype State = Queued | Running | Done(verdict: Verdict) | Cancelled

  datatype Row = Row(key: string, release: Release, runtime: string, revision: int, state: State, intent: Option<Request>)

  type Rows = map<string, Row>

  const MAX_DEPLOYMENTS := 1000
  const ACTIVATION_WINDOW := 600

  predicate Unfinished(r: Row) {
    r.state == Queued || r.state == Running
  }

  ghost predicate Busy(rows: Rows) {
    exists id | id in rows :: Unfinished(rows[id])
  }

  /** The intent of a row asks for that row and nothing else. */
  predicate Matches(id: string, r: Row, q: Request) {
    q.deployment == id && q.revision == r.revision && q.runtime == r.runtime && q.release == r.release && q.running
  }

  /** Intent is on record exactly from dispatch on, and a final state is what the worker reported. */
  predicate RowOk(id: string, r: Row, log: seq<Event>) {
    && r.revision >= 1
    && (r.intent.Some? <==> r.state == Running || r.state.Done?)
    && (r.intent.Some? ==> Matches(id, r, r.intent.value))
    && (r.state.Done? ==> r.state.verdict != Unsettled && Reported(r.intent.value, r.state.verdict) in log)
  }

  ghost predicate Orderly(rows: Rows) {
    && (forall o, p | o in rows && p in rows && o != p :: rows[o].revision != rows[p].revision && rows[o].key != rows[p].key)
    && (forall o, p | o in rows && p in rows && o != p && Unfinished(rows[o]) :: rows[p].revision < rows[o].revision && !Unfinished(rows[p]))
  }

  /** The worker only knows requests the portal committed. */
  ghost predicate Committed(rows: Rows, w: World) {
    && (forall i | 0 <= i < |w.log| && w.log[i].Asked? :: Intended(rows, w.log[i].q))
    && (forall id | id in w.files :: id in rows && rows[id].intent.Some?)
    && (w.fence.Some? ==> w.fence.value.deployment in rows && rows[w.fence.value.deployment].intent.Some?
                          && rows[w.fence.value.deployment].revision == w.fence.value.revision)
  }

  predicate Intended(rows: Rows, q: Request) {
    q.deployment in rows && rows[q.deployment].intent == Some(q)
  }

  ghost predicate Sound(rows: Rows, w: World) {
    Orderly(rows) && Committed(rows, w) && forall id | id in rows :: RowOk(id, rows[id], w.log)
  }

  /** Rows stay, intents are written once, and final states are final. */
  ghost predicate Extends(rows: Rows, rows': Rows) {
    forall id | id in rows ::
      && id in rows' && rows'[id].release == rows[id].release && rows'[id].revision == rows[id].revision && rows'[id].key == rows[id].key
      && (rows[id].intent.Some? ==> rows'[id].intent == rows[id].intent)
      && (!Unfinished(rows[id]) ==> rows'[id] == rows[id])
      && (rows[id].state == Running ==> rows'[id].state != Queued && rows'[id].state != Cancelled)
  }

  /** A row recorded as failed will never be sent; one recorded as succeeded was dispatched for good
      and, if the deployer tracks it, sent and applied. */
  lemma {:induction false} FinalIsTrue(rows: Rows, w: World, id: string)
    requires Sound(rows, w) && Inv(w) && id in rows && rows[id].state.Done?
    ensures rows[id].state.verdict == Failed ==> Dead(w, rows[id].intent.value)
    ensures rows[id].state.verdict == Succeeded ==> Won(w, rows[id].intent.value)
  {
    var e := Reported(rows[id].intent.value, rows[id].state.verdict);
    var i :| 0 <= i < |w.log| && w.log[i] == e;
  }

  /** The worker's fence admits whatever the portal dispatches next. */
  lemma {:induction false} NeverStale(rows: Rows, w: World, id: string, q: Request)
    requires Sound(rows, w) && id in rows && rows[id].state == Queued && q.deployment == id && q.revision == rows[id].revision
    ensures FenceAdmits(w.fence, q) && id !in w.files
  {
  }

  lemma {:induction false} SoundAfterLog(rows: Rows, w: World, w': World, id: string)
    requires Sound(rows, w) && w.log <= w'.log && w'.fence == w.fence
    requires Only(w.files, w'.files, id) && (id !in w.files ==> w'.files == w.files)
    requires forall i | |w.log| <= i < |w'.log| :: !w'.log[i].Asked?
    ensures Sound(rows, w')
  {
    forall o | o in rows ensures RowOk(o, rows[o], w'.log) {
      assert RowOk(o, rows[o], w.log);
    }
    forall o | o in w'.files ensures o in w.files {
      assert o != id ==> o in w'.files - {id};
    }
  }

  lemma {:induction false} RowInsert(rows: Rows, w: World, id: string, r: Row)
    requires Sound(rows, w) && id !in rows && !Busy(rows) && r.state == Queued && r.intent.None? && r.revision >= 1
    requires forall o | o in rows :: rows[o].revision < r.revision && rows[o].key != r.key
    ensures Sound(rows[id := r], w)
  {
  }

  lemma {:induction false} RowUpdate(rows: Rows, w: World, id: string, r: Row)
    requires Sound(rows, w) && id in rows && RowOk(id, r, w.log)
    requires r.revision == rows[id].revision && r.key == rows[id].key && (Unfinished(r) ==> Unfinished(rows[id]))
    requires rows[id].intent.Some? ==> r.intent == rows[id].intent
    ensures Sound(rows[id := r], w)
  {
  }

  /** The deployment that last succeeded. */
  ghost predicate LastSuccess(rows: Rows, id: string) {
    && id in rows && rows[id].state == Done(Succeeded)
    && forall o | o in rows && rows[o].state == Done(Succeeded) :: rows[o].revision <= rows[id].revision
  }

  ghost predicate Queues(rows: Rows, id: string) {
    id in rows && rows[id].state == Queued
  }

  /** The row is on its way: its intent asks for it within ten minutes, over what last succeeded. */
  ghost predicate UnderWay(rows: Rows, rows': Rows, id: string, now: int) {
    && id in rows && id in rows' && rows'[id].intent.Some?
    && rows' == rows[id := rows[id].(state := Running, intent := rows'[id].intent)]
    && var q := rows'[id].intent.value;
       && Matches(id, rows[id], q) && q.activateBefore == now + 600
       && (if q.previous.None? then forall o | o in rows :: rows[o].state != Done(Succeeded)
           else exists o :: LastSuccess(rows, o) && rows[o].release == q.previous.value)
  }

  /** The table follows the observation: a verdict ends the row, anything else leaves it. */
  predicate Followed(rows: Rows, rows': Rows, id: string, observed: Result<Verdict>, result: Result<()>) {
    && (result.Ok? ==> observed.Ok?) && id in rows
    && rows' == if result.Ok? && observed.value != Unsettled then rows[id := rows[id].(state := Done(observed.value))] else rows
  }

  /** The table says what was last reported about the row, if that settles it. */
  predicate Concluded(rows: Rows, rows': Rows, id: string, log: seq<Event>) {
    && id in rows && rows[id].intent.Some? && |log| > 0
    && var last := log[|log| - 1];
       && last.Reported? && last.q == rows[id].intent.value
       && rows' == if last.verdict == Unsettled then rows else rows[id := rows[id].(state := Done(last.verdict))]
  }

  lemma {:induction false} RowFinish(rows: Rows, w: World, id: string, v: Verdict)
    requires Sound(rows, w) && id in rows && rows[id].state == Running && v != Unsettled
    requires rows[id].intent.Some? && |w.log| > 0 && w.log[|w.log| - 1] == Reported(rows[id].intent.value, v)
    ensures Sound(rows[id := rows[id].(state := Done(v))], w) && Extends(rows, rows[id := rows[id].(state := Done(v))])
  {
    assert RowOk(id, rows[id], w.log);
    RowUpdate(rows, w, id, rows[id].(state := Done(v)));
  }

  /** The worker's dispatch of a committed intent. */
  lemma {:induction false} SoundAfterSubmit(rows: Rows, w: World, w': World, q: Request)
    requires Sound(rows, w) && Intended(rows, q) && Matches(q.deployment, rows[q.deployment], q)
    requires w'.log == w.log || w'.log == w.log + [Asked(q)]
    requires Only(w.files, w'.files, q.deployment)
    requires w'.fence == w.fence || w'.fence == Some(Fence(q.revision, q.deployment))
    ensures Sound(rows, w')
  {
    assert w.log <= w'.log;
    forall id | id in rows ensures RowOk(id, rows[id], w'.log) {
      assert RowOk(id, rows[id], w.log);
    }
    forall id | id in w'.files ensures id in rows && rows[id].intent.Some? {
      assert id != q.deployment ==> id in w'.files - {q.deployment};
    }
  }

  class Portal {
    const worker: Worker
    var rows: Rows

    ghost predicate Valid()
      reads this, worker
    {
      worker.Valid() && worker.call.None? && Sound(rows, worker.View())
    }

    constructor (w: Worker)
      requires w.Valid() && w.View() == START
      ensures Valid() && worker == w && rows == map[]
    {
      worker := w;
      rows := map[];
    }

    /** The row a query `ORDER BY revision LIMIT 1` finds in this state; at most one is unfinished. */
    method Find(state: State) returns (found: Option<string>)
      requires state == Queued || state == Running
      ensures found.None? ==> forall id | id in rows :: rows[id].state != state
      ensures found.Some? ==>
                && found.value in rows && rows[found.value].state == state
                && forall id | id in rows && rows[id].state == state :: rows[found.value].revision <= rows[id].revision
    {
      found := None;
      var todo := rows.Keys;
      while todo != {}
        invariant todo <= rows.Keys
        invariant found.None? ==> forall id | id in rows && id !in todo :: rows[id].state != state
        invariant found.Some? ==>
                    && found.value in rows && rows[found.value].state == state
                    && forall id | id in rows && id !in todo && rows[id].state == state :: rows[found.value].revision <= rows[id].revision
        decreases |todo|
      {
        var id :| id in todo;
        todo := todo - {id};
        if rows[id].state == state && (found.None? || rows[id].revision < rows[found.value].revision) {
          found := Some(id);
        }
      }
    }

    method Previous() returns (found: Option<string>)
      ensures found.None? ==> forall id | id in rows :: rows[id].state != Done(Succeeded)
      ensures found.Some? ==> LastSuccess(rows, found.value)
    {
      found := None;
      var todo := rows.Keys;
      while todo != {}
        invariant todo <= rows.Keys
        invariant found.None? ==> forall id | id in rows && id !in todo :: rows[id].state != Done(Succeeded)
        invariant found.Some? ==>
                    && found.value in rows && rows[found.value].state == Done(Succeeded)
                    && forall o | o in rows && o !in todo && rows[o].state == Done(Succeeded) :: rows[o].revision <= rows[found.value].revision
        decreases |todo|
      {
        var id :| id in todo;
        todo := todo - {id};
        if rows[id].state == Done(Succeeded) && (found.None? || rows[found.value].revision < rows[id].revision) {
          found := Some(id);
        }
      }
    }

    /** The row of a request key. */
    method FindKey(key: string) returns (found: Option<string>)
      ensures found.None? ==> forall id | id in rows :: rows[id].key != key
      ensures found.Some? ==> found.value in rows && rows[found.value].key == key
    {
      var todo := rows.Keys;
      while todo != {}
        invariant todo <= rows.Keys
        invariant forall id | id in rows && id !in todo :: rows[id].key != key
        decreases |todo|
      {
        var id :| id in todo;
        if rows[id].key == key { return Some(id); }
        todo := todo - {id};
      }
      return None;
    }

    method LastRevision() returns (last: int, unfinished: bool)
      requires forall id | id in rows :: rows[id].revision >= 1
      ensures last >= 0 && forall id | id in rows :: rows[id].revision <= last
      ensures unfinished <==> Busy(rows)
    {
      last, unfinished := 0, false;
      var todo := rows.Keys;
      while todo != {}
        invariant todo <= rows.Keys && last >= 0
        invariant forall id | id in rows && id !in todo :: rows[id].revision <= last
        invariant unfinished <==> exists id | id in rows && id !in todo :: Unfinished(rows[id])
        decreases |todo|
      {
        var id :| id in todo;
        todo := todo - {id};
        if rows[id].revision > last { last := rows[id].revision; }
        if Unfinished(rows[id]) { unfinished := true; }
      }
    }

    /** `RequestContainerDeployment`, for a fresh random identity. A known key gives its deployment back;
        a new one is queued above all others while nothing is unfinished, on the runtime that is live. */
    method RequestContainerDeployment(id: string, key: string, release: Release, runtime: string) returns (result: Result<string>)
      requires Valid() && id !in rows
      modifies this
      ensures Valid() && Extends(old(rows), rows)
      ensures forall o | o in old(rows) && old(rows)[o].key == key ::
                && rows == old(rows)
                && result == if old(rows)[o].release == release && old(rows)[o].runtime == runtime then Ok(o) else Err(ErrConflict)
      ensures (forall o | o in old(rows) :: old(rows)[o].key != key) ==>
                (result.Ok? <==>
                  && !old(Busy(rows)) && |old(rows)| < 1000
                  && forall o | LastSuccess(old(rows), o) :: old(rows)[o].runtime == runtime)
      ensures rows != old(rows) ==>
                && result == Ok(id) && id in rows && rows == old(rows)[id := Row(key, release, runtime, rows[id].revision, Queued, None)]
                && forall o | o in old(rows) :: old(rows)[o].revision < rows[id].revision
      ensures result == Ok(id) ==> rows != old(rows)
    {
      var known := FindKey(key);
      if known.Some? {
        var row := rows[known.value];
        return if row.release == release && row.runtime == runtime then Ok(known.value) else Err(ErrConflict);
      }
      var last, unfinished := LastRevision();
      if unfinished { return Err(ErrConflict); }
      if |rows| >= MAX_DEPLOYMENTS { return Err(ErrCapacity); }
      var previous := Previous();
      if previous.Some? && rows[previous.value].runtime != runtime { return Err(ErrConflict); }
      var row := Row(key, release, runtime, last + 1, Queued, None);
      RowInsert(rows, worker.View(), id, row);
      rows := rows[id := row];
      return Ok(id);
    }

    /** `CancelContainerDeployment`: only what was never dispatched. */
    method CancelContainerDeployment(id: string) returns (result: Result<()>)
      requires Valid()
      modifies this
      ensures Valid() && Extends(old(rows), rows)
      ensures result.Ok? <==> id in old(rows) && (old(rows)[id].state == Queued || old(rows)[id].state == Cancelled)
      ensures rows == if result.Ok? then old(rows)[id := old(rows)[id].(state := Cancelled)] else old(rows)
    {
      if id !in rows { return Err(ErrNotFound); }
      if rows[id].state == Cancelled {
        assert rows == rows[id := rows[id].(state := Cancelled)];
        return Ok(());
      }
      if rows[id].state != Queued { return Err(ErrConflict); }
      RowUpdate(rows, worker.View(), id, rows[id].(state := Cancelled));
      rows := rows[id := rows[id].(state := Cancelled)];
      return Ok(());
    }

    /** `DispatchContainerDeployment`: the intent is committed, then submitted, once. What may not be
        deployed any more is cancelled instead. */
    method DispatchContainerDeployment(a: Assignment, candidates: bool, allowed: bool, renderable: bool, client: Client, told: Option<Withdrawal>)
      returns (worked: bool, result: Result<()>, ghost id: string)
      requires Valid()
      modifies this, worker
      ensures Valid() && Extends(old(rows), rows)
      ensures (exists o :: Queues(old(rows), o)) ==> Queues(old(rows), id)
      ensures !Queues(old(rows), id) ==> !worked && result.Ok? && rows == old(rows) && worker.log == old(worker.log)
      ensures Queues(old(rows), id) && !allowed ==>
                worked && result.Ok? && rows == old(rows)[id := old(rows)[id].(state := Cancelled)] && worker.log == old(worker.log)
      ensures Queues(old(rows), id) && allowed && !renderable ==>
                !worked && result.Err? && rows == old(rows) && worker.log == old(worker.log)
      ensures Queues(old(rows), id) && allowed && renderable ==>
                && worked && UnderWay(old(rows), rows, id, old(worker.now))
                && (worker.log == old(worker.log) || worker.log == old(worker.log) + [Asked(rows[id].intent.value)])
                && (worker.env.calm && Container.Valid(a, rows[id].intent.value) && (candidates ==> client.tracks && client.candidates) ==>
                      worker.log == old(worker.log) + [Asked(rows[id].intent.value)])
    {
      id := "";
      var found := Find(Queued);
      if found.None? {
        assert forall o :: !Queues(rows, o);
        return false, Ok(()), id;
      }
      id := found.value;
      if !allowed {
        var _ := CancelContainerDeployment(found.value);
        return true, Ok(()), id;
      }
      if !renderable { return false, Err(ErrInvalid), id; }
      var q := Commit(a, found.value);
      var cut := worker.env.Fault();
      if cut { return true, Err(ErrInterrupted), id; }
      result := Submit(a, q, candidates, client, told);
      return true, result, id;
    }

    /** Writes the intent of a queued row. */
    method Commit(a: Assignment, id: string) returns (q: Request)
      requires Valid() && Queues(rows, id)
      modifies this
      ensures Valid() && Extends(old(rows), rows) && UnderWay(old(rows), rows, id, worker.now) && rows[id].intent == Some(q)
      ensures q.deployment == id && id !in worker.files && FenceAdmits(worker.fence, q)
    {
      var last := Previous();
      var row := rows[id];
      var previous := if last.Some? then Some(rows[last.value].release) else None;
      q := Request(id, a.id, row.release.id, row.runtime, row.revision, true, row.release, previous, worker.now + ACTIVATION_WINDOW);
      NeverStale(rows, worker.View(), id, q);
      RowUpdate(rows, worker.View(), id, row.(state := Running, intent := Some(q)));
      rows := rows[id := row.(state := Running, intent := Some(q))];
    }

    method Submit(a: Assignment, q: Request, candidates: bool, client: Client, told: Option<Withdrawal>) returns (result: Result<()>)
      requires Valid() && Intended(rows, q) && Matches(q.deployment, rows[q.deployment], q) && q.deployment !in worker.files
      requires q.activateBefore == worker.now + 600 && FenceAdmits(worker.fence, q)
      modifies worker
      ensures Valid() && (worker.log == old(worker.log) || worker.log == old(worker.log) + [Asked(q)])
      ensures worker.env.calm && Container.Valid(a, q) && (candidates ==> client.tracks && client.candidates) ==>
                worker.log == old(worker.log) + [Asked(q)]
    {
      ghost var before := worker.View();
      result := worker.SubmitContainerRuntime(a, q, candidates, client, told);
      SoundAfterSubmit(rows, before, worker.View(), q);
    }

    /** `ReconcileContainerDeployment`: recorded intent, fresh matching evidence, one final write. */
    method ReconcileContainerDeployment(a: Assignment, enabled: bool, allowed: bool, previousHealthy: bool, releaseHealthy: bool, reply: Reply)
      returns (worked: bool, result: Result<()>, ghost id: string, ghost observed: Result<Verdict>)
      requires Valid()
      modifies this, worker
      ensures Valid() && Extends(old(rows), rows) && old(worker.log) <= worker.log
      ensures worked <==> exists o | o in old(rows) :: old(rows)[o].state == Running
      ensures worked ==> id in old(rows) && old(rows)[id].state == Running && old(rows)[id].intent.Some?
      ensures forall i | |old(worker.log)| <= i < |worker.log| :: !worker.log[i].Asked?
      ensures !worked || result.Err? ==> rows == old(rows)
      ensures !worked ==> result.Ok? && worker.View() == old(worker.View())
      ensures worked && result.Ok? ==> Concluded(old(rows), rows, id, worker.log)
      ensures worked && old(Answerable(worker.View(), a, rows[id].intent.value) && !(enabled && worker.Eligible(a, rows[id].intent.value))) ==>
                && Says(old(worker.View()), a, old(rows)[id].intent.value, previousHealthy, releaseHealthy, reply, observed)
                && Followed(old(rows), rows, id, observed, result) && (worker.env.calm && observed.Ok? ==> result.Ok?)
    {
      id, observed := "", Err(ErrInvalid);
      var found := Find(Running);
      if found.None? { return false, Ok(()), id, observed; }
      id := found.value;
      assert RowOk(id, rows[id], worker.log);
      result, observed := ReconcileRow(a, found.value, rows[found.value].intent.value, enabled, allowed, previousHealthy, releaseHealthy, reply);
      return true, result, id, observed;
    }

    method ReconcileRow(a: Assignment, id: string, q: Request, enabled: bool, allowed: bool, previousHealthy: bool, releaseHealthy: bool, reply: Reply)
      returns (result: Result<()>, ghost observed: Result<Verdict>)
      requires Valid() && id in rows && rows[id].state == Running && rows[id].intent == Some(q)
      modifies this, worker
      ensures Valid() && Extends(old(rows), rows) && old(worker.log) <= worker.log
      ensures forall i | |old(worker.log)| <= i < |worker.log| :: !worker.log[i].Asked?
      ensures if result.Ok? then Concluded(old(rows), rows, id, worker.log) else rows == old(rows)
      ensures old(Answerable(worker.View(), a, q) && !(enabled && worker.Eligible(a, q))) ==>
                && Says(old(worker.View()), a, q, previousHealthy, releaseHealthy, reply, observed)
                && Followed(old(rows), rows, id, observed, result) && (worker.env.calm && observed.Ok? ==> result.Ok?)
    {
      observed := Err(ErrInvalid);
      result := Advance(a, q, enabled, allowed, reply);
      if result.Err? { return result, observed; }
      result, observed := Conclude(a, id, q, previousHealthy, releaseHealthy, reply);
    }

    /** Activation is allowed while the deployment is, and its deadline has not passed. */
    method Advance(a: Assignment, q: Request, enabled: bool, allowed: bool, reply: Reply) returns (result: Result<()>)
      requires Valid()
      modifies worker
      ensures Valid() && old(worker.log) <= worker.log
      ensures forall i | |old(worker.log)| <= i < |worker.log| :: !worker.log[i].Asked?
      ensures old(Answerable(worker.View(), a, q) && !(enabled && worker.Eligible(a, q))) ==> result.Ok? && worker.View() == old(worker.View())
    {
      ghost var before := worker.View();
      result := worker.AdvanceContainerRuntime(a, q, enabled, allowed && q.activateBefore > worker.now, reply);
      SoundAfterLog(rows, before, worker.View(), q.deployment);
    }

    method Conclude(a: Assignment, id: string, q: Request, previousHealthy: bool, releaseHealthy: bool, reply: Reply)
      returns (result: Result<()>, ghost told: Result<Verdict>)
      requires Valid() && id in rows && rows[id].state == Running && rows[id].intent == Some(q)
      modifies this, worker
      ensures Valid() && Extends(old(rows), rows) && old(worker.log) <= worker.log
      ensures forall i | |old(worker.log)| <= i < |worker.log| :: !worker.log[i].Asked?
      ensures result.Ok? ==> Concluded(old(rows), rows, id, worker.log)
      ensures result.Err? ==> rows == old(rows)
      ensures Says(old(worker.View()), a, q, previousHealthy, releaseHealthy, reply, told)
      ensures Followed(old(rows), rows, id, told, result) && (worker.env.calm && told.Ok? ==> result.Ok?)
    {
      var observed := Observe(a, q, previousHealthy, releaseHealthy, reply);
      told := observed;
      if observed.Err? { return Err(observed.error), told; }
      var stale := worker.env.Fault();
      if stale { return Err(ErrInvalid), told; }
      if observed.value == Unsettled { return Ok(()), told; }
      RowFinish(rows, worker.View(), id, observed.value);
      rows := rows[id := rows[id].(state := Done(observed.value))];
      return Ok(()), told;
    }

    method Observe(a: Assignment, q: Request, previousHealthy: bool, releaseHealthy: bool, reply: Reply) returns (observed: Result<Verdict>)
      requires Valid()
      modifies worker
      ensures Valid()
      ensures worker.log == if observed.Ok? then old(worker.log) + [Reported(q, observed.value)] else old(worker.log)
      ensures Says(old(worker.View()), a, q, previousHealthy, releaseHealthy, reply, observed)
    {
      ghost var before := worker.View();
      observed := worker.InspectContainerRuntime(a, q, previousHealthy, releaseHealthy, reply);
      SoundAfterLog(rows, before, worker.View(), q.deployment);
    }

    /** `WorkContainerDeployment`: reconcile first, dispatch only when nothing runs. */
    method WorkContainerDeployment(a: Assignment, candidates: bool, enabled: bool, allowed: bool, renderable: bool,
                                   previousHealthy: bool, releaseHealthy: bool, reply: Reply, client: Client, told: Option<Withdrawal>)
      returns (worked: bool, result: Result<()>)
      requires Valid()
      modifies this, worker
      ensures Valid() && Extends(old(rows), rows) && old(worker.log) <= worker.log
      ensures (exists o | o in old(rows) :: old(rows)[o].state == Running) ==>
                forall i | |old(worker.log)| <= i < |worker.log| :: !worker.log[i].Asked?
      ensures (exists o :: Queues(old(rows), o)) && (forall o | o in old(rows) :: old(rows)[o].state != Running) && allowed && renderable ==>
                exists o :: Queues(old(rows), o) && UnderWay(old(rows), rows, o, old(worker.now))
    {
      ghost var id, observed;
      worked, result, id, observed := ReconcileContainerDeployment(a, enabled, allowed, previousHealthy, releaseHealthy, reply);
      if worked || result.Err? { return; }
      worked, result, id := DispatchContainerDeployment(a, candidates, allowed, renderable, client, told);
    }
  }
}
