/** The durable inbox of accepted deployments (internal/noderuntime/inbox.go). */
module Inbox {
  import opened Common

  datatype Assignment = Assignment(project: string, runtime: string, toolchain: string, arch: string)

  datatype Request = Request(
    project: string, runtime: string, op: string, deployment: string, release: string,
    artifact: string, toolchain: string, arch: string,
    revision: int, activateBefore: int, archive: seq<bv8>)

  datatype WorkState = Queued | Processing | Settled

  datatype Work = Work(request: Request, state: WorkState)

  /** The `deployments` table, keyed by operation. */
  type Rows = map<string, Work>

  const MAX_DEPLOYMENTS := 1000
  const MAX_BYTES := 200 * 1024 * 1024
  const SUBMIT_WINDOW := 90

  /** The identity checks a request must pass before anything is stored. */
  predicate Accepts(a: Assignment, r: Request) {
    && r.project == a.project && r.runtime == a.runtime && r.toolchain == a.toolchain && r.arch == a.arch
    && Digest(r.op) && Digest(r.deployment) && Digest(r.release) && Digest(r.artifact)
    && r.revision >= 1
  }

  /** Bytes retained by the rows whose operation is in `ops`. */
  ghost function Bytes(rows: Rows, ops: set<string>): nat
    requires ops <= rows.Keys
    decreases |ops|
  {
    if ops == {} then 0
    else
      var op :| op in ops;
      |rows[op].request.archive| + Bytes(rows, ops - {op})
  }

  lemma {:induction false} BytesRemove(rows: Rows, ops: set<string>, op: string)
    requires ops <= rows.Keys && op in ops
    ensures Bytes(rows, ops) == |rows[op].request.archive| + Bytes(rows, ops - {op})
    decreases |ops|
  {
    var first :| first in ops && Bytes(rows, ops) == |rows[first].request.archive| + Bytes(rows, ops - {first});
    if first != op {
      BytesRemove(rows, ops - {first}, op);
      BytesRemove(rows, ops - {op}, first);
      assert ops - {first} - {op} == ops - {op} - {first};
    }
  }

  lemma {:induction false} BytesFrame(rows: Rows, rows': Rows, ops: set<string>)
    requires ops <= rows.Keys && ops <= rows'.Keys
    requires forall op | op in ops :: rows[op].request == rows'[op].request
    ensures Bytes(rows, ops) == Bytes(rows', ops)
    decreases |ops|
  {
    if ops != {} {
      var op :| op in ops;
      BytesRemove(rows, ops, op);
      BytesRemove(rows', ops, op);
      BytesFrame(rows, rows', ops - {op});
    }
  }

  ghost predicate RevisionTaken(rows: Rows, revision: int) {
    exists op | op in rows :: rows[op].request.revision >= revision
  }

  ghost predicate DeploymentTaken(rows: Rows, deployment: string) {
    exists op | op in rows :: rows[op].request.deployment == deployment
  }

  /** `SubmitNodeRuntime`: `valid` is the verdict of the archive validator, `now` the clock. */
  ghost function SubmitTx(a: Assignment, rows: Rows, r: Request, valid: bool, now: int): Tx<Rows, ()> {
    if !Accepts(a, r) then Tx(rows, Err(ErrAssignment))
    else if !valid then Tx(rows, Err(ErrArtifact))
    else if r.op in rows then
      Tx(rows, if rows[r.op].request == r then Ok(()) else Err(ErrConflict))
    else if r.activateBefore <= now || r.activateBefore > now + SUBMIT_WINDOW then Tx(rows, Err(ErrAssignment))
    else if RevisionTaken(rows, r.revision) then Tx(rows, Err(ErrConflict))
    else if |rows| >= MAX_DEPLOYMENTS || Bytes(rows, rows.Keys) + |r.archive| > MAX_BYTES then Tx(rows, Err(ErrCapacity))
    else if DeploymentTaken(rows, r.deployment) then Tx(rows, Err(ErrConflict))
    else Tx(rows[r.op := Work(r, Queued)], Ok(()))
  }

  ghost predicate Busy(rows: Rows) {
    exists op | op in rows :: rows[op].state == Processing
  }

  /** `op` is the queued row that `ORDER BY revision LIMIT 1` selects. */
  ghost predicate NextQueued(rows: Rows, op: string) {
    && op in rows && rows[op].state == Queued
    && forall o | o in rows && rows[o].state == Queued :: rows[op].request.revision <= rows[o].request.revision
  }

  /** A claim that succeeds on `op`. */
  function Claimed(rows: Rows, op: string): Rows
    requires op in rows
  {
    rows[op := rows[op].(state := Processing)]
  }

  /** `Settle`: one row moves to settled, and only from processing or settled. */
  function SettleTx(rows: Rows, op: string): Tx<Rows, ()> {
    if !Digest(op) then Tx(rows, Err(ErrAssignment))
    else if op in rows && rows[op].state != Queued then Tx(rows[op := rows[op].(state := Settled)], Ok(()))
    else Tx(rows, Err(ErrConflict))
  }

  function Rank(w: WorkState): nat {
    match w case Queued => 0 case Processing => 1 case Settled => 2
  }

  ghost predicate Bounded(rows: Rows) {
    |rows| <= MAX_DEPLOYMENTS && Bytes(rows, rows.Keys) <= MAX_BYTES
  }

  ghost predicate WellFormed(a: Assignment, rows: Rows) {
    forall op | op in rows :: rows[op].request.op == op && Accepts(a, rows[op].request)
  }

  /** Revisions and deployments identify rows, and at most one row is processing. */
  ghost predicate Distinct(rows: Rows) {
    forall o, p | o in rows && p in rows && o != p ::
      && rows[o].request.revision != rows[p].request.revision
      && rows[o].request.deployment != rows[p].request.deployment
      && !(rows[o].state == Processing && rows[p].state == Processing)
  }

  /** Work moves forward in strict revision order. */
  ghost predicate Ordered(rows: Rows) {
    forall o, p | o in rows && p in rows && Rank(rows[o].state) > Rank(rows[p].state) ::
      rows[o].request.revision < rows[p].request.revision
  }

  /** What every reachable inbox satisfies. */
  ghost predicate Inv(a: Assignment, rows: Rows) {
    Bounded(rows) && WellFormed(a, rows) && Distinct(rows) && Ordered(rows)
  }

  /** A submission either changes nothing or adds its own row, queued. */
  lemma {:induction false} SubmitShape(a: Assignment, rows: Rows, r: Request, valid: bool, now: int)
    ensures var rows' := SubmitTx(a, rows, r, valid, now).state;
            rows' == rows || (r.op !in rows && rows' == rows[r.op := Work(r, Queued)])
  {
  }

  lemma {:induction false} InsertBounded(rows: Rows, r: Request)
    requires Bounded(rows) && r.op !in rows && |rows| < MAX_DEPLOYMENTS
    requires Bytes(rows, rows.Keys) + |r.archive| <= MAX_BYTES
    ensures Bounded(rows[r.op := Work(r, Queued)])
  {
    var rows' := rows[r.op := Work(r, Queued)];
    assert rows'.Keys - {r.op} == rows.Keys;
    BytesRemove(rows', rows'.Keys, r.op);
    BytesFrame(rows, rows', rows.Keys);
    assert |rows'.Keys| == |rows.Keys| + 1;
  }

  /** Submission never disturbs accepted work and keeps the inbox within its bounds. */
  lemma {:induction false} SubmitPreserves(a: Assignment, rows: Rows, r: Request, valid: bool, now: int)
    requires Inv(a, rows)
    ensures Inv(a, SubmitTx(a, rows, r, valid, now).state)
  {
    if SubmitTx(a, rows, r, valid, now).state != rows {
      SubmitInserts(a, rows, r, valid, now);
      InsertPreserves(a, rows, r);
    }
  }

  /** What a submission must have passed to be stored. */
  ghost predicate Fits(a: Assignment, rows: Rows, r: Request) {
    && Accepts(a, r) && r.op !in rows && |rows| < MAX_DEPLOYMENTS && Bytes(rows, rows.Keys) + |r.archive| <= MAX_BYTES
    && !RevisionTaken(rows, r.revision) && !DeploymentTaken(rows, r.deployment)
  }

  lemma {:induction false} SubmitInserts(a: Assignment, rows: Rows, r: Request, valid: bool, now: int)
    requires SubmitTx(a, rows, r, valid, now).state != rows
    ensures Fits(a, rows, r) && SubmitTx(a, rows, r, valid, now).state == rows[r.op := Work(r, Queued)]
  {
  }

  lemma {:induction false} InsertPreserves(a: Assignment, rows: Rows, r: Request)
    requires Inv(a, rows) && Fits(a, rows, r)
    ensures Inv(a, rows[r.op := Work(r, Queued)])
  {
    InsertBounded(rows, r);
    InsertWellFormed(a, rows, r);
    InsertOrdered(rows, r);
  }

  lemma {:induction false} InsertWellFormed(a: Assignment, rows: Rows, r: Request)
    requires WellFormed(a, rows) && Accepts(a, r)
    ensures WellFormed(a, rows[r.op := Work(r, Queued)])
  {
  }

  lemma {:induction false} InsertOrdered(rows: Rows, r: Request)
    requires Distinct(rows) && Ordered(rows) && r.op !in rows
    requires !RevisionTaken(rows, r.revision) && !DeploymentTaken(rows, r.deployment)
    ensures Distinct(rows[r.op := Work(r, Queued)]) && Ordered(rows[r.op := Work(r, Queued)])
  {
  }

  lemma {:induction false} StateBounded(rows: Rows, op: string, w: WorkState)
    requires op in rows && Bounded(rows)
    ensures Bounded(rows[op := rows[op].(state := w)])
  {
    var rows' := rows[op := rows[op].(state := w)];
    assert rows'.Keys == rows.Keys;
    BytesFrame(rows, rows', rows.Keys);
  }

  lemma {:induction false} StateWellFormed(a: Assignment, rows: Rows, op: string, w: WorkState)
    requires op in rows && WellFormed(a, rows)
    ensures WellFormed(a, rows[op := rows[op].(state := w)])
  {
  }

  /** The claimed operation is later than everything claimed before it. */
  lemma {:induction false} ClaimPreserves(a: Assignment, rows: Rows, op: string)
    requires Inv(a, rows) && !Busy(rows) && NextQueued(rows, op)
    ensures Inv(a, Claimed(rows, op))
    ensures forall o | o in rows && rows[o].state != Queued :: rows[o].request.revision < rows[op].request.revision
  {
    StateBounded(rows, op, Processing);
    StateWellFormed(a, rows, op, Processing);
    ClaimOrdered(rows, op);
  }

  lemma {:induction false} ClaimOrdered(rows: Rows, op: string)
    requires Distinct(rows) && Ordered(rows) && !Busy(rows) && NextQueued(rows, op)
    ensures Distinct(Claimed(rows, op)) && Ordered(Claimed(rows, op))
    ensures forall o | o in rows && rows[o].state != Queued :: rows[o].request.revision < rows[op].request.revision
  {
  }

  lemma {:induction false} SettlePreserves(a: Assignment, rows: Rows, op: string)
    requires Inv(a, rows) && op in rows && rows[op].state == Processing
    ensures Inv(a, SettleTx(rows, op).state)
  {
    StateBounded(rows, op, Settled);
    StateWellFormed(a, rows, op, Settled);
    SettleOrdered(rows, op);
  }

  lemma {:induction false} SettleOrdered(rows: Rows, op: string)
    requires Distinct(rows) && Ordered(rows) && op in rows && rows[op].state == Processing
    ensures Distinct(rows[op := rows[op].(state := Settled)]) && Ordered(rows[op := rows[op].(state := Settled)])
  {
  }

  /** The inbox database of one runtime. */
  class Store {
    const assignment: Assignment
    var rows: Rows

    constructor (a: Assignment)
      ensures assignment == a && rows == map[]
    {
      assignment := a;
      rows := map[];
    }

    /** The aggregate query of `SubmitNodeRuntime`: highest revision, retained bytes, duplicate deployment. */
    method Aggregates(deployment: string) returns (maximum: int, size: nat, duplicate: bool)
      requires forall op | op in rows :: rows[op].request.revision >= 1
      ensures maximum >= 0
      ensures forall revision | revision >= 1 :: RevisionTaken(rows, revision) <==> revision <= maximum
      ensures size == Bytes(rows, rows.Keys)
      ensures duplicate <==> DeploymentTaken(rows, deployment)
    {
      maximum, size, duplicate := 0, 0, false;
      var todo := rows.Keys;
      while todo != {}
        invariant todo <= rows.Keys
        invariant size + Bytes(rows, todo) == Bytes(rows, rows.Keys)
        invariant maximum >= 0
        invariant forall op | op in rows && op !in todo :: rows[op].request.revision <= maximum
        invariant maximum > 0 ==> exists op | op in rows :: rows[op].request.revision == maximum
        invariant duplicate <==> exists op | op in rows && op !in todo :: rows[op].request.deployment == deployment
        decreases |todo|
      {
        var op :| op in todo;
        BytesRemove(rows, todo, op);
        todo := todo - {op};
        size := size + |rows[op].request.archive|;
        if rows[op].request.revision > maximum { maximum := rows[op].request.revision; }
        if rows[op].request.deployment == deployment { duplicate := true; }
      }
    }

    method SubmitNodeRuntime(r: Request, valid: bool, now: int) returns (result: Result<()>)
      requires Inv(assignment, rows)
      modifies this
      ensures Tx(rows, result) == SubmitTx(assignment, old(rows), r, valid, now)
      ensures r.op in old(rows) && Accepts(assignment, r) && valid ==>
                result == if old(rows)[r.op].request == r then Ok(()) else Err(ErrConflict)
      ensures r.op !in old(rows) ==>
                (result.Ok? <==>
                  && r.project == assignment.project && r.runtime == assignment.runtime
                  && r.toolchain == assignment.toolchain && r.arch == assignment.arch
                  && Digest(r.op) && Digest(r.deployment) && Digest(r.release) && Digest(r.artifact) && r.revision >= 1
                  && valid && now < r.activateBefore <= now + 90
                  && (forall op | op in old(rows) :: old(rows)[op].request.revision < r.revision && old(rows)[op].request.deployment != r.deployment)
                  && |old(rows)| < 1000 && old(Bytes(rows, rows.Keys)) + |r.archive| <= 200 * 1024 * 1024)
      ensures rows == if result.Ok? && r.op !in old(rows) then old(rows)[r.op := Work(r, Queued)] else old(rows)
      ensures Inv(assignment, rows)
    {
      SubmitPreserves(assignment, rows, r, valid, now);
      if !Accepts(assignment, r) { return Err(ErrAssignment); }
      if !valid { return Err(ErrArtifact); }
      if r.op in rows {
        if rows[r.op].request != r { return Err(ErrConflict); }
        return Ok(());
      }
      if r.activateBefore <= now || r.activateBefore > now + SUBMIT_WINDOW { return Err(ErrAssignment); }
      var maximum, size, duplicate := Aggregates(r.deployment);
      if r.revision <= maximum { return Err(ErrConflict); }
      if |rows| >= MAX_DEPLOYMENTS || size + |r.archive| > MAX_BYTES { return Err(ErrCapacity); }
      if duplicate { return Err(ErrConflict); }
      rows := rows[r.op := Work(r, Queued)];
      return Ok(());
    }

    /** Unfinished work, if any. */
    method FindProcessing() returns (work: Option<Work>)
      ensures work.None? <==> !Busy(rows)
      ensures work.Some? ==> exists op | op in rows :: rows[op] == work.value && rows[op].state == Processing
    {
      var todo := rows.Keys;
      while todo != {}
        invariant todo <= rows.Keys
        invariant forall op | op in rows && op !in todo :: rows[op].state != Processing
        decreases |todo|
      {
        var op :| op in todo;
        if rows[op].state == Processing { return Some(rows[op]); }
        todo := todo - {op};
      }
      return None;
    }

    /** The lowest queued revision, if anything is queued. */
    method FindNext() returns (best: Option<string>)
      ensures best.None? <==> forall op | op in rows :: rows[op].state != Queued
      ensures best.Some? ==> NextQueued(rows, best.value)
    {
      best := None;
      var todo := rows.Keys;
      while todo != {}
        invariant todo <= rows.Keys
        invariant best.None? ==> forall o | o in rows && o !in todo :: rows[o].state != Queued
        invariant best.Some? ==> best.value in rows && rows[best.value].state == Queued
        invariant best.Some? ==> forall o | o in rows && o !in todo && rows[o].state == Queued ::
                    rows[best.value].request.revision <= rows[o].request.revision
        decreases |todo|
      {
        var op :| op in todo;
        todo := todo - {op};
        if rows[op].state == Queued && (best.None? || rows[op].request.revision < rows[best.value].request.revision) {
          best := Some(op);
        }
      }
    }

    /** `Claim`: `valid` is the verdict of revalidating the stored archive. */
    method Claim(valid: bool) returns (work: Result<Option<Work>>)
      requires Inv(assignment, rows)
      modifies this
      ensures Inv(assignment, rows)
      ensures !(work.Ok? && work.value.Some?) ==> rows == old(rows)
      ensures work == Ok(None) <==> Busy(old(rows)) || forall op | op in old(rows) :: old(rows)[op].state != Queued
      ensures work.Err? ==> work.error == ErrArtifact && !valid
      ensures work.Ok? && work.value.Some? ==>
                var op := work.value.value.request.op;
                && !Busy(old(rows)) && NextQueued(old(rows), op) && rows == Claimed(old(rows), op) && work.value.value == rows[op]
    {
      var pending := FindProcessing();
      if pending.Some? { return Ok(None); }
      var best := FindNext();
      if best.None? { return Ok(None); }
      if !valid { return Err(ErrArtifact); }
      ClaimPreserves(assignment, rows, best.value);
      rows := Claimed(rows, best.value);
      return Ok(Some(rows[best.value]));
    }

    method Settle(op: string) returns (result: Result<()>)
      modifies this
      ensures Tx(rows, result) == SettleTx(old(rows), op)
      ensures result.Ok? <==> Digest(op) && op in old(rows) && old(rows)[op].state != Queued
      ensures rows == if result.Ok? then old(rows)[op := Work(old(rows)[op].request, Settled)] else old(rows)
    {
      if !Digest(op) { return Err(ErrAssignment); }
      if op !in rows || rows[op].state == Queued { return Err(ErrConflict); }
      rows := rows[op := rows[op].(state := Settled)];
      return Ok(());
    }
  }
}
