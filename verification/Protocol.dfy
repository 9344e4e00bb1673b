/** The Node runtime deployment protocol over its four durable stores
    (internal/noderuntime/runner_linux.go, recovery_linux.go and internal/nodelaunch/retire_linux.go).

    A step is one committed transaction or one locked control-file write. The guard of a step
    speaks of durable state only, so a crash between two steps loses nothing the guard needs:
    runs of these steps are exactly what survives crashes, restarts and retries. `Runner` proves
    that the imperative control flow takes no other steps. */
module Protocol {
  import opened Common
  import Inbox
  import Pool
  import Gate
  import Router

  datatype System = System(inbox: Inbox.Assignment, pool: Pool.Config, router: Router.Config)

  datatype Stores = Stores(inbox: Inbox.Rows, pool: Pool.Rows, gate: Gate.Files, router: Router.Db)

  const EMPTY := Stores(map[], map[], map[], Router.EMPTY)

  /** One configuration pins all four stores, and every slot has its listener. */
  ghost predicate ValidSystem(sys: System) {
    && Pool.ValidConfig(sys.pool) && Router.ValidConfig(sys.router)
    && sys.inbox == Inbox.Assignment(sys.pool.project, sys.pool.runtime, sys.pool.toolchain, sys.pool.arch)
    && sys.router.project == sys.pool.project && sys.router.runtime == sys.pool.runtime
    && forall slot | slot in sys.pool.slots :: HasBackend(sys, slot.port)
  }

  ghost predicate HasBackend(sys: System, port: int) {
    exists b | b in sys.router.backends :: sys.router.backends[b] == port
  }

  /** The listener pinned to a port. */
  ghost function Backend(sys: System, port: int): string {
    if HasBackend(sys, port) then var b :| b in sys.router.backends && sys.router.backends[b] == port; b else ""
  }

  /** The slot request the runner derives from accepted work. */
  function Wanted(r: Inbox.Request): Pool.Assignment {
    Pool.Assignment(0, r.op, r.project, r.runtime, r.artifact, r.toolchain, r.arch, Pool.PREFIX + r.op, 0)
  }

  /** The routing candidate of accepted work on the slot with this port. */
  ghost function Candidate(sys: System, r: Inbox.Request, port: int): Router.Candidate {
    Router.Candidate(r.project, r.runtime, r.deployment, r.op, r.revision, r.artifact, Backend(sys, port))
  }

  ghost function CandidateOf(sys: System, s: Stores, op: string): Router.Candidate
    requires op in s.inbox && op in s.pool
  {
    Candidate(sys, s.inbox[op].request, s.pool[op].assignment.port)
  }

  predicate Processing(s: Stores, op: string) {
    op in s.inbox && s.inbox[op].state == Inbox.Processing
  }

  /** The operation that serves the site. */
  function Served(db: Router.Db): Option<string> {
    if db.route.active.Some? then Some(db.route.active.value.op) else None
  }

  predicate Serves(s: Stores, op: string) {
    Served(s.router) == Some(op)
  }

  /** The operation being processed. */
  ghost function InProgress(rows: Inbox.Rows): Option<string> {
    if Inbox.Busy(rows) then var op :| op in rows && rows[op].state == Inbox.Processing; Some(op) else None
  }

  lemma {:induction false} InProgressIs(rows: Inbox.Rows, op: string)
    requires Inbox.Distinct(rows) && op in rows && rows[op].state == Inbox.Processing
    ensures InProgress(rows) == Some(op)
  {
  }

  // ---------------------------------------------------------------- steps

  datatype Step =
    | Submit(r: Inbox.Request, valid: bool, now: int)
    | Claim(op: string)
    | Reserve(op: string)
    | Prepare(op: string, m: Pool.Manifest)
    | Install(op: string, ran: bool)
    | Record(op: string, m: Pool.Manifest, at: int)
    | ClaimStart(op: string)
    | Start(op: string, ran: bool)
    | ActivateBegin(op: string)
    | ActivateCommit(op: string, healthy: bool)
    | FenceOff(op: string)
    | PublishFailed(op: string)
    | BeginRetirement(op: string)
    | RetireGate(op: string)
    | FreeSlot(op: string, o: Pool.Observation)
    | Settle(op: string)

  /** The operation was started through the gate on a claimed, installed slot. */
  predicate Started(pool: Pool.Rows, gate: Gate.Files, op: string) {
    && op in pool && pool[op].state == Pool.Starting
    && op in gate && gate[op].started && !gate[op].retired
  }

  ghost predicate Enabled(sys: System, s: Stores, step: Step) {
    match step
    case Submit(_, _, _) => true
    case Claim(op) => !Inbox.Busy(s.inbox) && Inbox.NextQueued(s.inbox, op)
    case Reserve(op) => Processing(s, op)
    case Prepare(op, _) => Processing(s, op) && op in s.pool
    case Install(op, _) => Processing(s, op) && op in s.pool && s.pool[op].attempted && s.pool[op].state == Pool.Reserved
    case Record(op, _, _) => Processing(s, op) && op in s.pool && op in s.gate && s.gate[op].installed
    case ClaimStart(op) => Processing(s, op)
    case Start(op, _) => Processing(s, op) && op in s.pool && s.pool[op].state == Pool.Starting
    case ActivateBegin(op) => Processing(s, op) && Started(s.pool, s.gate, op)
    case ActivateCommit(op, _) => Processing(s, op) && Started(s.pool, s.gate, op)
    case FenceOff(op) => op in s.inbox && op in s.pool
    case PublishFailed(op) => Processing(s, op) && op in s.pool && op in s.router.retired
    case BeginRetirement(op) => op in s.pool && !Serves(s, op)
    case RetireGate(op) => op in s.pool && s.pool[op].state == Pool.Retiring && op in s.router.retired && !Serves(s, op)
    case FreeSlot(op, o) => op in s.pool && op in s.gate && s.gate[op].retired && op in s.router.retired
                            && Pool.Vacated(o, s.pool[op].assignment)
    case Settle(op) => Processing(s, op) && op in s.pool && (Replaced(s, op) || s.pool[op].state == Pool.Retired)
  }

  /** The operation serves and everything before it is retired. */
  predicate Replaced(s: Stores, op: string) {
    Serves(s, op) && forall o | o in s.pool && o != op :: s.pool[o].state == Pool.Retired
  }

  ghost function Apply(sys: System, s: Stores, step: Step): Stores
    requires ValidSystem(sys) && Enabled(sys, s, step)
  {
    match step
    case Submit(r, valid, now) => s.(inbox := Inbox.SubmitTx(sys.inbox, s.inbox, r, valid, now).state)
    case Claim(op) => s.(inbox := Inbox.Claimed(s.inbox, op))
    case Reserve(op) => s.(pool := Pool.ReserveTx(sys.pool, s.pool, Wanted(s.inbox[op].request)).state)
    case Prepare(op, m) => s.(pool := Pool.PrepareTx(s.pool, op, s.pool[op].assignment, m).state)
    case Install(op, _) => s.(gate := Gate.IntentTx(s.gate, s.pool[op].assignment, Gate.Install).state)
    case Record(op, m, at) => s.(pool := Pool.ReceiptTx(s.pool, op, s.pool[op].assignment, m, at).state)
    case ClaimStart(op) => s.(pool := Pool.ClaimStartTx(s.pool, op).state)
    case Start(op, _) => s.(gate := Gate.IntentTx(s.gate, s.pool[op].assignment, Gate.Start).state)
    case ActivateBegin(op) => s.(router := Router.BeginTx(sys.router, s.router, CandidateOf(sys, s, op)).state)
    case ActivateCommit(op, healthy) => s.(router := Router.CommitTx(s.router, CandidateOf(sys, s, op), healthy).state)
    case FenceOff(op) => s.(router := Router.FenceTx(sys.router, s.router, CandidateOf(sys, s, op)).state)
    case PublishFailed(op) => s.(router := Router.RejectTx(s.router, CandidateOf(sys, s, op)).state)
    case BeginRetirement(op) => s.(pool := Pool.BeginRetirementTx(s.pool, op).state)
    case RetireGate(op) => s.(gate := Gate.IntentTx(s.gate, s.pool[op].assignment, Gate.Retire).state)
    case FreeSlot(op, o) => s.(pool := Pool.RetireTx(s.pool, op, s.pool[op].assignment, o).state)
    case Settle(op) => s.(inbox := Inbox.SettleTx(s.inbox, op).state)
  }

  // ---------------------------------------------------------------- invariant

  /** Slots are held for claimed work, under that work's identity; settled work has held one. */
  ghost predicate Linked(inbox: Inbox.Rows, pool: Pool.Rows) {
    && (forall op | op in pool ::
          && op in inbox && inbox[op].state != Inbox.Queued
          && pool[op].assignment == Pool.Place(Wanted(inbox[op].request), Pool.HeldSlot(pool[op])))
    && (forall op | op in inbox && inbox[op].state == Inbox.Settled :: op in pool)
  }

  /** What a control file says, the pool and the router have recorded first. */
  predicate GateBacked(c: Gate.Control, r: Pool.Reservation, tombstone: bool) {
    && c.assignment == r.assignment
    && (c.started ==> c.installed && r.installed.Some?)
    && (c.installed ==> r.attempted)
    && (c.retired ==> tombstone && (r.state == Pool.Retiring || r.state == Pool.Retired))
  }

  /** What the pool claims about the host, the gate has recorded first. */
  predicate PoolBacked(r: Pool.Reservation, c: Option<Gate.Control>) {
    && (r.installed.Some? ==> c.Some? && c.value.installed)
    && (r.state == Pool.Retired ==> c.Some? && c.value.retired)
  }

  function Control(gate: Gate.Files, op: string): Option<Gate.Control> {
    if op in gate then Some(gate[op]) else None
  }

  ghost predicate Gated(pool: Pool.Rows, gate: Gate.Files, retired: map<string, Router.Candidate>) {
    && (forall op | op in gate :: op in pool && GateBacked(gate[op], pool[op], op in retired))
    && (forall op | op in pool :: PoolBacked(pool[op], Control(gate, op)))
  }

  /** The candidate of work that holds or held a slot. */
  ghost predicate Known(sys: System, inbox: Inbox.Rows, pool: Pool.Rows, c: Router.Candidate) {
    c.op in inbox && c.op in pool && c == Candidate(sys, inbox[c.op].request, pool[c.op].assignment.port)
  }

  ghost predicate Routed(sys: System, inbox: Inbox.Rows, pool: Pool.Rows, db: Router.Db) {
    && (forall op | op in db.retired :: db.retired[op].op == op && Known(sys, inbox, pool, db.retired[op]))
    && (db.route.status != Router.Unset ==> Known(sys, inbox, pool, db.route.fence))
    && (db.route.active.Some? ==> Known(sys, inbox, pool, db.route.active.value))
  }

  /** Whatever serves was started on its slot through the gate, and neither is being taken away. */
  predicate Backed(pool: Pool.Rows, gate: Gate.Files, served: Option<string>) {
    served.Some? ==> Started(pool, gate, served.value)
  }

  /** Only the serving and the processing operation occupy slots; while a replacement serves
      before it is settled, so does the one it replaced. */
  ghost predicate Occupied(pool: Pool.Rows, busy: Option<string>, served: Option<string>) {
    && (forall op | op in pool && Pool.Live(pool[op]) && busy != Some(op) ::
          served == Some(op) || (busy.Some? && served == busy))
    && (forall o, q | o in pool && q in pool && Pool.Live(pool[o]) && Pool.Live(pool[q])
                      && busy.Some? && busy.value != o && busy.value != q :: o == q)
  }

  /** The processing operation never shares a listener with a different serving one. */
  predicate Apart(pool: Pool.Rows, busy: Option<string>, served: Option<string>) {
    busy.Some? && served.Some? && busy != served && busy.value in pool && served.value in pool ==>
      pool[busy.value].assignment.port != pool[served.value].assignment.port
  }

  ghost predicate Inv(sys: System, s: Stores) {
    && Inbox.Inv(sys.inbox, s.inbox)
    && Pool.Inv(sys.pool, s.pool)
    && Router.Inv(sys.router, s.router)
    && Agree(sys, s)
  }

  /** What ties the four stores together. */
  ghost predicate Agree(sys: System, s: Stores) {
    && Linked(s.inbox, s.pool)
    && Gated(s.pool, s.gate, s.router.retired)
    && Routed(sys, s.inbox, s.pool, s.router)
    && Backed(s.pool, s.gate, Served(s.router))
    && Occupied(s.pool, InProgress(s.inbox), Served(s.router))
    && Apart(s.pool, InProgress(s.inbox), Served(s.router))
  }

  // ---------------------------------------------------------------- inbox steps

  lemma {:induction false} SubmitStep(sys: System, s: Stores, step: Step)
    requires ValidSystem(sys) && Inv(sys, s) && Enabled(sys, s, step) && step.Submit?
    ensures Inv(sys, Apply(sys, s, step))
  {
    var Submit(r, valid, now) := step;
    Inbox.SubmitPreserves(sys.inbox, s.inbox, r, valid, now);
    Inbox.SubmitShape(sys.inbox, s.inbox, r, valid, now);
    SubmitInv(sys, s, r, Inbox.SubmitTx(sys.inbox, s.inbox, r, valid, now).state);
  }

  lemma {:induction false} SubmitInv(sys: System, s: Stores, r: Inbox.Request, inbox': Inbox.Rows)
    requires Inv(sys, s) && Inbox.Inv(sys.inbox, inbox')
    requires inbox' == s.inbox || (r.op !in s.inbox && inbox' == s.inbox[r.op := Inbox.Work(r, Inbox.Queued)])
    ensures Inv(sys, s.(inbox := inbox'))
  {
    if inbox' != s.inbox {
      QueuedFrame(sys, s, r);
    }
  }

  /** Candidates depend only on requests and ports, which never change. */
  lemma {:induction false} RoutedFrame(sys: System, inbox: Inbox.Rows, inbox': Inbox.Rows, pool: Pool.Rows, pool': Pool.Rows, db: Router.Db)
    requires Routed(sys, inbox, pool, db)
    requires forall op | op in pool :: op in pool' && pool'[op].assignment == pool[op].assignment
    requires forall op | op in inbox :: op in inbox' && inbox'[op].request == inbox[op].request
    ensures Routed(sys, inbox', pool', db)
  {
    forall c: Router.Candidate | Known(sys, inbox, pool, c) ensures Known(sys, inbox', pool', c) {
    }
  }

  /** New queued work changes no other store's story. */
  lemma {:induction false} QueuedFrame(sys: System, s: Stores, r: Inbox.Request)
    requires Linked(s.inbox, s.pool) && Routed(sys, s.inbox, s.pool, s.router) && Inbox.Distinct(s.inbox)
    requires r.op !in s.inbox && Inbox.Distinct(s.inbox[r.op := Inbox.Work(r, Inbox.Queued)])
    ensures var inbox' := s.inbox[r.op := Inbox.Work(r, Inbox.Queued)];
            && Linked(inbox', s.pool) && Routed(sys, inbox', s.pool, s.router)
            && InProgress(inbox') == InProgress(s.inbox)
  {
    var inbox' := s.inbox[r.op := Inbox.Work(r, Inbox.Queued)];
    RoutedFrame(sys, s.inbox, inbox', s.pool, s.pool, s.router);
    QueuedInProgress(s.inbox, r);
  }

  lemma {:induction false} QueuedInProgress(inbox: Inbox.Rows, r: Inbox.Request)
    requires r.op !in inbox && Inbox.Distinct(inbox) && Inbox.Distinct(inbox[r.op := Inbox.Work(r, Inbox.Queued)])
    ensures InProgress(inbox[r.op := Inbox.Work(r, Inbox.Queued)]) == InProgress(inbox)
  {
    var inbox' := inbox[r.op := Inbox.Work(r, Inbox.Queued)];
    if InProgress(inbox').Some? {
      InProgressIs(inbox, InProgress(inbox').value);
    } else if InProgress(inbox).Some? {
      InProgressIs(inbox', InProgress(inbox).value);
    }
  }

  lemma {:induction false} ClaimStep(sys: System, s: Stores, step: Step)
    requires ValidSystem(sys) && Inv(sys, s) && Enabled(sys, s, step) && step.Claim?
    ensures Inv(sys, Apply(sys, s, step))
  {
    var op := step.op;
    Inbox.ClaimPreserves(sys.inbox, s.inbox, op);
    InProgressIs(Inbox.Claimed(s.inbox, op), op);
    ClaimFrame(sys, s, op);
  }

  lemma {:induction false} ClaimFrame(sys: System, s: Stores, op: string)
    requires Linked(s.inbox, s.pool) && Routed(sys, s.inbox, s.pool, s.router)
    requires op in s.inbox && s.inbox[op].state == Inbox.Queued
    requires Occupied(s.pool, None, Served(s.router))
    ensures var inbox' := Inbox.Claimed(s.inbox, op);
            && Linked(inbox', s.pool) && Routed(sys, inbox', s.pool, s.router)
            && Occupied(s.pool, Some(op), Served(s.router)) && Apart(s.pool, Some(op), Served(s.router))
  {
    RoutedFrame(sys, s.inbox, Inbox.Claimed(s.inbox, op), s.pool, s.pool, s.router);
    ClaimLinked(s.inbox, s.pool, op);
  }

  lemma {:induction false} ClaimLinked(inbox: Inbox.Rows, pool: Pool.Rows, op: string)
    requires Linked(inbox, pool) && op in inbox && inbox[op].state == Inbox.Queued
    ensures op !in pool && Linked(Inbox.Claimed(inbox, op), pool)
  {
  }

  lemma {:induction false} SettleStep(sys: System, s: Stores, step: Step)
    requires ValidSystem(sys) && Inv(sys, s) && Enabled(sys, s, step) && step.Settle?
    ensures Inv(sys, Apply(sys, s, step))
  {
    SettleFrame(sys, s, step);
    Inbox.SettlePreserves(sys.inbox, s.inbox, step.op);
    if Apply(sys, s, step) != s {
      SettleInv(sys, s, step.op);
    }
  }

  lemma {:induction false} SettleFrame(sys: System, s: Stores, step: Step)
    requires ValidSystem(sys) && Enabled(sys, s, step) && step.Settle?
    ensures Processing(s, step.op) && step.op in s.pool && (Replaced(s, step.op) || s.pool[step.op].state == Pool.Retired)
    ensures Apply(sys, s, step) == s
         || Apply(sys, s, step) == s.(inbox := s.inbox[step.op := s.inbox[step.op].(state := Inbox.Settled)])
    ensures Apply(sys, s, step).inbox == Inbox.SettleTx(s.inbox, step.op).state
  {
  }

  lemma {:induction false} SettleInv(sys: System, s: Stores, op: string)
    requires Inv(sys, s) && Processing(s, op) && op in s.pool && (Replaced(s, op) || s.pool[op].state == Pool.Retired)
    requires Inbox.Inv(sys.inbox, s.inbox[op := s.inbox[op].(state := Inbox.Settled)])
    ensures Inv(sys, s.(inbox := s.inbox[op := s.inbox[op].(state := Inbox.Settled)]))
  {
    SettledFrame(sys, s, op);
    InProgressIs(s.inbox, op);
    SettleOccupied(s.pool, s.gate, op, Served(s.router));
  }

  lemma {:induction false} SettledFrame(sys: System, s: Stores, op: string)
    requires Linked(s.inbox, s.pool) && Routed(sys, s.inbox, s.pool, s.router) && Inbox.Distinct(s.inbox)
    requires op in s.inbox && s.inbox[op].state == Inbox.Processing && op in s.pool
    ensures var inbox' := s.inbox[op := s.inbox[op].(state := Inbox.Settled)];
            Linked(inbox', s.pool) && Routed(sys, inbox', s.pool, s.router) && InProgress(inbox') == None
  {
    RoutedFrame(sys, s.inbox, s.inbox[op := s.inbox[op].(state := Inbox.Settled)], s.pool, s.pool, s.router);
  }

  /** Settling leaves at most the serving operation on a slot. */
  lemma {:induction false} SettleOccupied(pool: Pool.Rows, gate: Gate.Files, op: string, served: Option<string>)
    requires Occupied(pool, Some(op), served) && Backed(pool, gate, served) && op in pool
    requires (served == Some(op) && forall o | o in pool && o != op :: pool[o].state == Pool.Retired)
          || pool[op].state == Pool.Retired
    ensures Occupied(pool, None, served) && Apart(pool, None, served)
  {
  }

  // ---------------------------------------------------------------- pool steps

  /** Moving one row forward keeps everything, if the gate agrees and nothing serves from it any more
      than before. */
  lemma {:induction false} UpdateRow(sys: System, s: Stores, op: string, r': Pool.Reservation)
    requires Agree(sys, s) && op in s.pool
    requires Pool.Forward(s.pool[op], r') && RowOk(s.(pool := s.pool[op := r']), op)
    ensures Agree(sys, s.(pool := s.pool[op := r']))
  {
    UpdateRouted(sys, s.inbox, s.pool, s.router, op, r');
    UpdateLinked(s.inbox, s.pool, op, r');
    UpdateGated(s.pool, s.gate, s.router.retired, op, r');
    UpdateOccupied(s.pool, op, r', InProgress(s.inbox), Served(s.router));
  }

  lemma {:induction false} UpdateRouted(sys: System, inbox: Inbox.Rows, pool: Pool.Rows, db: Router.Db, op: string, r': Pool.Reservation)
    requires Routed(sys, inbox, pool, db) && (op in pool ==> r'.assignment == pool[op].assignment)
    ensures Routed(sys, inbox, pool[op := r'], db)
  {
    RoutedFrame(sys, inbox, inbox, pool, pool[op := r'], db);
  }

  lemma {:induction false} UpdateLinked(inbox: Inbox.Rows, pool: Pool.Rows, op: string, r': Pool.Reservation)
    requires Linked(inbox, pool) && op in pool && r'.assignment == pool[op].assignment
    ensures Linked(inbox, pool[op := r'])
  {
  }

  lemma {:induction false} UpdateGated(pool: Pool.Rows, gate: Gate.Files, retired: map<string, Router.Candidate>, op: string, r': Pool.Reservation)
    requires Gated(pool, gate, retired) && op in pool
    requires op in gate ==> GateBacked(gate[op], r', op in retired)
    requires PoolBacked(r', Control(gate, op))
    ensures Gated(pool[op := r'], gate, retired)
  {
  }

  lemma {:induction false} UpdateOccupied(pool: Pool.Rows, op: string, r': Pool.Reservation, busy: Option<string>, served: Option<string>)
    requires Occupied(pool, busy, served) && Apart(pool, busy, served) && op in pool
    requires Pool.Forward(pool[op], r')
    ensures Occupied(pool[op := r'], busy, served) && Apart(pool[op := r'], busy, served)
  {
  }

  lemma {:induction false} ReserveStep(sys: System, s: Stores, step: Step)
    requires ValidSystem(sys) && Inv(sys, s) && Enabled(sys, s, step) && step.Reserve?
    ensures Inv(sys, Apply(sys, s, step))
  {
    var op := step.op;
    var a := Wanted(s.inbox[op].request);
    assert a.op == op;
    Pool.ReservePreserves(sys.pool, s.pool, a);
    Pool.ReserveShape(sys.pool, s.pool, a);
    if op !in s.pool && Pool.FirstFree(s.pool, sys.pool.slots).Some? {
      InProgressIs(s.inbox, op);
      Pool.FirstFreeFinds(s.pool, sys.pool.slots, 0);
      InsertRow(sys, s, op, Pool.FirstFree(s.pool, sys.pool.slots).value);
    }
  }

  lemma {:induction false} InsertRow(sys: System, s: Stores, op: string, slot: Pool.Slot)
    requires Agree(sys, s) && Processing(s, op) && op !in s.pool && InProgress(s.inbox) == Some(op)
    requires Pool.SlotFree(s.pool, slot)
    ensures Agree(sys, s.(pool := s.pool[op := Pool.Fresh(Pool.Place(Wanted(s.inbox[op].request), slot))]))
  {
    var a := Wanted(s.inbox[op].request);
    var pool' := s.pool[op := Pool.Fresh(Pool.Place(a, slot))];
    UpdateRouted(sys, s.inbox, s.pool, s.router, op, pool'[op]);
    InsertLinked(s.inbox, s.pool, op, slot);
    InsertGated(s.pool, s.gate, s.router.retired, op, pool'[op]);
    InsertOccupied(s.pool, op, pool'[op], Served(s.router));
  }

  lemma {:induction false} InsertLinked(inbox: Inbox.Rows, pool: Pool.Rows, op: string, slot: Pool.Slot)
    requires Linked(inbox, pool) && op in inbox && inbox[op].state != Inbox.Queued
    ensures Linked(inbox, pool[op := Pool.Fresh(Pool.Place(Wanted(inbox[op].request), slot))])
  {
  }

  lemma {:induction false} InsertGated(pool: Pool.Rows, gate: Gate.Files, retired: map<string, Router.Candidate>, op: string, r: Pool.Reservation)
    requires Gated(pool, gate, retired) && op !in pool && r == Pool.Fresh(r.assignment)
    ensures Gated(pool[op := r], gate, retired)
  {
  }

  /** A fresh slot is apart from the one that serves, because the serving slot is live. */
  lemma {:induction false} InsertOccupied(pool: Pool.Rows, op: string, r: Pool.Reservation, served: Option<string>)
    requires Occupied(pool, Some(op), served) && op !in pool && r == Pool.Fresh(r.assignment)
    requires served.Some? ==> served.value in pool && Pool.Live(pool[served.value])
    requires Pool.SlotFree(pool, Pool.HeldSlot(r))
    ensures Occupied(pool[op := r], Some(op), served) && Apart(pool[op := r], Some(op), served)
  {
  }

  predicate IsPoolStep(step: Step) {
    step.Prepare? || step.Record? || step.ClaimStart? || step.BeginRetirement? || step.FreeSlot?
  }

  lemma {:induction false} PoolStep(sys: System, s: Stores, step: Step)
    requires ValidSystem(sys) && Inv(sys, s) && Enabled(sys, s, step) && IsPoolStep(step)
    ensures Inv(sys, Apply(sys, s, step))
  {
    if step.op in s.pool {
      RowFacts(sys, s, step.op);
      RowAfter(sys, s, step);
      var r' := Apply(sys, s, step).pool[step.op];
      UpdateRow(sys, s, step.op, r');
      Pool.UpdatePreserves(sys.pool, s.pool, step.op, r');
    }
  }

  /** Everything the invariant says about one operation's row and control file. */
  predicate RowOk(s: Stores, op: string) {
    && op in s.pool && s.pool[op].assignment.op == op && Pool.Evidence(s.pool[op])
    && PoolBacked(s.pool[op], Control(s.gate, op))
    && (op in s.gate ==> GateBacked(s.gate[op], s.pool[op], op in s.router.retired))
    && (Serves(s, op) ==> Started(s.pool, s.gate, op))
  }

  lemma {:induction false} RowFacts(sys: System, s: Stores, op: string)
    requires Inv(sys, s) && op in s.pool
    ensures RowOk(s, op)
  {
  }

  /** What each pool transaction makes of its row, and why the other stores agree. */
  lemma {:induction false} RowAfter(sys: System, s: Stores, step: Step)
    requires ValidSystem(sys) && Enabled(sys, s, step) && IsPoolStep(step) && RowOk(s, step.op)
    ensures var s' := Apply(sys, s, step);
            && step.op in s'.pool && s' == s.(pool := s.pool[step.op := s'.pool[step.op]])
            && Pool.Forward(s.pool[step.op], s'.pool[step.op]) && RowOk(s', step.op)
  {
    if step.Prepare? || step.Record? {
      InstallRowAfter(sys, s, step);
    } else {
      StateRowAfter(sys, s, step);
    }
  }

  lemma {:induction false} InstallRowAfter(sys: System, s: Stores, step: Step)
    requires ValidSystem(sys) && Enabled(sys, s, step) && (step.Prepare? || step.Record?) && RowOk(s, step.op)
    ensures var s' := Apply(sys, s, step);
            && step.op in s'.pool && s' == s.(pool := s.pool[step.op := s'.pool[step.op]])
            && Pool.Forward(s.pool[step.op], s'.pool[step.op]) && RowOk(s', step.op)
  {
  }

  lemma {:induction false} StateRowAfter(sys: System, s: Stores, step: Step)
    requires ValidSystem(sys) && Enabled(sys, s, step) && (step.ClaimStart? || step.BeginRetirement? || step.FreeSlot?) && RowOk(s, step.op)
    ensures var s' := Apply(sys, s, step);
            && step.op in s'.pool && s' == s.(pool := s.pool[step.op := s'.pool[step.op]])
            && Pool.Forward(s.pool[step.op], s'.pool[step.op]) && RowOk(s', step.op)
  {
  }

  // ---------------------------------------------------------------- gate steps

  lemma {:induction false} UpdateControl(sys: System, s: Stores, op: string, c': Gate.Control)
    requires Agree(sys, s) && op in s.pool
    requires RowOk(s.(gate := s.gate[op := c']), op)
    ensures Agree(sys, s.(gate := s.gate[op := c']))
  {
    UpdateControlGated(s.pool, s.gate, s.router.retired, op, c');
  }

  lemma {:induction false} UpdateControlGated(pool: Pool.Rows, gate: Gate.Files, retired: map<string, Router.Candidate>, op: string, c': Gate.Control)
    requires Gated(pool, gate, retired) && op in pool
    requires GateBacked(c', pool[op], op in retired) && PoolBacked(pool[op], Some(c'))
    ensures Gated(pool, gate[op := c'], retired)
  {
  }

  predicate IsGateStep(step: Step) {
    step.Install? || step.Start? || step.RetireGate?
  }

  lemma {:induction false} GateStep(sys: System, s: Stores, step: Step)
    requires ValidSystem(sys) && Inv(sys, s) && Enabled(sys, s, step) && IsGateStep(step)
    ensures Inv(sys, Apply(sys, s, step))
  {
    GateFrame(sys, s, step);
    RowFacts(sys, s, step.op);
    ControlAgrees(sys, s, step);
  }

  lemma {:induction false} GateFrame(sys: System, s: Stores, step: Step)
    requires ValidSystem(sys) && Enabled(sys, s, step) && IsGateStep(step)
    ensures step.op in s.pool
    ensures Apply(sys, s, step) == s.(gate := Apply(sys, s, step).gate)
  {
  }

  lemma {:induction false} ControlAgrees(sys: System, s: Stores, step: Step)
    requires ValidSystem(sys) && Agree(sys, s) && Enabled(sys, s, step) && IsGateStep(step) && RowOk(s, step.op)
    ensures Agree(sys, Apply(sys, s, step))
  {
    ControlAfter(sys, s, step);
    var s' := Apply(sys, s, step);
    if s' != s {
      UpdateControl(sys, s, step.op, s'.gate[step.op]);
    }
  }

  lemma {:induction false} ControlAfter(sys: System, s: Stores, step: Step)
    requires ValidSystem(sys) && Enabled(sys, s, step) && IsGateStep(step) && RowOk(s, step.op)
    ensures var s' := Apply(sys, s, step);
            s' == s || (step.op in s'.gate && s' == s.(gate := s.gate[step.op := s'.gate[step.op]]) && RowOk(s', step.op))
  {
  }

  // ---------------------------------------------------------------- router steps

  lemma {:induction false} UpdateRoute(sys: System, s: Stores, db': Router.Db)
    requires Agree(sys, s)
    requires Routed(sys, s.inbox, s.pool, db')
    requires s.router.retired.Keys <= db'.retired.Keys
    requires Served(db') == Served(s.router)
          || (Served(db').Some? && Served(db') == InProgress(s.inbox) && Started(s.pool, s.gate, Served(db').value))
    ensures Agree(sys, s.(router := db'))
  {
    RetiredGated(s.pool, s.gate, s.router.retired, db'.retired);
  }

  lemma {:induction false} RetiredGated(pool: Pool.Rows, gate: Gate.Files, retired: map<string, Router.Candidate>, retired': map<string, Router.Candidate>)
    requires Gated(pool, gate, retired) && retired.Keys <= retired'.Keys
    ensures Gated(pool, gate, retired')
  {
    forall op | op in gate ensures op in pool && GateBacked(gate[op], pool[op], op in retired') {
      assert GateBacked(gate[op], pool[op], op in retired);
    }
  }

  predicate IsRouterStep(step: Step) {
    step.ActivateBegin? || step.ActivateCommit? || step.FenceOff? || step.PublishFailed?
  }

  lemma {:induction false} RouterStep(sys: System, s: Stores, step: Step)
    requires ValidSystem(sys) && Inv(sys, s) && Enabled(sys, s, step) && IsRouterStep(step)
    ensures Inv(sys, Apply(sys, s, step))
  {
    RouteFrame(sys, s, step);
    CandidateValid(sys, s, step.op);
    RouteSound(sys, s, step);
    RouteAgrees(sys, s, step);
  }

  lemma {:induction false} RouteFrame(sys: System, s: Stores, step: Step)
    requires ValidSystem(sys) && Enabled(sys, s, step) && IsRouterStep(step)
    ensures step.op in s.inbox && step.op in s.pool
    ensures Apply(sys, s, step) == s.(router := Apply(sys, s, step).router)
  {
  }

  lemma {:induction false} RouteAgrees(sys: System, s: Stores, step: Step)
    requires ValidSystem(sys) && Agree(sys, s) && Inbox.Distinct(s.inbox) && Enabled(sys, s, step) && IsRouterStep(step)
    requires s.inbox[step.op].request.op == step.op
    ensures Agree(sys, Apply(sys, s, step))
  {
    if step.ActivateCommit? { InProgressIs(s.inbox, step.op); }
    RouteFrame(sys, s, step);
    RouteAfter(sys, s, step);
    UpdateRoute(sys, s, Apply(sys, s, step).router);
  }

  lemma {:induction false} RouteSound(sys: System, s: Stores, step: Step)
    requires ValidSystem(sys) && Router.Inv(sys.router, s.router) && Enabled(sys, s, step) && IsRouterStep(step)
    requires Router.Valid(sys.router, CandidateOf(sys, s, step.op)) && CandidateOf(sys, s, step.op).op == step.op
    requires Routed(sys, s.inbox, s.pool, s.router)
    ensures Router.Inv(sys.router, Apply(sys, s, step).router)
    ensures Router.Advances(s.router, Apply(sys, s, step).router)
  {
    var c := CandidateOf(sys, s, step.op);
    match step {
      case ActivateBegin(op) => Router.BeginPreserves(sys.router, s.router, c);
      case ActivateCommit(op, healthy) => Router.CommitPreserves(sys.router, s.router, c, healthy);
      case FenceOff(op) => Router.FencePreserves(sys.router, s.router, c);
      case PublishFailed(op) => Router.RejectPreserves(sys.router, s.router, c);
    }
  }

  lemma {:induction false} RouteAfter(sys: System, s: Stores, step: Step)
    requires ValidSystem(sys) && Routed(sys, s.inbox, s.pool, s.router) && Enabled(sys, s, step)
    requires IsRouterStep(step) && s.inbox[step.op].request.op == step.op
    ensures var db' := Apply(sys, s, step).router;
            && Routed(sys, s.inbox, s.pool, db') && s.router.retired.Keys <= db'.retired.Keys
            && (Served(db') == Served(s.router) || (step.ActivateCommit? && Served(db') == Some(step.op)))
  {
    var c := CandidateOf(sys, s, step.op);
    assert Known(sys, s.inbox, s.pool, c);
    match step {
      case ActivateBegin(op) => BeginRouted(sys, s.inbox, s.pool, s.router, c);
      case ActivateCommit(op, healthy) => CommitRouted(sys, s.inbox, s.pool, s.router, c, healthy);
      case FenceOff(op) => FenceRouted(sys, s.inbox, s.pool, s.router, c);
      case PublishFailed(op) => RejectRouted(sys, s.inbox, s.pool, s.router, c);
    }
  }

  lemma {:induction false} BeginRouted(sys: System, inbox: Inbox.Rows, pool: Pool.Rows, db: Router.Db, c: Router.Candidate)
    requires Routed(sys, inbox, pool, db) && Known(sys, inbox, pool, c)
    ensures var db' := Router.BeginTx(sys.router, db, c).state;
            Routed(sys, inbox, pool, db') && db'.retired == db.retired && Served(db') == Served(db)
  {
  }

  lemma {:induction false} CommitRouted(sys: System, inbox: Inbox.Rows, pool: Pool.Rows, db: Router.Db, c: Router.Candidate, healthy: bool)
    requires Routed(sys, inbox, pool, db) && Known(sys, inbox, pool, c)
    ensures var db' := Router.CommitTx(db, c, healthy).state;
            Routed(sys, inbox, pool, db') && db'.retired == db.retired && (Served(db') == Served(db) || Served(db') == Some(c.op))
  {
  }

  lemma {:induction false} FenceRouted(sys: System, inbox: Inbox.Rows, pool: Pool.Rows, db: Router.Db, c: Router.Candidate)
    requires Routed(sys, inbox, pool, db) && Known(sys, inbox, pool, c)
    ensures var db' := Router.FenceTx(sys.router, db, c).state;
            Routed(sys, inbox, pool, db') && db.retired.Keys <= db'.retired.Keys && Served(db') == Served(db)
  {
    RetiredRouted(sys, inbox, pool, db, c);
  }

  lemma {:induction false} RejectRouted(sys: System, inbox: Inbox.Rows, pool: Pool.Rows, db: Router.Db, c: Router.Candidate)
    requires Routed(sys, inbox, pool, db) && Known(sys, inbox, pool, c)
    ensures var db' := Router.RejectTx(db, c).state;
            Routed(sys, inbox, pool, db') && db'.retired == db.retired && Served(db') == Served(db)
  {
  }

  lemma {:induction false} RetiredRouted(sys: System, inbox: Inbox.Rows, pool: Pool.Rows, db: Router.Db, c: Router.Candidate)
    requires Routed(sys, inbox, pool, db) && Known(sys, inbox, pool, c)
    ensures Routed(sys, inbox, pool, db.(retired := db.retired[c.op := c]))
  {
  }

  /** The router accepts the candidate of any operation that holds or held a slot. */
  lemma {:induction false} CandidateValid(sys: System, s: Stores, op: string)
    requires ValidSystem(sys) && Inv(sys, s) && op in s.inbox && op in s.pool
    ensures Router.Valid(sys.router, CandidateOf(sys, s, op))
    ensures CandidateOf(sys, s, op).op == op
    ensures sys.router.backends[CandidateOf(sys, s, op).backend] == s.pool[op].assignment.port
  {
    assert Pool.HeldSlot(s.pool[op]) in sys.pool.slots;
    assert HasBackend(sys, Pool.HeldSlot(s.pool[op]).port);
    assert Inbox.Accepts(sys.inbox, s.inbox[op].request);
  }

  // ---------------------------------------------------------------- every step

  lemma {:induction false} StepPreserves(sys: System, s: Stores, step: Step)
    requires ValidSystem(sys) && Inv(sys, s) && Enabled(sys, s, step)
    ensures Inv(sys, Apply(sys, s, step))
  {
    if IsPoolStep(step) {
      PoolStep(sys, s, step);
    } else if IsGateStep(step) {
      GateStep(sys, s, step);
    } else if IsRouterStep(step) {
      RouterStep(sys, s, step);
    } else if step.Reserve? {
      ReserveStep(sys, s, step);
    } else if step.Submit? {
      SubmitStep(sys, s, step);
    } else if step.Claim? {
      ClaimStep(sys, s, step);
    } else {
      SettleStep(sys, s, step);
    }
  }
}
