/** The pool of UID/port slots (internal/nodelaunch/reservations.go and installation.go).

    Every exported transaction of the source is a function from the rows to the rows and a
    result; `Store` is the imperative form, proved against those functions. */
module Pool {
  import opened Common

  datatype Slot = Slot(uid: int, port: int)

  datatype Config = Config(project: string, runtime: string, toolchain: string, arch: string, slots: seq<Slot>)

  datatype Assignment = Assignment(
    uid: int, op: string, project: string, runtime: string, artifact: string,
    toolchain: string, arch: string, directory: string, port: int)

  datatype SlotState = Reserved | Starting | Retiring | Retired

  datatype Manifest = Manifest(sha256: string, files: int, expanded: int)

  datatype Receipt = Receipt(assignment: Assignment, manifest: Manifest, installedAt: int)

  datatype Observation = Observation(
    assignment: Assignment, observedAt: int,
    startsFenced: bool, processesGone: bool, listenerGone: bool, routingDetached: bool)

  datatype Reservation = Reservation(
    assignment: Assignment, state: SlotState, retirement: Option<Observation>,
    attempted: bool, installed: Option<Receipt>)

  /** The `reservations` table, keyed by operation. Rows are never deleted. */
  type Rows = map<string, Reservation>

  /** `OpenPool`: between 2 and 16 slots, no UID and no port twice. */
  predicate ValidConfig(c: Config) {
    && Digest(c.project) && Digest(c.runtime) && Digest(c.toolchain) && Architecture(c.arch)
    && ValidSlots(c.slots)
  }

  predicate ValidSlots(slots: seq<Slot>) {
    && 2 <= |slots| <= 16
    && (forall i | 0 <= i < |slots| :: 60000 <= slots[i].uid <= 60999 && 1024 <= slots[i].port <= 65535)
    && (forall i, j | 0 <= i < j < |slots| :: slots[i].uid != slots[j].uid && slots[i].port != slots[j].port)
  }

  const PREFIX := "release-"

  /** The checks `Render` makes before it produces a unit. */
  predicate Renderable(a: Assignment) {
    && 60000 <= a.uid <= 60999 && 1024 <= a.port <= 65535
    && Digest(a.op) && Digest(a.project) && Digest(a.runtime) && Digest(a.artifact) && Digest(a.toolchain)
    && Architecture(a.arch)
    && PREFIX <= a.directory && Digest(a.directory[|PREFIX|..])
  }

  predicate Live(r: Reservation) {
    r.state != Retired
  }

  /** No live reservation holds the slot's UID or its port. */
  predicate SlotFree(rows: Rows, slot: Slot) {
    forall op | op in rows && Live(rows[op]) ::
      rows[op].assignment.uid != slot.uid && rows[op].assignment.port != slot.port
  }

  /** The first free slot in configuration order, from position `i`. */
  function FirstFree(rows: Rows, slots: seq<Slot>, i: nat := 0): (slot: Option<Slot>)
    requires i <= |slots|
    decreases |slots| - i
  {
    if i == |slots| then None
    else if SlotFree(rows, slots[i]) then Some(slots[i])
    else FirstFree(rows, slots, i + 1)
  }

  /** A successful search ends on a free configured slot. */
  lemma {:induction false} FirstFreeFinds(rows: Rows, slots: seq<Slot>, i: nat)
    requires i <= |slots| && FirstFree(rows, slots, i).Some?
    ensures FirstFree(rows, slots, i).value in slots && SlotFree(rows, FirstFree(rows, slots, i).value)
    decreases |slots| - i
  {
    if !SlotFree(rows, slots[i]) {
      FirstFreeFinds(rows, slots, i + 1);
    }
  }

  /** A failed search has tried every slot. */
  lemma {:induction false} FirstFreeTries(rows: Rows, slots: seq<Slot>, i: nat, k: nat)
    requires i <= k < |slots| && FirstFree(rows, slots, i).None?
    ensures !SlotFree(rows, slots[k])
    decreases |slots| - i
  {
    if i < k {
      FirstFreeTries(rows, slots, i + 1, k);
    }
  }

  predicate DirectoryTaken(rows: Rows, directory: string) {
    exists op | op in rows :: rows[op].assignment.directory == directory
  }

  /** Only the slot is left open in a request for one. */
  predicate Requestable(c: Config, a: Assignment)
    requires ValidSlots(c.slots)
  {
    && a.uid == 0 && a.port == 0 && a.project == c.project && a.runtime == c.runtime
    && a.toolchain == c.toolchain && a.arch == c.arch
    && Renderable(Place(a, c.slots[0]))
  }

  /** A request for a slot of this runtime's configuration, complete but for the slot. */
  ghost predicate Asks(c: Config, a: Assignment) {
    && a.uid == 0 && a.port == 0 && a.project == c.project && a.runtime == c.runtime && a.toolchain == c.toolchain && a.arch == c.arch
    && Digest(a.op) && Digest(a.project) && Digest(a.runtime) && Digest(a.artifact) && Digest(a.toolchain) && Architecture(a.arch)
    && "release-" <= a.directory && Digest(a.directory[8..])
  }

  function Place(a: Assignment, slot: Slot): Assignment {
    a.(uid := slot.uid, port := slot.port)
  }

  function Fresh(a: Assignment): Reservation {
    Reservation(a, Reserved, None, false, None)
  }

  function ReserveTx(c: Config, rows: Rows, a: Assignment): Tx<Rows, Reservation>
    requires ValidSlots(c.slots)
  {
    if !Requestable(c, a) then Tx(rows, Err(ErrAssignment))
    else if a.op in rows then
      var known := rows[a.op];
      if a.(uid := known.assignment.uid, port := known.assignment.port) != known.assignment then Tx(rows, Err(ErrConflict))
      else Tx(rows, Ok(known))
    else if DirectoryTaken(rows, a.directory) then Tx(rows, Err(ErrConflict))
    else Allocate(c.slots, rows, a)
  }

  /** The slot search that ends `Reserve`. */
  function Allocate(slots: seq<Slot>, rows: Rows, a: Assignment): Tx<Rows, Reservation> {
    var free := FirstFree(rows, slots);
    if free.None? then Tx(rows, Err(ErrCapacity))
    else
      var r := Fresh(Place(a, free.value));
      Tx(rows[a.op := r], Ok(r))
  }

  function ClaimStartTx(rows: Rows, op: string): Tx<Rows, Reservation> {
    if op !in rows then Tx(rows, Err(ErrNotFound))
    else
      var r := rows[op];
      if r.state != Reserved || !r.attempted || r.installed.None? || r.installed.value.assignment != r.assignment
      then Tx(rows, Err(ErrConflict))
      else Tx(rows[op := r.(state := Starting)], Ok(r.(state := Starting)))
  }

  function BeginRetirementTx(rows: Rows, op: string): Tx<Rows, Reservation> {
    if op !in rows then Tx(rows, Err(ErrNotFound))
    else if rows[op].state == Retired then Tx(rows, Ok(rows[op]))
    else Tx(rows[op := rows[op].(state := Retiring)], Ok(rows[op].(state := Retiring)))
  }

  /** An observation, taken between `started` and `now`, that proves the slot is clear. */
  predicate Proven(o: Observation, a: Assignment, started: int, now: int) {
    && o.assignment == a && started <= o.observedAt <= now
    && o.startsFenced && o.processesGone && o.listenerGone && o.routingDetached
  }

  /** The committing half of `ReconcileRetirement`; `seen` is the assignment read before the probe. */
  function RetireTx(rows: Rows, op: string, seen: Assignment, o: Observation): Tx<Rows, Reservation> {
    if op !in rows then Tx(rows, Err(ErrNotFound))
    else
      var r := rows[op];
      if r.assignment != seen || (r.state != Retiring && r.state != Retired) then Tx(rows, Err(ErrConflict))
      else if r.state == Retired then Tx(rows, Ok(r))
      else Tx(rows[op := r.(state := Retired, retirement := Some(o))], Ok(r.(state := Retired, retirement := Some(o))))
  }

  /** A proof taken before the transaction is stored exactly on a row of the same assignment that is still
      retiring; a row that somebody else has retired in between is returned as it is. */
  lemma {:induction false} RetirementLaw(rows: Rows, op: string, seen: Assignment, o: Observation)
    ensures var tx := RetireTx(rows, op, seen, o);
            && (tx.result.Ok? <==> op in rows && rows[op].assignment == seen && (rows[op].state == Retiring || rows[op].state == Retired))
            && (tx.result.Ok? && rows[op].state == Retired ==> tx == Tx(rows, Ok(rows[op])))
            && (tx.result.Ok? && rows[op].state == Retiring ==>
                  && tx.state == rows[op := tx.result.value]
                  && tx.result.value == rows[op].(state := Retired, retirement := Some(o)))
            && (tx.result.Err? ==> tx.state == rows)
  {
  }

  /** What the first transaction of `PrepareRelease` lets its caller do. */
  datatype Preparation = AlreadyInstalled(r: Reservation) | Dispatch

  function PrepareTx(rows: Rows, op: string, seen: Assignment, m: Manifest): Tx<Rows, Preparation> {
    if op !in rows then Tx(rows, Err(ErrNotFound))
    else
      var r := rows[op];
      if r.assignment != seen || r.state != Reserved then Tx(rows, Err(ErrConflict))
      else if r.installed.Some? then
        if r.installed.value.assignment != seen || r.installed.value.manifest != m then Tx(rows, Err(ErrConflict))
        else Tx(rows, Ok(AlreadyInstalled(r)))
      else if r.attempted then Tx(rows, Err(ErrConflict))
      else Tx(rows[op := r.(attempted := true)], Ok(Dispatch))
  }

  /** The receipt transaction of `PrepareRelease`. */
  function ReceiptTx(rows: Rows, op: string, seen: Assignment, m: Manifest, at: int): Tx<Rows, Reservation> {
    if op !in rows then Tx(rows, Err(ErrNotFound))
    else
      var r := rows[op];
      if r.assignment != seen || r.state != Reserved || !r.attempted || r.installed.Some? then Tx(rows, Err(ErrConflict))
      else
        var done := r.(installed := Some(Receipt(seen, m, at)));
        Tx(rows[op := done], Ok(done))
  }

  /** The committing half of `ReconcileInstallation`. */
  function ReconcileReceiptTx(rows: Rows, op: string, seen: Assignment, m: Manifest, at: int): Tx<Rows, Reservation> {
    if op in rows && rows[op].installed.Some? then
      var r := rows[op];
      if r.assignment != seen || r.state != Reserved || !r.attempted
         || r.installed.value.assignment != seen || r.installed.value.manifest != m
      then Tx(rows, Err(ErrConflict)) else Tx(rows, Ok(r))
    else ReceiptTx(rows, op, seen, m, at)
  }

  // ---------------------------------------------------------------- invariants

  /** Each row describes its own operation on a configured slot. */
  ghost predicate Placed(c: Config, rows: Rows) {
    forall op | op in rows ::
      && rows[op].assignment.op == op
      && HeldSlot(rows[op]) in c.slots
  }

  /** Live reservations never share a UID or a port. */
  ghost predicate Exclusive(rows: Rows) {
    forall o, p | o in rows && p in rows && o != p && Live(rows[o]) && Live(rows[p]) ::
      && rows[o].assignment.uid != rows[p].assignment.uid
      && rows[o].assignment.port != rows[p].assignment.port
  }

  /** A receipt is for this very assignment, a start needs a receipt, a free slot needs proof: late
      starts fenced, processes and listener seen gone, routing detached. */
  predicate Evidence(r: Reservation) {
    && (r.installed.Some? ==> r.attempted && r.installed.value.assignment == r.assignment)
    && (r.state == Starting ==> r.installed.Some?)
    && (r.state == Retired <==> r.retirement.Some?)
    && (r.retirement.Some? ==> Vacated(r.retirement.value, r.assignment))
  }

  /** What is on record about a slot that was given up. */
  predicate Vacated(o: Observation, a: Assignment) {
    o == Observation(a, o.observedAt, true, true, true, true)
  }

  ghost predicate Evident(rows: Rows) {
    forall op | op in rows :: Evidence(rows[op])
  }

  ghost predicate Inv(c: Config, rows: Rows) {
    Placed(c, rows) && Exclusive(rows) && Evident(rows)
  }

  // ---------------------------------------------------------------- one transaction

  /** Progress of one row: identity, evidence and attempts are permanent, states only move forward. */
  ghost predicate Forward(r: Reservation, r': Reservation) {
    && r'.assignment == r.assignment
    && Order(r.state) <= Order(r'.state)
    && (r.attempted ==> r'.attempted)
    && (r.installed.Some? ==> r'.installed == r.installed)
    && (r.retirement.Some? ==> r'.retirement == r.retirement)
    && (r.state == Retired ==> r' == r)
  }

  function Order(s: SlotState): nat {
    match s case Reserved => 0 case Starting => 1 case Retiring => 2 case Retired => 3
  }

  ghost predicate Extends(rows: Rows, rows': Rows) {
    forall op | op in rows :: op in rows' && Forward(rows[op], rows'[op])
  }

  lemma {:induction false} ReservePreserves(c: Config, rows: Rows, a: Assignment)
    requires ValidSlots(c.slots) && Inv(c, rows)
    ensures Inv(c, ReserveTx(c, rows, a).state)
    ensures Extends(rows, ReserveTx(c, rows, a).state)
  {
    if a.op !in rows {
      AllocatePreserves(c, rows, a);
      ReserveShape(c, rows, a);
    } else {
      assert ReserveTx(c, rows, a).state == rows;
    }
  }

  lemma {:induction false} ReserveShape(c: Config, rows: Rows, a: Assignment)
    requires ValidSlots(c.slots)
    ensures ReserveTx(c, rows, a).state == rows
         || (a.op !in rows && ReserveTx(c, rows, a) == Allocate(c.slots, rows, a))
  {
  }

  lemma {:induction false} AllocatePreserves(c: Config, rows: Rows, a: Assignment)
    requires Inv(c, rows) && a.op !in rows
    ensures Inv(c, Allocate(c.slots, rows, a).state) && Extends(rows, Allocate(c.slots, rows, a).state)
  {
    if FirstFree(rows, c.slots).Some? {
      FirstFreeFinds(rows, c.slots, 0);
      InsertPreserves(c, rows, a, FirstFree(rows, c.slots).value);
    }
  }

  lemma {:induction false} InsertPreserves(c: Config, rows: Rows, a: Assignment, slot: Slot)
    requires Inv(c, rows) && a.op !in rows && slot in c.slots && SlotFree(rows, slot)
    ensures Inv(c, rows[a.op := Fresh(Place(a, slot))])
    ensures Extends(rows, rows[a.op := Fresh(Place(a, slot))])
  {
  }

  /** Updating one row forward, without reviving it or moving it, keeps the pool sound. */
  lemma {:induction false} UpdatePreserves(c: Config, rows: Rows, op: string, r': Reservation)
    requires Inv(c, rows) && op in rows
    requires Forward(rows[op], r') && Evidence(r')
    ensures Inv(c, rows[op := r']) && Extends(rows, rows[op := r'])
  {
  }

  // ---------------------------------------------------------------- concurrent callers

  /** One committed transaction by any caller. Arguments read before the transaction are arbitrary,
      so a stale caller that wakes up late is one of the behaviours. */
  datatype Step =
    | Reserve(request: Assignment)
    | Prepare(op: string, seen: Assignment, manifest: Manifest)
    | Record(op: string, seen: Assignment, manifest: Manifest, at: int)
    | Reconcile(op: string, seen: Assignment, manifest: Manifest, at: int)
    | ClaimStart(op: string)
    | BeginRetirement(op: string)
    | Retire(op: string, seen: Assignment, proof: Observation)

  function Apply(c: Config, rows: Rows, s: Step): Rows
    requires ValidSlots(c.slots)
  {
    match s
    case Reserve(a) => ReserveTx(c, rows, a).state
    case Prepare(op, seen, m) => PrepareTx(rows, op, seen, m).state
    case Record(op, seen, m, at) => ReceiptTx(rows, op, seen, m, at).state
    case Reconcile(op, seen, m, at) => ReconcileReceiptTx(rows, op, seen, m, at).state
    case ClaimStart(op) => ClaimStartTx(rows, op).state
    case BeginRetirement(op) => BeginRetirementTx(rows, op).state
    case Retire(op, seen, o) => RetireTx(rows, op, seen, o).state
  }

  /** `ReconcileRetirement` only reaches its transaction with an observation of the slot it read that
      shows it vacated. */
  predicate Admissible(s: Step) {
    s.Retire? ==> Vacated(s.proof, s.seen)
  }

  ghost predicate IsRun(c: Config, states: seq<Rows>, steps: seq<Step>) {
    && ValidSlots(c.slots)
    && |states| == |steps| + 1
    && states[0] == map[]
    && forall i | 0 <= i < |steps| :: Admissible(steps[i]) && states[i + 1] == Apply(c, states[i], steps[i])
  }

  lemma {:induction false} StepPreserves(c: Config, rows: Rows, s: Step)
    requires ValidSlots(c.slots) && Inv(c, rows) && Admissible(s)
    ensures Inv(c, Apply(c, rows, s)) && Extends(rows, Apply(c, rows, s))
  {
    if s.Reserve? {
      ReservePreserves(c, rows, s.request);
    } else if Apply(c, rows, s) != rows {
      UpdateForward(c, rows, s);
      UpdatePreserves(c, rows, s.op, Apply(c, rows, s)[s.op]);
    }
  }

  /** Every transaction but `Reserve` rewrites at most its own row, and moves it forward. */
  lemma {:induction false} UpdateForward(c: Config, rows: Rows, s: Step)
    requires ValidSlots(c.slots) && Evident(rows) && Admissible(s) && !s.Reserve?
    ensures var rows' := Apply(c, rows, s);
            rows' == rows ||
            (s.op in rows && s.op in rows' && rows' == rows[s.op := rows'[s.op]]
             && Forward(rows[s.op], rows'[s.op]) && Evidence(rows'[s.op]))
  {
  }

  /** Every reachable pool is sound, whatever the callers do. */
  lemma {:induction false} RunSound(c: Config, states: seq<Rows>, steps: seq<Step>, i: nat)
    requires IsRun(c, states, steps) && i <= |steps|
    ensures Inv(c, states[i])
    decreases i
  {
    if i > 0 {
      RunSound(c, states, steps, i - 1);
      assert states[i] == Apply(c, states[i - 1], steps[i - 1]);
      StepPreserves(c, states[i - 1], steps[i - 1]);
    }
  }

  /** Rows persist and only move forward between any two points of a run. */
  lemma {:induction false} RunForward(c: Config, states: seq<Rows>, steps: seq<Step>, i: nat, j: nat)
    requires IsRun(c, states, steps) && i <= j <= |steps|
    ensures Extends(states[i], states[j])
    decreases j
  {
    if i < j {
      RunForward(c, states, steps, i, j - 1);
      RunSound(c, states, steps, j - 1);
      assert states[j] == Apply(c, states[j - 1], steps[j - 1]);
      StepPreserves(c, states[j - 1], steps[j - 1]);
    }
  }

  /** The step hands out the right to dispatch `op`'s installer. */
  predicate Dispatches(rows: Rows, s: Step, op: string) {
    s.Prepare? && s.op == op && PrepareTx(rows, s.op, s.seen, s.manifest).result == Ok(Dispatch)
  }

  /** The step hands out the right to start `op`. */
  predicate Starts(rows: Rows, s: Step, op: string) {
    s.ClaimStart? && s.op == op && ClaimStartTx(rows, op).result.Ok?
  }

  /** Under any interleaving, one caller at most is ever told to install, and one to start. */
  lemma {:induction false} AtMostOnce(c: Config, states: seq<Rows>, steps: seq<Step>, i: nat, j: nat, op: string)
    requires IsRun(c, states, steps) && i < j < |steps|
    ensures !(Dispatches(states[i], steps[i], op) && Dispatches(states[j], steps[j], op))
    ensures !(Starts(states[i], steps[i], op) && Starts(states[j], steps[j], op))
  {
    assert states[i + 1] == Apply(c, states[i], steps[i]);
    RunForward(c, states, steps, i + 1, j);
  }

  /** A start is claimed only after the installer of that operation was dispatched and its receipt stored. */
  lemma {:induction false} StartNeedsReceipt(c: Config, states: seq<Rows>, steps: seq<Step>, j: nat, op: string)
    requires IsRun(c, states, steps) && j < |steps| && Starts(states[j], steps[j], op)
    ensures op in states[j] && states[j][op].installed.Some?
    ensures states[j][op].installed.value.assignment == states[j][op].assignment
    ensures exists i | 0 <= i < j :: Dispatches(states[i], steps[i], op)
  {
    RunSound(c, states, steps, j);
    AttemptHasDispatch(c, states, steps, j, op);
  }

  lemma {:induction false} AttemptHasDispatch(c: Config, states: seq<Rows>, steps: seq<Step>, j: nat, op: string)
    requires IsRun(c, states, steps) && j <= |steps| && op in states[j] && states[j][op].attempted
    ensures exists i | 0 <= i < j :: Dispatches(states[i], steps[i], op)
    decreases j
  {
    if j > 0 {
      assert states[j] == Apply(c, states[j - 1], steps[j - 1]);
      if op in states[j - 1] && states[j - 1][op].attempted {
        AttemptHasDispatch(c, states, steps, j - 1, op);
      } else {
        assert Dispatches(states[j - 1], steps[j - 1], op);
      }
    }
  }

  // ---------------------------------------------------------------- capacity

  ghost function LiveOps(rows: Rows): set<string> {
    set op | op in rows && Live(rows[op])
  }

  function HeldSlot(r: Reservation): Slot {
    Slot(r.assignment.uid, r.assignment.port)
  }

  ghost function SlotSet(slots: seq<Slot>): set<Slot> {
    set slot | slot in slots
  }

  lemma {:induction false} SlotSetCount(slots: seq<Slot>)
    requires forall i, j | 0 <= i < j < |slots| :: slots[i] != slots[j]
    ensures |SlotSet(slots)| == |slots|
    decreases |slots|
  {
    if |slots| > 0 {
      var front := slots[..|slots| - 1];
      SlotSetCount(front);
      assert SlotSet(slots) == SlotSet(front) + {slots[|slots| - 1]};
    }
  }

  lemma {:induction false} ValidSlotsCount(slots: seq<Slot>)
    requires ValidSlots(slots)
    ensures |SlotSet(slots)| == |slots|
  {
    SlotSetCount(slots);
  }

  ghost function Holders(rows: Rows): map<string, Slot> {
    map op | op in rows && Live(rows[op]) :: HeldSlot(rows[op])
  }

  /** Live reservations never outnumber the slots. */
  lemma {:induction false} LiveBound(c: Config, rows: Rows)
    requires ValidSlots(c.slots) && Inv(c, rows)
    ensures |LiveOps(rows)| <= |c.slots|
  {
    assert Holders(rows).Keys == LiveOps(rows);
    InjectionBound(Holders(rows), SlotSet(c.slots));
    ValidSlotsCount(c.slots);
  }

  /** A request for a new operation is refused for capacity exactly when every slot is live. */
  lemma {:induction false} CapacityExactly(c: Config, rows: Rows, a: Assignment)
    requires ValidSlots(c.slots) && Inv(c, rows)
    requires Requestable(c, a) && a.op !in rows && !DirectoryTaken(rows, a.directory)
    ensures ReserveTx(c, rows, a).result == Err(ErrCapacity) <==> |LiveOps(rows)| == |c.slots|
  {
    AllocateExactly(c, rows, a);
  }

  lemma {:induction false} AllocateExactly(c: Config, rows: Rows, a: Assignment)
    requires ValidSlots(c.slots) && Inv(c, rows)
    ensures Allocate(c.slots, rows, a).result == Err(ErrCapacity) <==> |LiveOps(rows)| == |c.slots|
  {
    if FirstFree(rows, c.slots).None? {
      FullPool(c, rows);
    } else {
      FirstFreeFinds(rows, c.slots, 0);
      RoomInPool(c, rows, FirstFree(rows, c.slots).value);
    }
  }

  lemma {:induction false} FullPool(c: Config, rows: Rows)
    requires ValidSlots(c.slots) && Inv(c, rows)
    requires FirstFree(rows, c.slots).None?
    ensures |LiveOps(rows)| == |c.slots|
  {
    LiveBound(c, rows);
    var held := set op | op in LiveOps(rows) :: HeldSlot(rows[op]);
    assert SlotSet(c.slots) <= held by { AllHeld(c, rows); }
    HoldersCount(rows, LiveOps(rows), held);
    SubsetCount(SlotSet(c.slots), held);
    ValidSlotsCount(c.slots);
  }

  lemma {:induction false} AllHeld(c: Config, rows: Rows)
    requires ValidSlots(c.slots) && Placed(c, rows)
    requires FirstFree(rows, c.slots).None?
    ensures SlotSet(c.slots) <= set op | op in LiveOps(rows) :: HeldSlot(rows[op])
  {
    forall slot | slot in SlotSet(c.slots)
      ensures slot in set op | op in LiveOps(rows) :: HeldSlot(rows[op])
    {
      var k :| 0 <= k < |c.slots| && c.slots[k] == slot;
      FirstFreeTries(rows, c.slots, 0, k);
      var op := Holder(c, rows, slot);
    }
  }

  lemma {:induction false} RoomInPool(c: Config, rows: Rows, slot: Slot)
    requires ValidSlots(c.slots) && Inv(c, rows) && slot in c.slots && SlotFree(rows, slot)
    ensures |LiveOps(rows)| < |c.slots|
  {
    assert Holders(rows).Keys == LiveOps(rows);
    InjectionBound(Holders(rows), SlotSet(c.slots) - {slot});
    ValidSlotsCount(c.slots);
  }

  /** A slot that is not free is held, UID and port together, by one live reservation. */
  lemma {:induction false} Holder(c: Config, rows: Rows, slot: Slot) returns (op: string)
    requires ValidSlots(c.slots) && Placed(c, rows) && slot in c.slots && !SlotFree(rows, slot)
    ensures op in LiveOps(rows) && HeldSlot(rows[op]) == slot
  {
    op :| op in rows && Live(rows[op]) && (rows[op].assignment.uid == slot.uid || rows[op].assignment.port == slot.port);
    SlotIsWhole(c.slots, HeldSlot(rows[op]), slot);
  }

  lemma {:induction false} SlotIsWhole(slots: seq<Slot>, s: Slot, t: Slot)
    requires ValidSlots(slots) && s in slots && t in slots
    requires s.uid == t.uid || s.port == t.port
    ensures s == t
  {
    var i :| 0 <= i < |slots| && slots[i] == s;
    var j :| 0 <= j < |slots| && slots[j] == t;
  }

  lemma {:induction false} HoldersCount(rows: Rows, ops: set<string>, held: set<Slot>)
    requires ops <= rows.Keys
    requires held == set op | op in ops :: HeldSlot(rows[op])
    ensures |held| <= |ops|
    decreases |ops|
  {
    if ops != {} {
      var op :| op in ops;
      var rest := set o | o in ops - {op} :: HeldSlot(rows[o]);
      HoldersCount(rows, ops - {op}, rest);
      assert held == rest + {HeldSlot(rows[op])};
    }
  }

  /** Asking again changes nothing and returns the recorded state, retired or not. */
  lemma {:induction false} ReserveIdempotent(c: Config, rows: Rows, a: Assignment)
    requires ValidSlots(c.slots) && Inv(c, rows) && ReserveTx(c, rows, a).result.Ok?
    ensures var once := ReserveTx(c, rows, a).state;
            && a.op in once
            && ReserveTx(c, once, a) == Tx(once, Ok(once[a.op]))
  {
  }

  /** `ReconcileRetirement` as a whole: `o` is what the reader observed between `started` and `now`. */
  function ReconcileRetirementTx(rows: Rows, op: string, o: Option<Observation>, started: int, now: int): Tx<Rows, Reservation> {
    if op !in rows then Tx(rows, Err(ErrNotFound))
    else if rows[op].state == Retired then Tx(rows, Ok(rows[op]))
    else if rows[op].state != Retiring then Tx(rows, Err(ErrRetirement))
    else if o.None? then Tx(rows, Err(ErrInterrupted))
    else if !Proven(o.value, rows[op].assignment, started, now) then Tx(rows, Err(ErrRetirement))
    else RetireTx(rows, op, rows[op].assignment, o.value)
  }

  /** The pool database. Each method is one transaction of the source. */
  class Store {
    const config: Config
    var rows: Rows

    constructor (c: Config)
      ensures config == c && rows == map[]
    {
      config := c;
      rows := map[];
    }

    method Reserve(a: Assignment) returns (result: Result<Reservation>)
      requires ValidSlots(config.slots)
      modifies this
      ensures Tx(rows, result) == ReserveTx(config, old(rows), a)
      ensures result.Ok? ==>
                && a.op in rows && rows == old(rows)[a.op := result.value]
                && result.value.assignment == a.(uid := result.value.assignment.uid, port := result.value.assignment.port)
      ensures result.Ok? && a.op !in old(rows) ==>
                && HeldSlot(result.value) in config.slots && SlotFree(old(rows), HeldSlot(result.value))
                && result.value.state == Reserved && !result.value.attempted && result.value.installed.None?
      ensures result.Err? ==> rows == old(rows)
      ensures result == Err(ErrAssignment) <==> !Asks(config, a)
      ensures a.op in old(rows) && Asks(config, a) ==>
                rows == old(rows) && result == if old(rows)[a.op].assignment == Place(a, HeldSlot(old(rows)[a.op])) then Ok(old(rows)[a.op]) else Err(ErrConflict)
    {
      if FirstFree(rows, config.slots).Some? { FirstFreeFinds(rows, config.slots, 0); }
      if !Requestable(config, a) { return Err(ErrAssignment); }
      if a.op in rows {
        var known := rows[a.op];
        if a.(uid := known.assignment.uid, port := known.assignment.port) != known.assignment { return Err(ErrConflict); }
        return Ok(known);
      }
      if DirectoryTaken(rows, a.directory) { return Err(ErrConflict); }
      var i := 0;
      while i < |config.slots|
        invariant 0 <= i <= |config.slots|
        invariant rows == old(rows)
        invariant FirstFree(rows, config.slots) == FirstFree(rows, config.slots, i)
      {
        if SlotFree(rows, config.slots[i]) {
          var r := Fresh(Place(a, config.slots[i]));
          rows := rows[a.op := r];
          return Ok(r);
        }
        i := i + 1;
      }
      return Err(ErrCapacity);
    }

    method Lookup(op: string) returns (result: Result<Reservation>)
      ensures result.Ok? <==> Digest(op) && op in rows
      ensures result.Ok? ==> result.value == rows[op]
      ensures result.Err? ==> result.error == if Digest(op) then ErrNotFound else ErrAssignment
    {
      if !Digest(op) { return Err(ErrAssignment); }
      return if op in rows then Ok(rows[op]) else Err(ErrNotFound);
    }

    method Prepare(op: string, seen: Assignment, m: Manifest) returns (result: Result<Preparation>)
      modifies this
      ensures Tx(rows, result) == PrepareTx(old(rows), op, seen, m)
      ensures result == Ok(Dispatch) <==>
                && op in old(rows) && old(rows)[op].assignment == seen && old(rows)[op].state == Reserved
                && old(rows)[op].installed.None? && !old(rows)[op].attempted
      ensures rows == if result == Ok(Dispatch) then old(rows)[op := old(rows)[op].(attempted := true)] else old(rows)
      ensures result.Ok? && result.value.AlreadyInstalled? <==>
                && op in old(rows) && old(rows)[op].assignment == seen && old(rows)[op].state == Reserved
                && old(rows)[op].installed.Some? && old(rows)[op].installed.value.assignment == seen && old(rows)[op].installed.value.manifest == m
      ensures result.Ok? && result.value.AlreadyInstalled? ==> result.value.r == old(rows)[op]
    {
      if op !in rows { return Err(ErrNotFound); }
      var current := rows[op];
      if current.assignment != seen || current.state != Reserved { return Err(ErrConflict); }
      if current.installed.Some? {
        if current.installed.value.assignment != seen || current.installed.value.manifest != m { return Err(ErrConflict); }
        return Ok(AlreadyInstalled(current));
      }
      if current.attempted { return Err(ErrConflict); }
      rows := rows[op := current.(attempted := true)];
      return Ok(Dispatch);
    }

    method Record(op: string, seen: Assignment, m: Manifest, at: int) returns (result: Result<Reservation>)
      modifies this
      ensures Tx(rows, result) == ReceiptTx(old(rows), op, seen, m, at)
      ensures result.Ok? <==>
                && op in old(rows) && old(rows)[op].assignment == seen && old(rows)[op].state == Reserved
                && old(rows)[op].attempted && old(rows)[op].installed.None?
      ensures result.Ok? ==> result.value == old(rows)[op].(installed := Some(Receipt(seen, m, at))) && rows == old(rows)[op := result.value]
      ensures result.Err? ==> rows == old(rows)
    {
      if op !in rows { return Err(ErrNotFound); }
      var current := rows[op];
      if current.assignment != seen || current.state != Reserved || !current.attempted || current.installed.Some? {
        return Err(ErrConflict);
      }
      rows := rows[op := current.(installed := Some(Receipt(seen, m, at)))];
      return Ok(rows[op]);
    }

    method ClaimStart(op: string) returns (result: Result<Reservation>)
      modifies this
      ensures Tx(rows, result) == ClaimStartTx(old(rows), op)
      ensures result.Ok? <==>
                && op in old(rows) && old(rows)[op].state == Reserved && old(rows)[op].attempted
                && old(rows)[op].installed.Some? && old(rows)[op].installed.value.assignment == old(rows)[op].assignment
      ensures result.Ok? ==> result.value == old(rows)[op].(state := Starting) && rows == old(rows)[op := result.value]
      ensures result.Err? ==> rows == old(rows) && result.error == if op in old(rows) then ErrConflict else ErrNotFound
    {
      if op !in rows { return Err(ErrNotFound); }
      var r := rows[op];
      if r.state != Reserved || !r.attempted || r.installed.None? || r.installed.value.assignment != r.assignment {
        return Err(ErrConflict);
      }
      rows := rows[op := r.(state := Starting)];
      return Ok(rows[op]);
    }

    method BeginRetirement(op: string) returns (result: Result<Reservation>)
      modifies this
      ensures Tx(rows, result) == BeginRetirementTx(old(rows), op)
      ensures result.Ok? <==> op in old(rows)
      ensures result.Ok? ==>
                && rows == old(rows)[op := result.value]
                && result.value == old(rows)[op].(state := if old(rows)[op].state == Retired then Retired else Retiring)
      ensures result.Err? ==> rows == old(rows)
    {
      if op !in rows { return Err(ErrNotFound); }
      if rows[op].state != Retired { rows := rows[op := rows[op].(state := Retiring)]; }
      return Ok(rows[op]);
    }

    method ReconcileRetirement(op: string, o: Option<Observation>, started: int, now: int) returns (result: Result<Reservation>)
      modifies this
      ensures Tx(rows, result) == ReconcileRetirementTx(old(rows), op, o, started, now)
      ensures op in old(rows) && old(rows)[op].state == Retiring ==>
                (result.Ok? <==>
                  && o.Some? && o.value.assignment == old(rows)[op].assignment && started <= o.value.observedAt <= now
                  && o.value.startsFenced && o.value.processesGone && o.value.listenerGone && o.value.routingDetached)
      ensures result.Ok? && old(rows)[op].state == Retiring ==>
                rows == old(rows)[op := old(rows)[op].(state := Retired, retirement := o)] && result.value == rows[op]
      ensures result.Err? || old(rows)[op].state == Retired ==> rows == old(rows)
      ensures op in old(rows) && old(rows)[op].state == Retired ==> result == Ok(old(rows)[op])
      ensures op in old(rows) && old(rows)[op].state != Retired && old(rows)[op].state != Retiring ==> result == Err(ErrRetirement)
      ensures op !in old(rows) ==> result == Err(ErrNotFound)
    {
      if op !in rows { return Err(ErrNotFound); }
      var r := rows[op];
      if r.state == Retired { return Ok(r); }
      if r.state != Retiring { return Err(ErrRetirement); }
      if o.None? { return Err(ErrInterrupted); }
      if !Proven(o.value, r.assignment, started, now) { return Err(ErrRetirement); }
      rows := rows[op := r.(state := Retired, retirement := o)];
      return Ok(rows[op]);
    }

    /** The operation with the lowest UID among these. */
    method LowestUid(ops: set<string>) returns (op: string)
      requires ops != {} && ops <= rows.Keys
      ensures op in ops && forall o | o in ops :: rows[op].assignment.uid <= rows[o].assignment.uid
    {
      op :| op in ops;
      var todo := ops - {op};
      while todo != {}
        invariant todo <= ops && op in ops
        invariant forall o | o in ops && o !in todo :: rows[op].assignment.uid <= rows[o].assignment.uid
        decreases |todo|
      {
        var o :| o in todo;
        todo := todo - {o};
        if rows[o].assignment.uid < rows[op].assignment.uid { op := o; }
      }
    }

    /** All occupied slots, each once, by UID. */
    method Outstanding() returns (out: seq<Reservation>)
      requires forall op | op in rows :: rows[op].assignment.op == op
      ensures forall i | 0 <= i < |out| :: out[i].assignment.op in rows && rows[out[i].assignment.op] == out[i] && Live(out[i])
      ensures forall op | op in rows && Live(rows[op]) :: rows[op] in out
      ensures forall i, j | 0 <= i < j < |out| ::
                out[i].assignment.op != out[j].assignment.op && out[i].assignment.uid <= out[j].assignment.uid
    {
      out := [];
      var todo := rows.Keys;
      while todo != {}
        invariant todo <= rows.Keys
        invariant forall i | 0 <= i < |out| ::
                    && out[i].assignment.op in rows && out[i].assignment.op !in todo
                    && rows[out[i].assignment.op] == out[i] && Live(out[i])
        invariant forall op | op in rows && op !in todo && Live(rows[op]) :: rows[op] in out
        invariant forall i, j | 0 <= i < j < |out| ::
                    out[i].assignment.op != out[j].assignment.op && out[i].assignment.uid <= out[j].assignment.uid
        invariant forall i, o | 0 <= i < |out| && o in todo :: out[i].assignment.uid <= rows[o].assignment.uid
        decreases |todo|
      {
        var op := LowestUid(todo);
        todo := todo - {op};
        if Live(rows[op]) { out := out + [rows[op]]; }
      }
    }
  }
}
