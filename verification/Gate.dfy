/** The per-operation control gate (internal/nodelaunch/control_linux.go).

    A controller takes the operation's exclusive lock, persists its intent and only then runs
    the action. `Store` is one controller's sequential view; `World` interleaves any number of
    controllers, their crashes and their retries. */
module Gate {
  import opened Common
  import Pool

  datatype Kind = Install | Start | Retire

  datatype Control = Control(assignment: Pool.Assignment, installed: bool, started: bool, retired: bool)

  /** The control files, keyed by operation. */
  type Files = map<string, Control>

  /** The state `run` starts from: the stored one, or a fresh one when there is no file. */
  function Current(files: Files, a: Pool.Assignment): Control {
    if a.op in files then files[a.op] else Control(a, false, false, false)
  }

  /** `read` rejects a file for another assignment or with a start that no install precedes. */
  predicate Readable(files: Files, a: Pool.Assignment) {
    a.op in files ==> files[a.op].assignment == a && (files[a.op].started ==> files[a.op].installed)
  }

  /** Whether the gate lets this kind of intent in. */
  predicate Permits(c: Control, k: Kind) {
    match k
    case Install => !c.retired && !c.installed
    case Start => !c.retired && !c.started && c.installed
    case Retire => true
  }

  function Mark(c: Control, k: Kind): Control {
    match k
    case Install => c.(installed := true)
    case Start => c.(started := true)
    case Retire => c.(retired := true)
  }

  /** The persisted half of `run`: the intent that precedes the action. */
  function IntentTx(files: Files, a: Pool.Assignment, k: Kind): Tx<Files, Control> {
    if !Readable(files, a) || !Permits(Current(files, a), k) then Tx(files, Err(ErrConflict))
    else
      var c := Mark(Current(files, a), k);
      Tx(files[a.op := c], Ok(c))
  }

  /** An intent, once committed, is what every later reader of the control file sees, and no other
      operation's file becomes unreadable by it. */
  lemma {:induction false} IntentReadsBack(files: Files, a: Pool.Assignment, k: Kind, b: Pool.Assignment)
    requires IntentTx(files, a, k).result.Ok?
    ensures var files' := IntentTx(files, a, k).state;
            && a.op in files' && Readable(files', a) && files'[a.op] == IntentTx(files, a, k).result.value
            && Mark(files'[a.op], k) == files'[a.op] && !(k != Retire && Permits(files'[a.op], k))
            && (b.op != a.op ==> (Readable(files', b) <==> Readable(files, b)) && Current(files', b) == Current(files, b))
  {
  }

  class Store {
    var files: Files

    constructor ()
      ensures files == map[]
    {
      files := map[];
    }

    method Intend(a: Pool.Assignment, k: Kind) returns (result: Result<Control>)
      modifies this
      ensures Tx(files, result) == IntentTx(old(files), a, k)
      ensures result.Ok? <==>
                if a.op !in old(files) then k != Start
                else
                  var c := old(files)[a.op];
                  && c.assignment == a && (c.started ==> c.installed)
                  && (k == Install ==> !c.installed && !c.retired)
                  && (k == Start ==> c.installed && !c.started && !c.retired)
      ensures result.Ok? ==>
                && files == old(files)[a.op := result.value] && result.value.assignment == a
                && (result.value.installed <==> k == Install || (a.op in old(files) && old(files)[a.op].installed))
                && (result.value.started <==> k == Start || (a.op in old(files) && old(files)[a.op].started))
                && (result.value.retired <==> k == Retire || (a.op in old(files) && old(files)[a.op].retired))
      ensures result.Err? ==> files == old(files)
    {
      if !Readable(files, a) { return Err(ErrConflict); }
      var state := Current(files, a);
      match k {
        case Install =>
          if state.retired || state.installed { return Err(ErrConflict); }
          state := state.(installed := true);
        case Start =>
          if state.retired || state.started || !state.installed { return Err(ErrConflict); }
          state := state.(started := true);
        case Retire =>
          state := state.(retired := true);
      }
      files := files[a.op := state];
      return Ok(state);
    }

    method Inspect(a: Pool.Assignment) returns (result: Result<Control>)
      ensures result.Ok? <==> a.op in files && files[a.op].assignment == a && (files[a.op].started ==> files[a.op].installed)
      ensures result.Ok? ==> result.value == files[a.op]
      ensures result.Err? ==> result.error == ErrNotFound || result.error == ErrConflict
      ensures result == Err(ErrNotFound) <==> a.op !in files
    {
      if a.op !in files { return Err(ErrNotFound); }
      return if Readable(files, a) then Ok(files[a.op]) else Err(ErrConflict);
    }
  }

  // ---------------------------------------------------------------- concurrent controllers

  /** Who holds an operation's lock, past persisting `kind`; `acted` once the action has begun. */
  datatype Hold = Hold(kind: Kind, acted: bool)

  datatype Action = Action(op: string, kind: Kind)

  /** Durable files, the kernel's locks, and every host action begun so far, in order. */
  datatype World = World(files: Files, held: map<string, Hold>, log: seq<Action>)

  datatype Step =
    | Enter(a: Pool.Assignment, kind: Kind)  // lock, read, check, persist
    | Act(op: string)                        // begin the action under the lock
    | Leave(op: string)                      // unlock: normally, or because the controller died

  /** `flock` is exclusive, so only one controller is ever between entering and leaving. */
  predicate Enabled(w: World, s: Step) {
    match s
    case Enter(a, k) => a.op !in w.held
    case Act(op) => op in w.held && !w.held[op].acted
    case Leave(op) => op in w.held
  }

  function Apply(w: World, s: Step): World
    requires Enabled(w, s)
  {
    match s
    case Enter(a, k) =>
      var t := IntentTx(w.files, a, k);
      if t.result.Ok? then w.(files := t.state, held := w.held[a.op := Hold(k, false)]) else w
    case Act(op) => w.(held := w.held[op := w.held[op].(acted := true)], log := w.log + [Action(op, w.held[op].kind)])
    case Leave(op) => w.(held := w.held - {op})
  }

  ghost predicate IsRun(states: seq<World>, steps: seq<Step>) {
    && |states| == |steps| + 1
    && states[0] == World(map[], map[], [])
    && forall i | 0 <= i < |steps| :: Enabled(states[i], steps[i]) && states[i + 1] == Apply(states[i], steps[i])
  }

  /** The operation's recorded intent covers the kind. */
  predicate Marked(files: Files, op: string, k: Kind) {
    op in files && Mark(files[op], k) == files[op]
  }

  /** Whoever holds the lock has its intent on disk, and no action ran without one. */
  ghost predicate Inv(w: World) {
    && (forall op | op in w.files :: w.files[op].started ==> w.files[op].installed)
    && (forall op | op in w.held :: Marked(w.files, op, w.held[op].kind))
    && (forall op | op in w.held && !w.held[op].acted && !w.held[op].kind.Retire? :: !w.files[op].retired)
    && (forall i | 0 <= i < |w.log| :: Marked(w.files, w.log[i].op, w.log[i].kind))
    && (forall i | 0 <= i < |w.log| && !w.log[i].kind.Retire? ::
          !(w.log[i].op in w.held && w.held[w.log[i].op] == Hold(w.log[i].kind, false)))
    && (forall i, j | 0 <= i < j < |w.log| && !w.log[i].kind.Retire? :: w.log[i] != w.log[j])
    && (forall j | 0 <= j < |w.log| && w.log[j].kind.Start? :: Marked(w.files, w.log[j].op, Install))
  }

  lemma {:induction false} StepPreserves(w: World, s: Step)
    requires Inv(w) && Enabled(w, s)
    ensures Inv(Apply(w, s))
  {
    if s.Enter? {
      EnterPreserves(w, s.a, s.kind);
    }
  }

  lemma {:induction false} EnterPreserves(w: World, a: Pool.Assignment, k: Kind)
    requires Inv(w) && a.op !in w.held
    ensures Inv(Apply(w, Enter(a, k)))
  {
  }

  lemma {:induction false} RunSound(states: seq<World>, steps: seq<Step>, i: nat)
    requires IsRun(states, steps) && i <= |steps|
    ensures Inv(states[i])
    decreases i
  {
    if i > 0 {
      RunSound(states, steps, i - 1);
      assert states[i] == Apply(states[i - 1], steps[i - 1]);
      StepPreserves(states[i - 1], steps[i - 1]);
    }
  }

  lemma {:induction false} MarkPersists(states: seq<World>, steps: seq<Step>, i: nat, j: nat, op: string, k: Kind)
    requires IsRun(states, steps) && i <= j <= |steps| && Marked(states[i].files, op, k)
    ensures Marked(states[j].files, op, k)
    decreases j
  {
    if i < j {
      MarkPersists(states, steps, i, j - 1, op, k);
      assert states[j] == Apply(states[j - 1], steps[j - 1]);
    }
  }

  /** The step begins a host action of that kind for that operation. */
  predicate Runs(w: World, s: Step, op: string, k: Kind) {
    s == Act(op) && op in w.held && w.held[op].kind == k
  }

  /** Per operation, across crashes, retries and any number of controllers: at most one install
      action and at most one start action ever begin. */
  lemma {:induction false} AtMostOnce(states: seq<World>, steps: seq<Step>, i: nat, j: nat, op: string, k: Kind)
    requires IsRun(states, steps) && i < j < |steps| && !k.Retire?
    ensures !(Runs(states[i], steps[i], op, k) && Runs(states[j], steps[j], op, k))
  {
    if Runs(states[i], steps[i], op, k) && Runs(states[j], steps[j], op, k) {
      assert states[i + 1] == Apply(states[i], steps[i]);
      assert states[i + 1].log[|states[i].log|] == Action(op, k);
      LogGrows(states, steps, i + 1, j);
      RunSound(states, steps, j);
    }
  }

  lemma {:induction false} LogGrows(states: seq<World>, steps: seq<Step>, i: nat, j: nat)
    requires IsRun(states, steps) && i <= j <= |steps|
    ensures states[i].log <= states[j].log
    decreases j
  {
    if i < j {
      LogGrows(states, steps, i, j - 1);
      assert states[j] == Apply(states[j - 1], steps[j - 1]);
    }
  }

  /** Once retirement is recorded, no install or start action of that operation ever begins again. */
  lemma {:induction false} NothingAfterRetirement(states: seq<World>, steps: seq<Step>, i: nat, j: nat, op: string, k: Kind)
    requires IsRun(states, steps) && i <= j < |steps| && !k.Retire?
    requires Marked(states[i].files, op, Retire)
    ensures !Runs(states[j], steps[j], op, k)
  {
    MarkPersists(states, steps, i, j, op, Retire);
    RunSound(states, steps, j);
  }

  /** A start action begins only after an install was dispatched through the same gate. */
  lemma {:induction false} StartAfterInstall(states: seq<World>, steps: seq<Step>, j: nat, op: string)
    requires IsRun(states, steps) && j < |steps| && Runs(states[j], steps[j], op, Start)
    ensures Marked(states[j].files, op, Install)
    ensures exists i | 0 <= i < j :: steps[i].Enter? && steps[i].a.op == op && steps[i].kind == Install
  {
    RunSound(states, steps, j);
    MarkHasEntry(states, steps, j, op, Install);
  }

  lemma {:induction false} MarkHasEntry(states: seq<World>, steps: seq<Step>, j: nat, op: string, k: Kind)
    requires IsRun(states, steps) && j <= |steps| && Marked(states[j].files, op, k)
    ensures exists i | 0 <= i < j :: steps[i].Enter? && steps[i].a.op == op && steps[i].kind == k
    decreases j
  {
    if j > 0 {
      assert states[j] == Apply(states[j - 1], steps[j - 1]);
      if Marked(states[j - 1].files, op, k) {
        MarkHasEntry(states, steps, j - 1, op, k);
      } else {
        assert steps[j - 1].Enter? && steps[j - 1].a.op == op && steps[j - 1].kind == k;
      }
    }
  }

  /** A permitted controller gets through: its mark is on file before its action runs, once, and the
      lock is free again afterwards. */
  lemma {:induction false} ControllerGoesThrough(w: World, a: Pool.Assignment, k: Kind)
    requires a.op !in w.held && IntentTx(w.files, a, k).result.Ok?
    ensures Enabled(w, Enter(a, k))
    ensures var entered := Apply(w, Enter(a, k));
            && entered.files == IntentTx(w.files, a, k).state && Marked(entered.files, a.op, k) && entered.log == w.log
            && Enabled(entered, Act(a.op))
            && var acted := Apply(entered, Act(a.op));
               && acted.files == entered.files && acted.log == w.log + [Action(a.op, k)] && !Enabled(acted, Act(a.op))
               && Enabled(acted, Leave(a.op)) && Apply(acted, Leave(a.op)) == World(entered.files, w.held, acted.log)
  {
    var acted := Apply(Apply(w, Enter(a, k)), Act(a.op));
    assert Apply(acted, Leave(a.op)).held == w.held;
  }

  /** A refused controller leaves no trace. */
  lemma {:induction false} RefusedChangesNothing(w: World, a: Pool.Assignment, k: Kind)
    requires a.op !in w.held && IntentTx(w.files, a, k).result.Err?
    ensures Apply(w, Enter(a, k)) == w
  {
  }
}
