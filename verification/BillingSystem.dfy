/** The fenced billing tables, the leased work queue and the stored webhooks together, for one
    billing mode (internal/portal/billing_subscription_events.go, billing_charge_events.go and
    billing_worker.go).

    A webhook is consumed in one transaction: it invalidates its subscription, puts that
    subscription's work back to the start of the queue and marks itself processed. */
module BillingSystem {
  import opened Common
  import Billing
  import Work = BillingWork

  datatype Progress = Waiting | Processed

  /** A verified webhook: what it is about, and the customer it names. */
  datatype Event = Event(subject: Billing.Subject, customer: string, progress: Progress)

  datatype State = State(db: Billing.Db, queue: Work.Queue, events: map<string, Event>)

  const START := State(Billing.START, Work.START, map[])

  const PREFIX := "subscription/"

  /** The work row of a subscription. */
  function Key(id: string): string {
    PREFIX + id
  }

  predicate IsSubscription(key: string) {
    PREFIX <= key
  }

  datatype Step =
    | Tick(now: int)
    | Money(m: Billing.Step)
    | Job(w: Work.Step)
    | Deliver(event: string, e: Event)
    | Signal(event: string)

  /** The subscription a stored webhook is to invalidate, if it can be told. */
  function Target(s: State, event: string): Option<string> {
    if event !in s.events then None
    else
      var e := s.events[event];
      match e.subject
      case OfSubscription(id) => if id in s.db.subs && s.db.subs[id].customer == e.customer then Some(id) else None
      case OfCharge(id) =>
        if id in s.db.charges && s.db.charges[id].binding.Some? && s.db.charges[id].binding.value.subscription in s.db.subs
        then Some(s.db.charges[id].binding.value.subscription) else None
      case OfPlan(_) => None
  }

  /** Webhooks and the clock go through the system; a subscription's work recurs, nothing else does. */
  predicate Enabled(s: State, step: Step) {
    match step
    case Tick(now) => s.db.now <= now && s.queue.now <= now
    case Money(m) => !m.Pass? && !m.Webhook? && Billing.Enabled(s.db, m)
    case Job(w) =>
      && !w.Pass? && !w.Reset? && Work.Enabled(s.queue, w)
      && (w.Ack? ==> (w.recurring <==> IsSubscription(w.key)))
    case Deliver(event, e) => e.progress == Waiting
    case Signal(event) => event in s.events && s.events[event].progress == Waiting && Target(s, event).Some?
  }

  function Apply(s: State, step: Step): State
    requires Enabled(s, step)
  {
    match step
    case Tick(now) => s.(db := Billing.Apply(s.db, Billing.Pass(now)), queue := Work.Apply(s.queue, Work.Pass(now)))
    case Money(m) => s.(db := Billing.Apply(s.db, m))
    case Job(w) => s.(queue := Work.Apply(s.queue, w))
    case Deliver(event, e) => if event in s.events then s else s.(events := s.events[event := e])
    case Signal(event) =>
      var id := Target(s, event).value;
      assert id in s.db.subs;
      State(Billing.Apply(s.db, Billing.Webhook(id)), Work.Apply(s.queue, Work.Reset(Key(id))),
            s.events[event := s.events[event].(progress := Processed)])
  }

  /** Both halves are sound, and a subscription's work is never called done. */
  ghost predicate Inv(s: State) {
    && Billing.Inv(s.db) && Work.Inv(s.queue)
    && forall key | key in s.queue.tasks && IsSubscription(key) :: !s.queue.tasks[key].done
  }

  lemma {:induction false} StepPreserves(s: State, step: Step)
    requires Inv(s) && Enabled(s, step)
    ensures Inv(Apply(s, step))
  {
    match step {
      case Tick(now) =>
        Billing.StepPreserves(s.db, Billing.Pass(now));
        Work.StepPreserves(s.queue, Work.Pass(now));
      case Money(m) => Billing.StepPreserves(s.db, m);
      case Job(w) => Work.StepPreserves(s.queue, w);
      case Deliver(_, _) =>
      case Signal(event) =>
        Billing.StepPreserves(s.db, Billing.Webhook(Target(s, event).value));
        Work.StepPreserves(s.queue, Work.Reset(Key(Target(s, event).value)));
    }
  }

  // ---------------------------------------------------------------- runs

  predicate Took(states: seq<State>, steps: seq<Step>, i: int)
    requires |states| == |steps| + 1
  {
    0 <= i < |steps| && Enabled(states[i], steps[i]) && states[i + 1] == Apply(states[i], steps[i])
  }

  ghost predicate IsRun(states: seq<State>, steps: seq<Step>) {
    |states| == |steps| + 1 && states[0] == START && forall i | 0 <= i < |steps| :: Took(states, steps, i)
  }

  lemma {:induction false} RunSound(states: seq<State>, steps: seq<Step>, i: nat)
    requires IsRun(states, steps) && i <= |steps|
    ensures Inv(states[i])
    decreases i
  {
    if i > 0 {
      RunSound(states, steps, i - 1);
      assert Took(states, steps, i - 1);
      StepPreserves(states[i - 1], steps[i - 1]);
    }
  }

  predicate IsProcessed(s: State, event: string) {
    event in s.events && s.events[event].progress == Processed
  }

  /** A webhook is consumed exactly by its own signal step. */
  lemma {:induction false} ProcessedBy(s: State, step: Step, event: string)
    requires Enabled(s, step)
    ensures IsProcessed(Apply(s, step), event) <==> IsProcessed(s, event) || step == Signal(event)
  {
  }

  lemma {:induction false} ProcessedBetween(states: seq<State>, steps: seq<Step>, i: nat, j: nat, event: string)
    requires IsRun(states, steps) && i <= j <= |steps|
    ensures IsProcessed(states[j], event) <==> IsProcessed(states[i], event) || exists k | i <= k < j :: steps[k] == Signal(event)
    decreases j
  {
    if i < j {
      ProcessedBetween(states, steps, i, j - 1, event);
      assert Took(states, steps, j - 1);
      ProcessedBy(states[j - 1], steps[j - 1], event);
    }
  }

  /** Every webhook is consumed at most once, however often it is delivered and by however many workers. */
  lemma {:induction false} SignalledOnce(states: seq<State>, steps: seq<Step>, i: nat, j: nat, event: string)
    requires IsRun(states, steps) && i < j < |steps| && steps[i] == Signal(event)
    ensures steps[j] != Signal(event)
  {
    ProcessedBetween(states, steps, i, j, event);
    assert Took(states, steps, j);
  }

  /** The lease now on the row was taken in this stretch of the run. */
  ghost predicate LeasedSince(states: seq<State>, steps: seq<Step>, j: int, i: int, key: string)
    requires 0 <= j <= i <= |steps| && |states| == |steps| + 1
  {
    key in states[i].queue.tasks && (states[i].queue.tasks[key].lease != "" ==>
      exists k | j <= k < i :: steps[k] == Job(Work.Lease(key, states[i].queue.tasks[key].lease)))
  }

  /** From a webhook on, its subscription's work is in the queue and not done, and whatever lease is
      on it was taken after the webhook. */
  lemma {:induction false} SignalKeepsWork(states: seq<State>, steps: seq<Step>, j: nat, i: nat, id: string)
    requires IsRun(states, steps) && j < i <= |steps| && steps[j].Signal? && Target(states[j], steps[j].event) == Some(id)
    ensures Key(id) in states[i].queue.tasks && !states[i].queue.tasks[Key(id)].done
    ensures LeasedSince(states, steps, j + 1, i, Key(id))
    decreases i
  {
    RunSound(states, steps, i);
    assert Took(states, steps, i - 1);
    if i > j + 1 {
      SignalKeepsWork(states, steps, j, i - 1, id);
      LeaseAfter(states, steps, j + 1, i, Key(id));
    }
  }

  lemma {:induction false} LeaseAfter(states: seq<State>, steps: seq<Step>, j: nat, i: nat, key: string)
    requires |states| == |steps| + 1 && j < i <= |steps| && Took(states, steps, i - 1) && LeasedSince(states, steps, j, i - 1, key)
    ensures LeasedSince(states, steps, j, i, key)
  {
    var before, after := states[i - 1].queue.tasks, states[i].queue.tasks;
    TaskAfter(states[i - 1], steps[i - 1], key);
    if after[key].lease != "" && after[key].lease == before[key].lease {
      var k :| j <= k < i - 1 && steps[k] == Job(Work.Lease(key, before[key].lease));
      assert steps[k] == Job(Work.Lease(key, after[key].lease));
    }
  }

  /** Rows stay, and a lease appears on one only by being taken. */
  lemma {:induction false} TaskAfter(s: State, step: Step, key: string)
    requires Enabled(s, step) && key in s.queue.tasks
    ensures var tasks := Apply(s, step).queue.tasks;
            && key in tasks
            && (tasks[key].lease == s.queue.tasks[key].lease || tasks[key].lease == "" || step == Job(Work.Lease(key, tasks[key].lease)))
  {
  }

  /** So an acknowledgement that counts after a webhook is for work that was leased after it. */
  lemma {:induction false} AckAfterSignal(states: seq<State>, steps: seq<Step>, j: nat, i: nat, id: string)
    requires IsRun(states, steps) && j < i < |steps| && steps[j].Signal? && Target(states[j], steps[j].event) == Some(id)
    requires steps[i].Job? && steps[i].w.Ack? && steps[i].w.key == Key(id)
    requires Work.Holds(states[i].queue.tasks, Key(id), steps[i].w.token, states[i].queue.now)
    ensures exists k | j < k < i :: steps[k] == Job(Work.Lease(Key(id), steps[i].w.token))
  {
    SignalKeepsWork(states, steps, j, i, id);
    RunSound(states, steps, i);
    assert Took(states, steps, i);
    var k :| j + 1 <= k < i && steps[k] == Job(Work.Lease(Key(id), states[i].queue.tasks[Key(id)].lease));
    assert j < k;
  }

  /** And a snapshot stored after a webhook comes from a provider read begun after it. */
  lemma {:induction false} SnapshotAfterSignal(states: seq<State>, steps: seq<Step>, j: nat, i: nat, id: string)
    requires IsRun(states, steps) && j < i <= |steps| && steps[j].Signal? && Target(states[j], steps[j].event) == Some(id)
    requires id in states[i].db.subs && states[i].db.subs[id].snapshot.Some?
    ensures id in states[i].db.source && states[j].db.time < states[i].db.source[id]
  {
    InvalidatedSince(states, steps, j, i, id);
    RunSound(states, steps, i);
    assert Billing.SnapshotOk(states[i].db, id, states[i].db.subs[id]);
  }

  lemma {:induction false} InvalidatedSince(states: seq<State>, steps: seq<Step>, j: nat, i: nat, id: string)
    requires IsRun(states, steps) && j < i <= |steps| && steps[j].Signal? && Target(states[j], steps[j].event) == Some(id)
    ensures Billing.Invalidated(states[i].db, id) >= states[j].db.time && states[i].db.time > states[j].db.time
    decreases i
  {
    assert Took(states, steps, i - 1);
    if i > j + 1 {
      InvalidatedSince(states, steps, j, i - 1, id);
      LaterInvalidation(states[i - 1], steps[i - 1], id);
    }
  }

  lemma {:induction false} LaterInvalidation(s: State, step: Step, id: string)
    requires Enabled(s, step)
    ensures Billing.Invalidated(Apply(s, step).db, id) == Billing.Invalidated(s.db, id)
         || Billing.Invalidated(Apply(s, step).db, id) == s.db.time
    ensures Apply(s, step).db.time >= s.db.time
  {
    match step {
      case Tick(now) => Billing.InvalidatedAfter(s.db, Billing.Pass(now), id);
      case Money(m) => Billing.InvalidatedAfter(s.db, m, id);
      case Signal(event) =>
      case _ =>
    }
  }

  // ---------------------------------------------------------------- the queue on its own

  /** What a step is to the queue; what does not concern it lets no time pass. */
  function QueueStep(s: State, step: Step): Work.Step
    requires Enabled(s, step)
  {
    match step
    case Tick(now) => Work.Pass(now)
    case Job(w) => w
    case Signal(event) => Work.Reset(Key(Target(s, event).value))
    case _ => Work.Pass(s.queue.now)
  }

  lemma {:induction false} QueueFollows(s: State, step: Step)
    requires Enabled(s, step)
    ensures Work.Enabled(s.queue, QueueStep(s, step)) && Apply(s, step).queue == Work.Apply(s.queue, QueueStep(s, step))
  {
  }

  ghost function Queues(states: seq<State>): (r: seq<Work.Queue>)
    ensures |r| == |states| && forall i | 0 <= i < |r| :: r[i] == states[i].queue
  {
    seq(|states|, i requires 0 <= i < |states| => states[i].queue)
  }

  ghost function QueueSteps(states: seq<State>, steps: seq<Step>): (r: seq<Work.Step>)
    requires IsRun(states, steps)
    ensures |r| == |steps| && forall i | 0 <= i < |r| :: Took(states, steps, i) && r[i] == QueueStep(states[i], steps[i])
  {
    seq(|steps|, i requires 0 <= i < |steps| => assert Took(states, steps, i); QueueStep(states[i], steps[i]))
  }

  /** Seen from the queue, a run of the system is a run of the queue. */
  lemma {:induction false} QueueRun(states: seq<State>, steps: seq<Step>)
    requires IsRun(states, steps)
    ensures Work.IsRun(Queues(states), QueueSteps(states, steps))
  {
    var queues, works := Queues(states), QueueSteps(states, steps);
    forall i | 0 <= i < |works| ensures Work.Took(queues, works, i) {
      assert Took(states, steps, i);
      QueueFollows(states[i], steps[i]);
    }
  }

  /** Between a lease and the acknowledgement that counts for it, nobody else leases or settles the
      work, and no webhook puts it back. */
  lemma {:induction false} AckUnderOwnLease(states: seq<State>, steps: seq<Step>, i: nat, k: nat, j: nat, key: string, token: string)
    requires IsRun(states, steps) && i < k < j < |steps|
    requires steps[i] == Job(Work.Lease(key, token))
    requires steps[j].Job? && steps[j].w.Ack? && steps[j].w.key == key && steps[j].w.token == token
    requires Work.Holds(states[j].queue.tasks, key, token, states[j].queue.now)
    ensures Took(states, steps, k) && !Work.Disturbs(states[k].queue, QueueStep(states[k], steps[k]), key)
    ensures key in states[i + 1].queue.tasks && states[j].queue.tasks[key] == states[i + 1].queue.tasks[key]
    ensures states[j].queue.now < states[i].queue.now + Work.LEASE
  {
    QueueRun(states, steps);
    assert Took(states, steps, i) && Took(states, steps, j) && Took(states, steps, k);
    Work.AckUnderOwnLease(Queues(states), QueueSteps(states, steps), i, k, j);
  }

  /** The step settles this work for good or for now. */
  predicate Settles(s: State, step: Step, key: string) {
    step.Job? && Work.Settles(s.queue, step.w, key)
  }

  /** The step leases or settles the work, or is a webhook for its subscription. */
  predicate Disturbs(s: State, step: Step, key: string) {
    || (step.Job? && Work.Disturbs(s.queue, step.w, key))
    || (step.Signal? && Target(s, step.event).Some? && key == Key(Target(s, step.event).value))
  }

  /** Failed work, and the work of a subscription, is due again from its next attempt on. */
  lemma {:induction false} ComesBack(states: seq<State>, steps: seq<Step>, j: nat, i: nat, key: string)
    requires IsRun(states, steps) && j < i <= |steps| && Settles(states[j], steps[j], key)
    requires !steps[j].w.ok || IsSubscription(key)
    requires forall k | j < k < i :: !Disturbs(states[k], steps[k], key)
    requires states[j].queue.now + steps[j].w.delay <= states[i].queue.now && 0 <= states[i].queue.now
    ensures key in states[i].queue.tasks && Work.Due(states[i].queue.tasks[key], states[i].queue.now)
  {
    QueueRun(states, steps);
    assert Took(states, steps, j);
    forall k | j < k < i ensures !Work.Disturbs(Queues(states)[k], QueueSteps(states, steps)[k], key) {
      assert Took(states, steps, k) && !Disturbs(states[k], steps[k], key);
    }
    Work.ComesBack(Queues(states), QueueSteps(states, steps), j, i, key);
  }

  /** A webhook's work, once done, is never leased again. */
  lemma {:induction false} StaysDone(states: seq<State>, steps: seq<Step>, j: nat, i: nat, key: string)
    requires IsRun(states, steps) && j < i <= |steps| && Settles(states[j], steps[j], key) && steps[j].w.ok && !IsSubscription(key)
    ensures key in states[i].queue.tasks && states[i].queue.tasks[key].done
    ensures i < |steps| ==> !(steps[i].Job? && steps[i].w.Lease? && steps[i].w.key == key)
  {
    QueueRun(states, steps);
    assert Took(states, steps, j);
    forall k | j < k < i ensures QueueSteps(states, steps)[k] != Work.Reset(key) {
      assert Took(states, steps, k);
      if steps[k].Signal? { assert IsSubscription(Key(Target(states[k], steps[k].event).value)); }
    }
    Work.StaysDone(Queues(states), QueueSteps(states, steps), j, i, key);
  }

  // ---------------------------------------------------------------- longer runs

  /** What no step takes away: subscriptions, bindings and stored webhooks, and that one was consumed. */
  ghost predicate Keeps(s: State, s': State) {
    && Billing.SubsExtend(s.db.subs, s'.db.subs)
    && (forall id | id in s.db.charges && s.db.charges[id].binding.Some? ::
          id in s'.db.charges && s'.db.charges[id].binding == s.db.charges[id].binding)
    && (forall e | e in s.events ::
          && e in s'.events && s'.events[e].subject == s.events[e].subject
          && (s.events[e].progress == Processed ==> s'.events[e].progress == Processed))
  }

  lemma {:induction false} StepKeeps(s: State, step: Step)
    requires Enabled(s, step)
    ensures Keeps(s, Apply(s, step))
  {
    if step.Tick? { MoneyKeeps(s.db, Billing.Pass(step.now)); }
    else if step.Money? { MoneyKeeps(s.db, step.m); }
    else if step.Signal? { MoneyKeeps(s.db, Billing.Webhook(Target(s, step.event).value)); }
  }

  lemma {:induction false} MoneyKeeps(db: Billing.Db, m: Billing.Step)
    requires Billing.Enabled(db, m)
    ensures Billing.SubsExtend(db.subs, Billing.Apply(db, m).subs)
    ensures forall id | id in db.charges && db.charges[id].binding.Some? ::
              id in Billing.Apply(db, m).charges && Billing.Apply(db, m).charges[id].binding == db.charges[id].binding
  {
    Billing.SubsAfter(db, m);
    forall id | id in db.charges && db.charges[id].binding.Some?
      ensures id in Billing.Apply(db, m).charges && Billing.Apply(db, m).charges[id].binding == db.charges[id].binding
    {
      Billing.BindingStays(db, m, id);
    }
  }

  lemma {:induction false} KeepsAlong(states: seq<State>, steps: seq<Step>, i: nat, j: nat)
    requires IsRun(states, steps) && i <= j <= |steps|
    ensures Keeps(states[i], states[j])
    decreases j
  {
    if i < j {
      KeepsAlong(states, steps, i, j - 1);
      assert Took(states, steps, j - 1);
      StepKeeps(states[j - 1], steps[j - 1]);
    }
  }

  /** The subscription has just been invalidated and its work put at the start of the queue. */
  predicate JustSignalled(s: State, id: string) {
    id in s.db.subs && s.db.subs[id].snapshot.None? && Key(id) in s.queue.tasks && s.queue.tasks[Key(id)] == Work.FRESH
  }

  /** A refund or dispute signals the subscription its charge is bound to, for good. */
  lemma {:induction false} ChargeSignals(states: seq<State>, steps: seq<Step>, i: nat, k: nat, j: nat, event: string, id: string)
    requires IsRun(states, steps) && i <= k < j <= |steps| && steps[k] == Signal(event)
    requires event in states[i].events && states[i].events[event].subject == Billing.OfCharge(id)
    ensures id in states[j].db.charges && states[j].db.charges[id].binding.Some?
    ensures JustSignalled(states[k + 1], states[j].db.charges[id].binding.value.subscription)
  {
    KeepsAlong(states, steps, i, k);
    KeepsAlong(states, steps, k, j);
    assert Took(states, steps, k);
    assert states[k].events[event].subject == Billing.OfCharge(id);
  }

  lemma {:induction false} Extend(states: seq<State>, steps: seq<Step>, step: Step, s: State)
    requires IsRun(states, steps) && Enabled(states[|steps|], step) && s == Apply(states[|steps|], step)
    ensures IsRun(states + [s], steps + [step])
  {
    var states', steps' := states + [s], steps + [step];
    forall i | 0 <= i < |steps'| ensures Took(states', steps', i) {
      if i < |steps| { assert Took(states, steps, i); }
    }
  }
}
