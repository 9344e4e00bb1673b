/** The billing store's operations in their own form: `ReconcileBillingSubscription`,
    `ProcessBillingSubscriptionEvent`, `ReconcileBillingCharge`, `ProcessBillingChargeEvent`,
    `RefreshBillingPriceOnce`, `ConfigureBillingPlan` and `BillingWorkOnce`
    (internal/portal/billing_*.go).

    `Valid` says that everything this store and the other workers have done is a run of
    `BillingSystem`. Wherever a call is between two transactions, other workers take any steps:
    they read, store, lose reads, lease and acknowledge work, receive and consume webhooks, edit
    plans, and time passes. */
module BillingStore {
  import opened Common
  import opened Billing
  import Work = BillingWork
  import opened BillingSystem

  type Step = BillingSystem.Step

  /** The step ends or loses the read begun at `at`. */
  predicate Ends(step: Step, at: nat) {
    step.Money? &&
    match step.m
    case EndSubscription(t, _, _) => t == at
    case EndCharge(t, _) => t == at
    case EndPrice(t, _) => t == at
    case Lose(t) => t == at
    case _ => false
  }

  /** Another worker's step leaves our read in flight. */
  lemma {:induction false} TheyKeep(s: State, step: Step, at: nat)
    requires BillingSystem.Enabled(s, step) && !Ends(step, at) && at in s.db.flights && at < s.db.time
    ensures var flights := BillingSystem.Apply(s, step).db.flights; at in flights && flights[at] == s.db.flights[at]
  {
    if step.Money? {
      if Begins(step.m) { TheyBegin(s.db, step.m, at); } else if Closes(step.m) { Closed(s.db, step.m); }
    }
  }

  predicate Closes(m: Billing.Step) {
    m.EndSubscription? || m.EndCharge? || m.EndPrice? || m.Lose?
  }

  lemma {:induction false} TheyBegin(db: Db, m: Billing.Step, at: nat)
    requires Billing.Enabled(db, m) && Begins(m) && at in db.flights && at != db.time
    ensures at in Billing.Apply(db, m).flights && Billing.Apply(db, m).flights[at] == db.flights[at]
  {
  }

  lemma {:induction false} Closed(db: Db, m: Billing.Step)
    requires Billing.Enabled(db, m) && Closes(m)
    ensures Billing.Apply(db, m).flights == db.flights - {m.at}
  {
  }

  lemma {:induction false} OneClock(s: State, step: Step)
    requires BillingSystem.Enabled(s, step) && s.db.now == s.queue.now
    ensures BillingSystem.Apply(s, step).db.now == BillingSystem.Apply(s, step).queue.now >= s.queue.now
  {
    if step.Money? { SameTime(s.db, step.m); }
  }

  lemma {:induction false} SameTime(db: Db, m: Billing.Step)
    requires Billing.Enabled(db, m) && !m.Pass?
    ensures Billing.Apply(db, m).now == db.now
  {
  }

  /** A history goes on from an earlier one. */
  ghost predicate Longer(was: seq<State>, before: seq<Step>, states: seq<State>, steps: seq<Step>) {
    was <= states && before <= steps
  }

  predicate ValidPlan(plan: string, price: string) {
    && 0 < |plan| <= 100 && "price_" <= price && 6 < |price| <= 255
    && forall i | 0 <= i < |price| :: price[i] != ' ' && price[i] != '/' && price[i] != '\\' && price[i] != '\r' && price[i] != '\n'
  }

  const EVENT := "event/"

  /** What asks for work: every subscription, and every webhook that is waiting. */
  function Wanted(s: State): set<string> {
    (set id | id in s.db.subs :: Key(id)) + (set e | e in s.events && s.events[e].progress == Waiting :: EVENT + e)
  }

  /** New work joins the queue; work already there is left as it is. */
  function Discovered(tasks: Work.Tasks, wanted: set<string>): Work.Tasks {
    map k | k in tasks.Keys + wanted :: if k in tasks then tasks[k] else Work.FRESH
  }

  function Offered(tasks: Work.Tasks, k: string): Work.Tasks {
    if k in tasks then tasks else tasks[k := Work.FRESH]
  }

  lemma {:induction false} AllKnown(tasks: Work.Tasks)
    ensures Discovered(tasks, {}) == tasks
  {
  }

  lemma {:induction false} OneMore(tasks: Work.Tasks, wanted: set<string>, k: string)
    ensures Discovered(tasks, wanted + {k}) == Offered(Discovered(tasks, wanted), k)
  {
  }

  function WithTasks(s: State, tasks: Work.Tasks): State {
    s.(queue := s.queue.(tasks := tasks))
  }

  /** A name of one of the provider's charges. */
  ghost predicate ChargeName(s: string) {
    "ch_" <= s && |"ch_"| < |s| <= 255 && forall i | 0 <= i < |s| :: s[i] !in " /\\\r\n"
  }

  lemma {:induction false} ChargeNamesAgree(s: string)
    ensures ValidCharge(s) <==> ChargeName(s)
  {
  }

  /** What the provider says to a worker: about a subscription and its last charge, about a charge, and
      whether it creates what was asked for. */
  datatype Said = Said(subscription: Option<SubscriptionSnapshot>, named: Option<string>, charge: Option<ChargeObservation>, created: bool)

  /** The provider's answer describes this subscription as it is on record, now. */
  ghost predicate Answers(s: State, id: string, answer: Option<SubscriptionSnapshot>, named: Option<string>) {
    && id in s.db.subs && answer == Some(SubscriptionSnapshot(id, s.db.subs[id].customer, s.db.subs[id].price, s.db.now))
    && (named.Some? ==> ChargeName(named.value))
  }

  /** The provider's answer is about this charge, now, for a known subscription of its customer, with
      sensible amounts and the binding it already has, if any. */
  ghost predicate Observes(s: State, id: string, answer: Option<ChargeObservation>) {
    && answer.Some? && answer.value.id == id && answer.value.observedAt == s.db.now
    && 0 < answer.value.captured && 0 <= answer.value.refunded <= answer.value.captured
    && answer.value.subscription in s.db.subs && s.db.subs[answer.value.subscription].customer == answer.value.customer
    && (id in s.db.charges && s.db.charges[id].binding.Some? ==>
          s.db.charges[id].binding.value == Binding(answer.value.subscription, answer.value.customer, answer.value.invoice, answer.value.payment))
  }

  /** The webhook is processed already, names a known subscription of its customer, or a charge that
      the provider's answer binds to one. */
  ghost predicate Consumable(s: State, event: string, answer: Option<ChargeObservation>) {
    && event in s.events
    && (s.events[event].progress == Waiting ==>
          match s.events[event].subject
          case OfSubscription(id) => id in s.db.subs && s.db.subs[id].customer == s.events[event].customer
          case OfCharge(id) => ChargeName(id) && Observes(s, id, answer)
          case OfPlan(_) => false)
  }

  ghost predicate Performable(s: State, key: string, said: Said) {
    if IsSubscription(key) then Answers(s, key[|PREFIX|..], said.subscription, said.named)
    else if EVENT <= key then Consumable(s, key[|EVENT|..], said.charge)
    else said.created
  }

  /** Everything but the queue is as it was. */
  predicate SameBooks(s: State, s': State) {
    s'.db.subs == s.db.subs && s'.db.charges == s.db.charges && s'.db.now == s.db.now && s'.events == s.events
  }

  lemma {:induction false} SamePerformance(s: State, s': State, key: string, said: Said)
    requires SameBooks(s, s')
    ensures Performable(s, key, said) <==> Performable(s', key, said)
  {
  }

  predicate Earliest(tasks: Work.Tasks, now: int, key: string) {
    && key in tasks && Work.Due(tasks[key], now)
    && forall k | k in tasks && Work.Due(tasks[k], now) :: tasks[key].nextAttempt <= tasks[k].nextAttempt
  }

  class Store {
    const env: Environment
    var now: int
    var subs: Subscriptions
    var charges: Charges
    var plans: Plans
    var tasks: Work.Tasks
    var events: map<string, Event>
    // Bookkeeping of the run.
    var time: nat
    var flights: map<nat, Read>
    var invalidated: map<string, nat>
    var source: map<string, nat>
    var log: seq<Stored>
    var tokens: set<string>
    ghost var states: seq<State>
    ghost var steps: seq<Step>

    function View(): State
      reads this
    {
      State(Db(now, time, subs, charges, plans, flights, invalidated, source, log), Work.Queue(tasks, now, tokens), events)
    }

    ghost predicate Valid()
      reads this
    {
      BillingSystem.IsRun(states, steps) && states[|steps|] == View()
    }

    constructor (env: Environment)
      ensures this.env == env && Valid() && View() == BillingSystem.START && steps == []
    {
      this.env := env;
      now, time, subs, charges, plans, tasks := 0, 0, map[], map[], map[], map[];
      events, flights, invalidated, source, log, tokens := map[], map[], map[], map[], [], {};
      states, steps := [BillingSystem.START], [];
    }

    lemma Sound()
      requires Valid()
      ensures BillingSystem.Inv(View())
    {
      BillingSystem.RunSound(states, steps, |steps|);
    }

    lemma Flying(at: nat)
      requires Valid() && at in flights
      ensures at < time
    {
      Sound();
    }

    lemma Unused()
      requires Valid()
      ensures time !in flights
    {
      Sound();
    }

    /** Commits one step. */
    method Commit(step: Step)
      requires Valid() && BillingSystem.Enabled(View(), step)
      modifies this
      ensures Valid() && View() == BillingSystem.Apply(old(View()), step) && steps == old(steps) + [step] && states == old(states) + [View()]
      ensures now >= old(now)
    {
      var s := BillingSystem.Apply(View(), step);
      OneClock(View(), step);
      Extend(states, steps, step, s);
      states, steps := states + [s], steps + [step];
      Load(s);
    }

    method Load(s: State)
      requires s.db.now == s.queue.now
      modifies `now, `time, `subs, `charges, `plans, `flights, `invalidated, `source, `log, `tasks, `tokens, `events
      ensures View() == s
    {
      now, time, subs, charges, plans := s.db.now, s.db.time, s.db.subs, s.db.charges, s.db.plans;
      flights, invalidated, source, log := s.db.flights, s.db.invalidated, s.db.source, s.db.log;
      tasks, tokens, events := s.queue.tasks, s.queue.tokens, s.events;
    }

    /** Any one step of another worker, which cannot touch a read of ours. */
    method OneElsewhere(ours: Option<nat>)
      requires Valid() && (ours.Some? ==> ours.value in flights)
      modifies this
      ensures Valid() && Longer(old(states), old(steps), states, steps) && now >= old(now)
      ensures ours.Some? ==> ours.value in flights && flights[ours.value] == old(flights)[ours.value]
    {
      var step: Step := *;
      if BillingSystem.Enabled(View(), step) && (ours.None? || !Ends(step, ours.value)) {
        if ours.Some? {
          Flying(ours.value);
          TheyKeep(View(), step, ours.value);
        }
        Commit(step);
      }
    }

    /** Whatever other workers do meanwhile: nothing, when all is calm. */
    method Elsewhere(ours: Option<nat>)
      requires Valid() && (ours.Some? ==> ours.value in flights)
      modifies this
      ensures Valid() && Longer(old(states), old(steps), states, steps) && now >= old(now)
      ensures ours.Some? ==> ours.value in flights && flights[ours.value] == old(flights)[ours.value]
      ensures env.calm ==> View() == old(View()) && steps == old(steps)
    {
      var n: int := *;
      var i := 0;
      while i < n && !env.calm
        invariant Valid() && Longer(old(states), old(steps), states, steps) && now >= old(now)
        invariant ours.Some? ==> ours.value in flights && flights[ours.value] == old(flights)[ours.value]
        invariant env.calm ==> View() == old(View()) && steps == old(steps)
      {
        OneElsewhere(ours);
        i := i + 1;
      }
    }

    // -------------------------------------------------------------- subscriptions

    /** A snapshot is stored only under the generation taken before the read, and it is the row's own.
        `answer` is what the provider says, `named` the charge of its last invoice. */
    method ReconcileBillingSubscription(id: string, answer: Option<SubscriptionSnapshot>, named: Option<string>) returns (result: Result<()>)
      requires Valid()
      modifies this
      ensures Valid() && Longer(old(states), old(steps), states, steps) && now >= old(now)
      ensures result.Ok? ==>
                && id in subs && subs[id].snapshot == answer && answer.Some? && answer.value.id == id
                && |log| > 0 && log[|log| - 1] == Stored(OfSubscription(id), subs[id].generation)
      ensures id !in old(subs) ==> result == Err(ErrNotFound) && View() == old(View())
      ensures env.calm ==> (result.Ok? <==> Answers(old(View()), id, answer, named))
      ensures env.calm ==> tasks == old(tasks) && now == old(now)
    {
      if id !in subs { return Err(ErrNotFound); }
      var at, generation := BeginRead(id);
      Elsewhere(Some(at));
      result := StoreAnswer(id, at, generation, answer, named);
    }

    method BeginRead(id: string) returns (at: nat, generation: nat)
      requires Valid() && id in subs
      modifies this
      ensures Valid() && Longer(old(states), old(steps), states, steps) && now == old(now) && tasks == old(tasks)
      ensures id in subs && subs == old(subs)[id := old(subs)[id].(generation := old(subs)[id].generation + 1)]
      ensures at in flights && generation == subs[id].generation
      ensures flights[at] == Read(OfSubscription(id), generation, now, subs[id].customer, subs[id].price)
    {
      Unused();
      at := time;
      Commit(Money(ReadSubscription(id)));
      generation := subs[id].generation;
    }

    /** The provider's answer, if it comes, is checked and stored in one transaction. */
    method StoreAnswer(id: string, at: nat, generation: nat, answer: Option<SubscriptionSnapshot>, named: Option<string>) returns (result: Result<()>)
      requires Valid() && at in flights && flights[at].subject == OfSubscription(id) && flights[at].generation == generation
      modifies this
      ensures Valid() && Longer(old(states), old(steps), states, steps) && now == old(now) && tasks == old(tasks)
      ensures result.Ok? <==>
                && answer.Some? && answer.value.id == id
                && answer.value.customer == old(flights)[at].customer && answer.value.price == old(flights)[at].price
                && old(flights)[at].started <= answer.value.observedAt <= now
                && (named.Some? ==> ChargeName(named.value))
                && id in old(subs) && old(subs)[id].generation == generation
      ensures result.Ok? ==>
                && subs == old(subs)[id := old(subs)[id].(snapshot := answer)]
                && charges == (if named.Some? && named.value !in old(charges) then old(charges)[named.value := Charge(0, None, None)] else old(charges))
                && log == old(log) + [Stored(OfSubscription(id), generation)]
      ensures result.Err? ==> View() == old(View())
    {
      if named.Some? { ChargeNamesAgree(named.value); }
      if answer.None? { return Err(ErrUnhealthy); }
      if !GenuineSubscription(flights[at], answer.value, now) { return Err(ErrConflict); }
      if named.Some? && !ValidCharge(named.value) { return Err(ErrConflict); }
      if id !in subs || subs[id].generation != generation { return Err(ErrConflict); }
      Commit(Money(EndSubscription(at, answer.value, named)));
      return Ok(());
    }

    /** A waiting event invalidates its own subscription, once, and puts its work back in the queue. */
    method ProcessBillingSubscriptionEvent(event: string) returns (result: Result<bool>)
      requires Valid()
      modifies this
      ensures Valid() && Longer(old(states), old(steps), states, steps) && now >= old(now)
      ensures result == Ok(true) && old(event in events && events[event].progress == Waiting) ==>
                && steps == old(steps) + [Signal(event)] && IsProcessed(View(), event)
                && old(events)[event].subject.OfSubscription?
                && var id := old(events)[event].subject.id;
                   && id in old(subs) && old(subs)[id].customer == old(events)[event].customer
                   && subs == old(subs)[id := old(subs)[id].(generation := old(subs)[id].generation + 1, snapshot := None)]
                   && tasks == old(tasks)["subscription/" + id := Work.Task(0, 0, false, "", 0)]
      ensures old(event in events && events[event].progress == Waiting) ==>
                if old(events)[event].subject.OfSubscription? then result == Ok(true) <==> Target(old(View()), event).Some?
                else result == Ok(false)
      ensures IsProcessed(old(View()), event) ==> result == Ok(true)
      ensures result == Ok(true) ==> IsProcessed(View(), event)
      ensures result != Ok(true) || IsProcessed(old(View()), event) ==> View() == old(View())
      ensures event !in old(events) ==> result.Err?
      ensures now == old(now) && forall key | key in old(tasks) && !IsSubscription(key) :: key in tasks && tasks[key] == old(tasks)[key]
    {
      if event !in events { return Err(ErrNotFound); }
      if events[event].progress != Waiting { return Ok(true); }
      if !events[event].subject.OfSubscription? { return Ok(false); }
      var id := events[event].subject.id;
      if id !in subs { return Err(ErrNotFound); }
      if subs[id].customer != events[event].customer { return Err(ErrConflict); }
      Commit(Signal(event));
      return Ok(true);
    }

    // -------------------------------------------------------------- charges

    /** A charge is stored only under its own fence and never under a different binding. */
    method ReconcileBillingCharge(id: string, answer: Option<ChargeObservation>) returns (result: Result<()>)
      requires Valid()
      modifies this
      ensures Valid() && Longer(old(states), old(steps), states, steps) && now >= old(now)
      ensures result.Ok? ==>
                && answer.Some? && id in charges && charges[id].snapshot == answer && charges[id].binding == Some(BindingOf(answer.value))
                && |log| > 0 && log[|log| - 1] == Stored(OfCharge(id), charges[id].generation)
                && charges[id].binding.value.subscription in subs
      ensures !ChargeName(id) ==> result == Err(ErrInvalid) && View() == old(View())
      ensures env.calm ==> (result.Ok? <==> ChargeName(id) && Observes(old(View()), id, answer))
      ensures env.calm ==> tasks == old(tasks) && now == old(now) && events == old(events)
    {
      ChargeNamesAgree(id);
      if !ValidCharge(id) { return Err(ErrInvalid); }
      var at, generation := BeginLookup(id);
      Elsewhere(Some(at));
      result := StoreObservation(id, at, generation, answer);
    }

    method BeginLookup(id: string) returns (at: nat, generation: nat)
      requires Valid() && ValidCharge(id)
      modifies this
      ensures Valid() && Longer(old(states), old(steps), states, steps)
      ensures now == old(now) && tasks == old(tasks) && events == old(events) && subs == old(subs)
      ensures id in charges && charges - {id} == old(charges) - {id}
      ensures charges[id].binding == if id in old(charges) then old(charges)[id].binding else None
      ensures at in flights && generation == charges[id].generation && flights[at] == Read(OfCharge(id), generation, now, "", "")
    {
      Unused();
      at := time;
      Commit(Money(ReadCharge(id)));
      generation := charges[id].generation;
    }

    method StoreObservation(id: string, at: nat, generation: nat, answer: Option<ChargeObservation>) returns (result: Result<()>)
      requires Valid() && at in flights && flights[at].subject == OfCharge(id) && flights[at].generation == generation
      modifies this
      ensures Valid() && Longer(old(states), old(steps), states, steps)
      ensures now == old(now) && tasks == old(tasks) && events == old(events) && subs == old(subs)
      ensures result.Ok? <==>
                && answer.Some? && answer.value.id == id && old(flights)[at].started <= answer.value.observedAt <= now
                && 0 < answer.value.captured && 0 <= answer.value.refunded <= answer.value.captured
                && answer.value.subscription in subs && subs[answer.value.subscription].customer == answer.value.customer
                && id in old(charges) && old(charges)[id].generation == generation
                && (old(charges)[id].binding.Some? ==>
                      old(charges)[id].binding.value == Binding(answer.value.subscription, answer.value.customer, answer.value.invoice, answer.value.payment))
      ensures result.Ok? ==>
                && charges == old(charges)[id := old(charges)[id].(snapshot := answer, binding := Some(
                     Binding(answer.value.subscription, answer.value.customer, answer.value.invoice, answer.value.payment)))]
                && log == old(log) + [Stored(OfCharge(id), generation)]
      ensures result.Err? ==> View() == old(View())
    {
      if answer.None? { return Err(ErrUnhealthy); }
      var o := answer.value;
      if !GenuineCharge(flights[at], o, now) { return Err(ErrConflict); }
      if o.subscription !in subs { return Err(ErrNotFound); }
      if subs[o.subscription].customer != o.customer { return Err(ErrConflict); }
      if id !in charges || charges[id].generation != generation { return Err(ErrConflict); }
      if charges[id].binding.Some? && charges[id].binding.value != BindingOf(o) { return Err(ErrConflict); }
      Commit(Money(EndCharge(at, o)));
      return Ok(());
    }

    /** A refund or dispute is looked up first, and consumed in a second transaction unless another
        worker has consumed it meanwhile. Either way, if it was waiting, one signal of this event
        during the call has invalidated the subscription the charge is bound to. */
    method ProcessBillingChargeEvent(event: string, answer: Option<ChargeObservation>) returns (result: Result<bool>)
      requires Valid()
      modifies this
      ensures Valid() && Longer(old(states), old(steps), states, steps) && now >= old(now)
      ensures result == Ok(true) ==> IsProcessed(View(), event)
      ensures result == Ok(true) && !IsProcessed(old(View()), event) ==>
                && event in old(events) && old(events)[event].subject.OfCharge?
                && SignalledSince(|old(steps)|, event, old(events)[event].subject.id)
      ensures IsProcessed(old(View()), event) ==> result == Ok(true) && View() == old(View())
      ensures event !in old(events) ==> result.Err? && View() == old(View())
      ensures result == Ok(false) <==> old(event in events && events[event].progress == Waiting && !events[event].subject.OfCharge?)
      ensures result == Ok(false) ==> View() == old(View())
      ensures env.calm && old(event in events && events[event].progress == Waiting && events[event].subject.OfCharge?) ==>
                && (result == Ok(true) <==>
                      ChargeName(old(events)[event].subject.id) && Observes(old(View()), old(events)[event].subject.id, answer))
                && now == old(now) && forall key | key in old(tasks) && !IsSubscription(key) :: key in tasks && tasks[key] == old(tasks)[key]
    {
      if event !in events { return Err(ErrNotFound); }
      if events[event].progress != Waiting { return Ok(true); }
      if !events[event].subject.OfCharge? { return Ok(false); }
      var id := events[event].subject.id;
      var looked := LookUp(event, id, answer);
      if looked.Err? { return Err(looked.error); }
      ConsumeChargeEvent(event, id);
      SignalledHere(|old(steps)|, event, id);
      return Ok(true);
    }

    /** The provider read of a charge event, outside any transaction. */
    method LookUp(event: string, id: string, answer: Option<ChargeObservation>) returns (result: Result<()>)
      requires Valid() && event in events && events[event].subject == OfCharge(id)
      modifies this
      ensures Valid() && Longer(old(states), old(steps), states, steps) && now >= old(now)
      ensures result.Ok? ==>
                && event in events && events[event].subject == OfCharge(id)
                && id in charges && charges[id].binding.Some? && charges[id].binding.value.subscription in subs
      ensures env.calm ==>
                && (result.Ok? <==> ChargeName(id) && Observes(old(View()), id, answer))
                && tasks == old(tasks) && now == old(now)
    {
      result := ReconcileBillingCharge(id, answer);
      ghost var looked := |steps|;
      Elsewhere(None);
      KeepsAlong(states, steps, |old(steps)|, |steps|);
      KeepsAlong(states, steps, looked, |steps|);
    }

    /** Some step from `since` on consumed the event and left the charge's subscription invalidated,
        with its work at the start of the queue. */
    ghost predicate SignalledSince(since: nat, event: string, id: string)
      reads this
    {
      && id in charges && charges[id].binding.Some? && |states| == |steps| + 1
      && exists k | since <= k < |steps| :: steps[k] == Signal(event) && JustSignalled(states[k + 1], charges[id].binding.value.subscription)
    }

    /** The second transaction: the event's state is read again before anything is written. */
    method ConsumeChargeEvent(event: string, id: string)
      requires Valid() && event in events && events[event].subject == OfCharge(id)
      requires id in charges && charges[id].binding.Some? && charges[id].binding.value.subscription in subs
      modifies this
      ensures Valid() && Longer(old(states), old(steps), states, steps) && now >= old(now) && IsProcessed(View(), event)
      ensures if IsProcessed(old(View()), event) then steps == old(steps) && View() == old(View()) else steps == old(steps) + [Signal(event)]
      ensures now == old(now) && forall key | key in old(tasks) && !IsSubscription(key) :: key in tasks && tasks[key] == old(tasks)[key]
    {
      if events[event].progress != Waiting { return; }
      Commit(Signal(event));
    }

    /** What was waiting at a point of the history and is processed now was signalled since. */
    lemma SignalledHere(since: nat, event: string, id: string)
      requires Valid() && since <= |steps| && IsProcessed(View(), event) && !IsProcessed(states[since], event)
      requires event in states[since].events && states[since].events[event].subject == OfCharge(id)
      ensures SignalledSince(since, event, id)
    {
      ProcessedBetween(states, steps, since, |steps|, event);
      var k :| since <= k < |steps| && steps[k] == Signal(event);
      ChargeSignals(states, steps, since, k, |steps|, event, id);
    }

    // -------------------------------------------------------------- plans

    /** An edit fences reads in flight and drops the stored price; repeating a configuration changes nothing. */
    method ConfigureBillingPlan(plan: string, price: string, enabled: bool) returns (result: Result<()>)
      requires Valid()
      modifies this
      ensures Valid() && Longer(old(states), old(steps), states, steps)
      ensures result == if ValidPlan(plan, price) then Ok(()) else Err(ErrInvalid)
      ensures result.Ok? <==>
                && 0 < |plan| <= 100 && "price_" <= price && |"price_"| < |price| <= 255
                && forall i | 0 <= i < |price| :: price[i] !in " /\\\r\n"
      ensures result.Err? ==> View() == old(View())
      ensures result.Ok? ==>
                && plan in plans && plans[plan].price == price && plans[plan].enabled == enabled
                && (if plan in old(plans) && old(plans)[plan].price == price && old(plans)[plan].enabled == enabled
                    then plans == old(plans)
                    else plans[plan].snapshot.None? && plans[plan].nextRefresh == 0 && plans - {plan} == old(plans) - {plan})
    {
      if !ValidPlan(plan, price) { return Err(ErrInvalid); }
      Commit(Money(EditPlan(plan, price, enabled)));
      return Ok(());
    }

    /** The enabled plan whose refresh has been due the longest. */
    method FindDuePlan() returns (plan: Option<string>)
      ensures plan.None? ==> forall p | p in plans :: !Billing.Due(plans[p], now)
      ensures plan.Some? ==>
                && plan.value in plans && Billing.Due(plans[plan.value], now)
                && forall p | p in plans && Billing.Due(plans[p], now) :: plans[plan.value].nextRefresh <= plans[p].nextRefresh
    {
      plan := None;
      var todo := plans.Keys;
      while todo != {}
        invariant todo <= plans.Keys
        invariant plan.None? ==> forall p | p in plans && p !in todo :: !Billing.Due(plans[p], now)
        invariant plan.Some? ==>
                    && plan.value in plans && Billing.Due(plans[plan.value], now)
                    && forall p | p in plans && p !in todo && Billing.Due(plans[p], now) :: plans[plan.value].nextRefresh <= plans[p].nextRefresh
        decreases |todo|
      {
        var p :| p in todo;
        todo := todo - {p};
        if Billing.Due(plans[p], now) && (plan.None? || plans[p].nextRefresh < plans[plan.value].nextRefresh) { plan := Some(p); }
      }
    }

    /** Refreshes a plan exactly when one is due, after setting it aside for a minute; a price is stored
        only while the plan is still enabled under the price that was read. */
    method RefreshBillingPriceOnce(answer: Option<PriceSnapshot>) returns (refreshed: bool, result: Result<()>, ghost plan: string)
      requires Valid()
      modifies this
      ensures Valid() && Longer(old(states), old(steps), states, steps) && now >= old(now)
      ensures refreshed <==> exists p | p in old(plans) :: Billing.Due(old(plans)[p], old(now))
      ensures !refreshed ==> result.Ok? && View() == old(View())
      ensures refreshed ==>
                && plan in old(plans) && old(plans)[plan].enabled && old(plans)[plan].nextRefresh <= old(now)
                && forall p | p in old(plans) && old(plans)[p].enabled :: old(plans)[plan].nextRefresh <= old(plans)[p].nextRefresh
      ensures refreshed && result.Ok? ==> Refreshed(plan) && plans[plan].snapshot == answer
      ensures env.calm && refreshed ==>
                && (result.Ok? <==> answer == Some(PriceSnapshot(plan, old(plans)[plan].price, old(now))))
                && plan in plans && plans[plan].nextRefresh == now + (if result.Ok? then 300 else 60)
                && plans - {plan} == old(plans) - {plan}
    {
      plan := "";
      var due := FindDuePlan();
      if due.None? { return false, Ok(()), plan; }
      plan := due.value;
      var at, price, generation := ReservePlan(due.value);
      Elsewhere(Some(at));
      result := StorePriceAnswer(due.value, at, price, generation, answer);
      return true, result, plan;
    }

    method ReservePlan(plan: string) returns (at: nat, price: string, generation: nat)
      requires Valid() && plan in plans && Billing.Due(plans[plan], now)
      modifies this
      ensures Valid() && Longer(old(states), old(steps), states, steps) && now == old(now)
      ensures plan in plans && plans - {plan} == old(plans) - {plan}
      ensures plans[plan] == old(plans)[plan].(generation := old(plans)[plan].generation + 1, nextRefresh := now + 60)
      ensures price == plans[plan].price && generation == plans[plan].generation
      ensures at in flights && flights[at] == Read(OfPlan(plan), generation, now, "", price)
    {
      Unused();
      at := time;
      Commit(Money(ReadPrice(plan)));
      price, generation := plans[plan].price, plans[plan].generation;
    }

    /** The stored price is the plan's own, and the next refresh is five minutes away. */
    predicate Refreshed(plan: string)
      reads this
    {
      && plan in plans && plans[plan].enabled && plans[plan].snapshot.Some? && plans[plan].snapshot.value.price == plans[plan].price
      && plans[plan].nextRefresh == now + 300
      && |log| > 0 && log[|log| - 1] == Stored(OfPlan(plan), plans[plan].generation)
    }

    method StorePriceAnswer(plan: string, at: nat, price: string, generation: nat, answer: Option<PriceSnapshot>) returns (result: Result<()>)
      requires Valid() && at in flights && flights[at].subject == OfPlan(plan)
      requires flights[at].generation == generation && flights[at].price == price
      modifies this
      ensures Valid() && Longer(old(states), old(steps), states, steps) && now == old(now)
      ensures result.Ok? <==>
                && answer.Some? && answer.value.plan == plan && answer.value.price == price
                && old(flights)[at].started <= answer.value.observedAt <= now
                && plan in old(plans) && old(plans)[plan].price == price && old(plans)[plan].enabled && old(plans)[plan].generation == generation
      ensures result.Ok? ==> Refreshed(plan) && plans == old(plans)[plan := old(plans)[plan].(snapshot := answer, nextRefresh := now + 300)]
      ensures result.Err? ==> View() == old(View())
    {
      if answer.None? { return Err(ErrUnhealthy); }
      if !GenuinePrice(flights[at], answer.value, now) { return Err(ErrConflict); }
      if plan !in plans || plans[plan].price != price || !plans[plan].enabled || plans[plan].generation != generation {
        return Err(ErrConflict);
      }
      Commit(Money(EndPrice(at, answer.value)));
      return Ok(());
    }

    // -------------------------------------------------------------- leased work

    /** Puts what is wanted in the queue, each once; `requests` are the customers and checkouts the
        provider has not been told of. */
    method Discover(requests: set<string>)
      requires Valid()
      modifies this
      ensures Valid() && Longer(old(states), old(steps), states, steps) && now == old(now) && tokens == old(tokens)
      ensures View() == WithTasks(old(View()), old(Queued(requests)))
      ensures forall id | id in subs :: "subscription/" + id in tasks
      ensures forall e | e in events && events[e].progress == Waiting :: "event/" + e in tasks
      ensures forall k | k in requests :: k in tasks
      ensures forall k | k in old(tasks) :: k in tasks && tasks[k] == old(tasks)[k]
      ensures forall k | k in tasks && k !in old(tasks) :: tasks[k] == Work.Task(0, 0, false, "", 0) && k in Wanted(View()) + requests
    {
      OfferAll(Wanted(View()) + requests);
    }

    method OfferAll(wanted: set<string>)
      requires Valid()
      modifies this
      ensures Valid() && Longer(old(states), old(steps), states, steps)
      ensures View() == WithTasks(old(View()), Discovered(old(tasks), wanted))
    {
      var todo, found := wanted, {};
      AllKnown(tasks);
      while todo != {}
        invariant Valid() && Longer(old(states), old(steps), states, steps) && found + todo == wanted
        invariant View() == WithTasks(old(View()), Discovered(old(tasks), found))
        decreases todo
      {
        var k :| k in todo;
        OneMore(old(tasks), found, k);
        Offer(k);
        todo, found := todo - {k}, found + {k};
      }
    }

    method Offer(k: string)
      requires Valid()
      modifies this
      ensures Valid() && Longer(old(states), old(steps), states, steps)
      ensures View() == WithTasks(old(View()), Offered(old(tasks), k))
    {
      Commit(Job(Work.Offer(k)));
    }

    /** The due work with the earliest next attempt. */
    method FindDue() returns (key: Option<string>)
      ensures key.None? ==> forall k | k in tasks :: !Work.Due(tasks[k], now)
      ensures key.Some? ==> Earliest(tasks, now, key.value)
    {
      key := None;
      var todo := tasks.Keys;
      while todo != {}
        invariant todo <= tasks.Keys
        invariant key.None? ==> forall k | k in tasks && k !in todo :: !Work.Due(tasks[k], now)
        invariant key.Some? ==>
                    && key.value in tasks && Work.Due(tasks[key.value], now)
                    && forall k | k in tasks && k !in todo && Work.Due(tasks[k], now) :: tasks[key.value].nextAttempt <= tasks[k].nextAttempt
        decreases |todo|
      {
        var k :| k in todo;
        todo := todo - {k};
        if Work.Due(tasks[k], now) && (key.None? || tasks[k].nextAttempt < tasks[key.value].nextAttempt) { key := Some(k); }
      }
    }

    /** `performBillingWork`: reconciles a subscription, consumes an event, or calls a provider. */
    method Perform(key: string, said: Said) returns (result: Result<()>)
      requires Valid()
      modifies this
      ensures Valid() && Longer(old(states), old(steps), states, steps) && now >= old(now)
      ensures result.Ok? && EVENT <= key ==> IsProcessed(View(), key[|EVENT|..])
      ensures env.calm ==> (result.Ok? <==> Performable(old(View()), key, said))
      ensures env.calm ==> now == old(now) && (key in old(tasks) ==> key in tasks && tasks[key] == old(tasks)[key])
    {
      if IsSubscription(key) {
        assert key[0] == PREFIX[0] != EVENT[0];
        result := ReconcileBillingSubscription(key[|PREFIX|..], said.subscription, said.named);
      } else if EVENT <= key {
        result := ConsumeEvent(key[|EVENT|..], said.charge);
      } else {
        Elsewhere(None);
        result := if said.created then Ok(()) else Err(ErrUnhealthy);
      }
    }

    method ConsumeEvent(event: string, answer: Option<ChargeObservation>) returns (result: Result<()>)
      requires Valid()
      modifies this
      ensures Valid() && Longer(old(states), old(steps), states, steps) && now >= old(now)
      ensures result.Ok? ==> IsProcessed(View(), event)
      ensures env.calm ==> (result.Ok? <==> Consumable(old(View()), event, answer))
      ensures env.calm ==> now == old(now) && forall key | key in old(tasks) && !IsSubscription(key) :: key in tasks && tasks[key] == old(tasks)[key]
    {
      var done := ProcessBillingSubscriptionEvent(event);
      if done == Ok(false) { done := ProcessBillingChargeEvent(event, answer); }
      if done.Err? { return Err(done.error); }
      return if done.value then Ok(()) else Err(ErrConflict);
    }

    /** One piece of work: leased, performed, and acknowledged under its own lease or not at all.
        There is none exactly when nothing is due, what has just been discovered included. */
    method BillingWorkOnce(token: string, requests: set<string>, said: Said)
      returns (worked: bool, result: Result<()>, ghost key: string, ghost leased: nat, ghost acknowledged: bool)
      requires Valid() && token != "" && token !in tokens
      modifies this
      ensures Valid() && Longer(old(states), old(steps), states, steps)
      ensures worked <==> exists k | k in old(Queued(requests)) :: Work.Due(old(Queued(requests))[k], old(now))
      ensures !worked ==> result == Ok(()) && View() == WithTasks(old(View()), old(Queued(requests)))
      ensures worked ==>
                && Earliest(old(Queued(requests)), old(now), key)
                && |old(steps)| <= leased < |steps| && steps[leased] == Job(Work.Lease(key, token))
                && states[leased].queue.tasks == old(Queued(requests))
      ensures worked && acknowledged ==>
                && |steps| > leased + 1
                && steps[|steps| - 1] == Job(Work.Ack(key, token, result.Ok?, IsSubscription(key),
                                                      if result.Ok? then 300 else Work.Delay(old(Queued(requests))[key].attempts)))
                && Work.Holds(states[|steps| - 1].queue.tasks, key, token, states[|steps| - 1].queue.now)
                && key in tasks && tasks[key].lease == ""
                && (tasks[key].done <==> result.Ok? && !IsSubscription(key))
                && tasks[key].nextAttempt == now + (if result.Ok? then 300 else Work.Delay(old(Queued(requests))[key].attempts))
      ensures worked && result.Ok? && EVENT <= key ==> IsProcessed(View(), key[|EVENT|..])
      ensures worked && !acknowledged ==> result == Err(ErrConflict) && !Work.Holds(tasks, key, token, now)
      ensures worked && env.calm ==> acknowledged && (result.Ok? <==> Performable(old(WithTasks(View(), Queued(requests))), key, said))
    {
      key, leased, acknowledged := "", 0, false;
      var due, attempts, at := LeaseDue(token, requests);
      if due.None? { return false, Ok(()), key, leased, false; }
      key, leased := due.value, at;
      SamePerformance(old(WithTasks(View(), Queued(requests))), View(), due.value, said);
      result := Perform(due.value, said);
      var held := Report(due.value, token, attempts, result.Ok?);
      return true, if held then result else Err(ErrConflict), key, leased, held;
    }

    /** Discovers work and leases the earliest that is due, in one transaction. */
    method LeaseDue(token: string, requests: set<string>) returns (due: Option<string>, attempts: nat, ghost at: nat)
      requires Valid() && token != "" && token !in tokens
      modifies this
      ensures Valid() && Longer(old(states), old(steps), states, steps)
      ensures due.None? ==>
                && View() == WithTasks(old(View()), old(Queued(requests)))
                && forall k | k in old(Queued(requests)) :: !Work.Due(old(Queued(requests))[k], old(now))
      ensures due.Some? ==>
                && Earliest(old(Queued(requests)), old(now), due.value) && attempts == old(Queued(requests))[due.value].attempts
                && |old(steps)| <= at && |steps| == at + 1 && steps[at] == Job(Work.Lease(due.value, token))
                && states[at].queue.tasks == old(Queued(requests))
                && now == old(now) && due.value in tasks
                && tasks[due.value] == Work.Task(old(Queued(requests))[due.value].nextAttempt, attempts + 1, false, token, now + 60)
                && SameBooks(old(View()), View())
    {
      attempts := 0;
      Discover(requests);
      at := |steps|;
      due := FindDue();
      if due.Some? {
        attempts := tasks[due.value].attempts;
        Commit(Job(Work.Lease(due.value, token)));
      }
    }

    /** The queue as a worker finds it. */
    function Queued(requests: set<string>): Work.Tasks
      reads this
    {
      Discovered(tasks, Wanted(View()) + requests)
    }

    /** Acknowledges the outcome with its delay: five minutes after a success, the backoff after a failure. */
    method Report(key: string, token: string, attempts: nat, ok: bool) returns (acknowledged: bool)
      requires Valid() && token != ""
      modifies this
      ensures Valid() && Longer(old(states), old(steps), states, steps) && events == old(events)
      ensures acknowledged <==> Work.Holds(old(tasks), key, token, old(now))
      ensures acknowledged ==>
                && steps == old(steps) + [Job(Work.Ack(key, token, ok, IsSubscription(key), if ok then 300 else Work.Delay(attempts)))]
                && key in tasks && tasks[key].lease == "" && (tasks[key].done <==> ok && !IsSubscription(key))
                && tasks[key].nextAttempt == now + (if ok then 300 else Work.Delay(attempts))
      ensures !acknowledged ==> View() == old(View())
    {
      var delay := Work.AGAIN;
      if !ok { delay := Work.Backoff(attempts); }
      acknowledged := Acknowledge(key, token, ok, delay);
    }

    /** Settles the work under its own lease, or changes nothing. */
    method Acknowledge(key: string, token: string, ok: bool, delay: int) returns (acknowledged: bool)
      requires Valid() && token != ""
      modifies this
      ensures Valid() && Longer(old(states), old(steps), states, steps)
      ensures acknowledged <==> Work.Holds(old(tasks), key, token, old(now))
      ensures events == old(events) && now == old(now)
      ensures acknowledged ==>
                && steps == old(steps) + [Job(Work.Ack(key, token, ok, IsSubscription(key), delay))]
                && key in tasks && tasks - {key} == old(tasks) - {key}
                && tasks[key].lease == "" && tasks[key].leaseUntil == 0 && tasks[key].nextAttempt == old(now) + delay
                && (tasks[key].done <==> ok && !IsSubscription(key))
                && tasks[key].attempts == if ok then 0 else old(tasks)[key].attempts
      ensures !acknowledged ==> View() == old(View())
    {
      if !Work.Holds(tasks, key, token, now) { return false; }
      Sound();
      Commit(Job(Work.Ack(key, token, ok, IsSubscription(key), delay)));
      return true;
    }
  }
}
