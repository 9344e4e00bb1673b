/** Generation fences of the billing store (internal/portal/billing_subscriptions.go,
    billing_subscription_events.go, billing_charges.go, billing_charge_events.go,
    billing_prices.go and `ConfigureBillingPlan` of billing_checkouts.go), for one billing mode.

    A provider read is fenced by a generation taken before it starts and compared when its result
    is stored. Any number of workers read at once; webhooks invalidate in between; reads get lost. */
module Billing {
  import opened Common

  datatype SubscriptionSnapshot = SubscriptionSnapshot(id: string, customer: string, price: string, observedAt: int)

  datatype Subscription = Subscription(customer: string, price: string, generation: nat, snapshot: Option<SubscriptionSnapshot>)

  datatype ChargeObservation = ChargeObservation(
    id: string, subscription: string, customer: string, invoice: string, payment: string,
    captured: int, refunded: int, observedAt: int)

  datatype Binding = Binding(subscription: string, customer: string, invoice: string, payment: string)

  datatype Charge = Charge(generation: nat, binding: Option<Binding>, snapshot: Option<ChargeObservation>)

  datatype PriceSnapshot = PriceSnapshot(plan: string, price: string, observedAt: int)

  datatype Plan = Plan(price: string, enabled: bool, generation: nat, snapshot: Option<PriceSnapshot>, nextRefresh: int)

  const RESERVED := 60
  const REFRESHED := 300

  /** What is being read from the provider. */
  datatype Subject = OfSubscription(id: string) | OfCharge(id: string) | OfPlan(id: string)

  /** A provider read in flight: its fence, when it began, and what it was asked for. */
  datatype Read = Read(subject: Subject, generation: nat, started: int, customer: string, price: string)

  type Subscriptions = map<string, Subscription>
  type Charges = map<string, Charge>
  type Plans = map<string, Plan>

  predicate ValidCharge(id: string) {
    && "ch_" <= id && 3 < |id| <= 255
    && forall i | 0 <= i < |id| :: id[i] != ' ' && id[i] != '/' && id[i] != '\\' && id[i] != '\r' && id[i] != '\n'
  }

  // ---------------------------------------------------------------- transactions

  /** Takes the next generation before a subscription is read. */
  function BeginSubscription(subs: Subscriptions, id: string, now: int): Tx<Subscriptions, Read> {
    if id !in subs then Tx(subs, Err(ErrNotFound))
    else
      var s := subs[id].(generation := subs[id].generation + 1);
      Tx(subs[id := s], Ok(Read(OfSubscription(id), s.generation, now, s.customer, s.price)))
  }

  predicate GenuineSubscription(r: Read, o: SubscriptionSnapshot, now: int) {
    o.id == r.subject.id && o.customer == r.customer && o.price == r.price && r.started <= o.observedAt <= now
  }

  function StoreSubscription(subs: Subscriptions, r: Read, o: SubscriptionSnapshot, now: int): Tx<Subscriptions, ()> {
    var id := r.subject.id;
    if !GenuineSubscription(r, o, now) then Tx(subs, Err(ErrConflict))
    else if id !in subs || subs[id].generation != r.generation then Tx(subs, Err(ErrConflict))
    else Tx(subs[id := subs[id].(snapshot := Some(o))], Ok(()))
  }

  /** A verified webhook clears the snapshot and fences every read that began before it. */
  function Invalidate(subs: Subscriptions, id: string): Subscriptions
    requires id in subs
  {
    subs[id := subs[id].(generation := subs[id].generation + 1, snapshot := None)]
  }

  function BeginCharge(charges: Charges, id: string, now: int): Tx<Charges, Read> {
    var c := if id in charges then charges[id].(generation := charges[id].generation + 1) else Charge(1, None, None);
    Tx(charges[id := c], Ok(Read(OfCharge(id), c.generation, now, "", "")))
  }

  predicate GenuineCharge(r: Read, o: ChargeObservation, now: int) {
    o.id == r.subject.id && r.started <= o.observedAt <= now && 0 < o.captured && 0 <= o.refunded <= o.captured
  }

  function BindingOf(o: ChargeObservation): Binding {
    Binding(o.subscription, o.customer, o.invoice, o.payment)
  }

  function StoreCharge(subs: Subscriptions, charges: Charges, r: Read, o: ChargeObservation, now: int): Tx<Charges, ()> {
    var id := r.subject.id;
    if !GenuineCharge(r, o, now) then Tx(charges, Err(ErrConflict))
    else if o.subscription !in subs then Tx(charges, Err(ErrNotFound))
    else if subs[o.subscription].customer != o.customer then Tx(charges, Err(ErrConflict))
    else if id !in charges || charges[id].generation != r.generation then Tx(charges, Err(ErrConflict))
    else if charges[id].binding.Some? && charges[id].binding.value != BindingOf(o) then Tx(charges, Err(ErrConflict))
    else Tx(charges[id := charges[id].(binding := Some(BindingOf(o)), snapshot := Some(o))], Ok(()))
  }

  /** `ConfigureBillingPlan`: an edit drops the stored price and fences reads in flight. */
  function Configure(plans: Plans, id: string, price: string, enabled: bool): Plans {
    if id !in plans then plans[id := Plan(price, enabled, 0, None, 0)]
    else if plans[id].price == price && plans[id].enabled == enabled then plans
    else plans[id := Plan(price, enabled, plans[id].generation + 1, None, 0)]
  }

  predicate Due(p: Plan, now: int) {
    p.enabled && p.nextRefresh <= now
  }

  /** Reserves a due plan before its price is read. */
  function BeginPrice(plans: Plans, id: string, now: int): Tx<Plans, Read> {
    if id !in plans || !Due(plans[id], now) then Tx(plans, Err(ErrNotFound))
    else
      var p := plans[id].(generation := plans[id].generation + 1, nextRefresh := now + RESERVED);
      Tx(plans[id := p], Ok(Read(OfPlan(id), p.generation, now, "", p.price)))
  }

  predicate GenuinePrice(r: Read, o: PriceSnapshot, now: int) {
    o.plan == r.subject.id && o.price == r.price && r.started <= o.observedAt <= now
  }

  function StorePrice(plans: Plans, r: Read, o: PriceSnapshot, now: int): Tx<Plans, ()> {
    var id := r.subject.id;
    if !GenuinePrice(r, o, now) then Tx(plans, Err(ErrConflict))
    else if id !in plans || plans[id].price != r.price || !plans[id].enabled || plans[id].generation != r.generation
    then Tx(plans, Err(ErrConflict))
    else Tx(plans[id := plans[id].(snapshot := Some(o), nextRefresh := now + REFRESHED)], Ok(()))
  }

  // ---------------------------------------------------------------- concurrent workers

  /** One successful store. */
  datatype Stored = Stored(subject: Subject, generation: nat)

  /** The tables, and what a proof needs to remember: reads in flight by the step that began them,
      the last invalidation of each subscription, the read behind each stored subscription
      snapshot, and every successful store in order. */
  datatype Db = Db(
    now: int, time: nat, subs: Subscriptions, charges: Charges, plans: Plans,
    flights: map<nat, Read>, invalidated: map<string, nat>, source: map<string, nat>, log: seq<Stored>)

  datatype Step =
    | Pass(now: int)
    | Subscribe(id: string, customer: string, price: string)
    | ReadSubscription(id: string)
    | EndSubscription(at: nat, subscription: SubscriptionSnapshot, discovered: Option<string>)
    | Webhook(id: string)
    | ReadCharge(id: string)
    | EndCharge(at: nat, charge: ChargeObservation)
    | EditPlan(id: string, price: string, enabled: bool)
    | ReadPrice(id: string)
    | EndPrice(at: nat, planPrice: PriceSnapshot)
    | Lose(at: nat)

  predicate Enabled(db: Db, s: Step) {
    match s
    case Pass(now) => db.now <= now
    case Subscribe(id, _, _) => id !in db.subs
    case ReadSubscription(_) => true
    case EndSubscription(at, _, found) => at in db.flights && db.flights[at].subject.OfSubscription? && (found.Some? ==> ValidCharge(found.value))
    case Webhook(id) => id in db.subs
    case ReadCharge(id) => ValidCharge(id)
    case EndCharge(at, _) => at in db.flights && db.flights[at].subject.OfCharge?
    case EditPlan(_, _, _) => true
    case ReadPrice(_) => true
    case EndPrice(at, _) => at in db.flights && db.flights[at].subject.OfPlan?
    case Lose(_) => true
  }

  function Begun(db: Db, result: Result<Read>): Db {
    if result.Ok? then db.(flights := db.flights[db.time := result.value]) else db
  }

  function Ended(db: Db, at: nat, result: Result<()>): Db
    requires at in db.flights
  {
    var r := db.flights[at];
    var db' := db.(flights := db.flights - {at});
    if result.Err? then db' else db'.(log := db.log + [Stored(r.subject, r.generation)])
  }

  function Apply(db: Db, s: Step): Db
    requires Enabled(db, s)
  {
    Effect(db, s).(time := db.time + 1)
  }

  function Effect(db: Db, s: Step): Db
    requires Enabled(db, s)
  {
    match s
    case Pass(now) => db.(now := now)
    case Subscribe(id, customer, price) => db.(subs := db.subs[id := Subscription(customer, price, 0, None)])
    case ReadSubscription(id) =>
      var tx := BeginSubscription(db.subs, id, db.now);
      Begun(db, tx.result).(subs := tx.state)
    case EndSubscription(at, o, found) =>
      var id := db.flights[at].subject.id;
      var tx := StoreSubscription(db.subs, db.flights[at], o, db.now);
      if tx.result.Err? then Ended(db, at, tx.result)
      else Ended(db, at, tx.result).(subs := tx.state, source := db.source[id := at], charges := Discover(db.charges, found))
    case Webhook(id) => db.(subs := Invalidate(db.subs, id), invalidated := db.invalidated[id := db.time])
    case ReadCharge(id) =>
      var tx := BeginCharge(db.charges, id, db.now);
      Begun(db, tx.result).(charges := tx.state)
    case EndCharge(at, o) =>
      var tx := StoreCharge(db.subs, db.charges, db.flights[at], o, db.now);
      Ended(db, at, tx.result).(charges := tx.state)
    case EditPlan(id, price, enabled) => db.(plans := Configure(db.plans, id, price, enabled))
    case ReadPrice(id) =>
      var tx := BeginPrice(db.plans, id, db.now);
      Begun(db, tx.result).(plans := tx.state)
    case EndPrice(at, o) =>
      var tx := StorePrice(db.plans, db.flights[at], o, db.now);
      Ended(db, at, tx.result).(plans := tx.state)
    case Lose(at) => db.(flights := db.flights - {at})
  }

  /** A charge the provider named for an invoice is put on record once. */
  function Discover(charges: Charges, found: Option<string>): Charges {
    if found.Some? && found.value !in charges then charges[found.value := Charge(0, None, None)] else charges
  }

  // ---------------------------------------------------------------- invariant

  function Generation(db: Db, s: Subject): nat {
    match s
    case OfSubscription(id) => if id in db.subs then db.subs[id].generation else 0
    case OfCharge(id) => if id in db.charges then db.charges[id].generation else 0
    case OfPlan(id) => if id in db.plans then db.plans[id].generation else 0
  }

  function Invalidated(db: Db, id: string): int {
    if id in db.invalidated then db.invalidated[id] else -1
  }

  /** Every read in flight carries a generation of its own, not above the row's. */
  ghost predicate Fenced(db: Db) {
    && (forall t | t in db.flights :: t < db.time && db.flights[t].generation <= Generation(db, db.flights[t].subject))
    && (forall t, u | t in db.flights && u in db.flights && t != u && db.flights[t].subject == db.flights[u].subject ::
          db.flights[t].generation != db.flights[u].generation)
  }

  /** Stored generations strictly increase, and no read in flight repeats one. */
  ghost predicate Rising(db: Db) {
    && (forall i | 0 <= i < |db.log| :: db.log[i].generation <= Generation(db, db.log[i].subject))
    && (forall i, j | 0 <= i < j < |db.log| && db.log[i].subject == db.log[j].subject :: db.log[i].generation < db.log[j].generation)
    && (forall i, t | 0 <= i < |db.log| && t in db.flights && db.log[i].subject == db.flights[t].subject ::
          db.log[i].generation != db.flights[t].generation)
  }

  /** A read that still holds the current generation began after the last invalidation. */
  ghost predicate Current(db: Db) {
    forall t | t in db.flights && db.flights[t].subject.OfSubscription? ::
      db.flights[t].generation == Generation(db, db.flights[t].subject) ==> Invalidated(db, db.flights[t].subject.id) < t
  }

  /** A stored snapshot describes its row and comes from a read begun after the last invalidation. */
  predicate SnapshotOk(db: Db, id: string, row: Subscription) {
    row.snapshot.Some? ==>
      && id in db.source && Invalidated(db, id) < db.source[id] < db.time
      && row.snapshot.value.id == id && row.snapshot.value.customer == row.customer && row.snapshot.value.price == row.price
  }

  ghost predicate FreshSnapshots(db: Db) {
    && (forall id | id in db.invalidated :: db.invalidated[id] < db.time)
    && (forall id | id in db.subs :: SnapshotOk(db, id, db.subs[id]))
  }

  /** What a subscription read was asked for is still what the row says. */
  ghost predicate Asked(subs: Subscriptions, flights: map<nat, Read>) {
    forall t | t in flights && flights[t].subject.OfSubscription? :: AsksFor(subs, flights[t])
  }

  predicate AsksFor(subs: Subscriptions, r: Read) {
    r.subject.id in subs && r.customer == subs[r.subject.id].customer && r.price == subs[r.subject.id].price
  }

  /** Charges are bound to known subscriptions, by what was observed. */
  ghost predicate Bound(subs: Subscriptions, charges: Charges) {
    forall id | id in charges :: ChargeOk(subs, id, charges[id])
  }

  predicate ChargeOk(subs: Subscriptions, id: string, c: Charge) {
    && (c.binding.Some? <==> c.snapshot.Some?)
    && (c.binding.Some? ==>
          && c.binding.value == BindingOf(c.snapshot.value) && c.snapshot.value.id == id
          && c.binding.value.subscription in subs && subs[c.binding.value.subscription].customer == c.binding.value.customer)
  }

  /** A stored price is the price of the plan as it is configured now. */
  ghost predicate Priced(plans: Plans) {
    forall id | id in plans && plans[id].snapshot.Some? ::
      plans[id].snapshot.value.plan == id && plans[id].snapshot.value.price == plans[id].price && plans[id].enabled
  }

  ghost predicate Inv(db: Db) {
    && Fenced(db) && Rising(db) && Current(db) && FreshSnapshots(db)
    && Asked(db.subs, db.flights) && Bound(db.subs, db.charges) && Priced(db.plans)
  }

  const START := Db(0, 0, map[], map[], map[], map[], map[], map[], [])

  /** Generations never go back. */
  lemma {:induction false} GenerationsRise(db: Db, s: Step, subject: Subject)
    requires Enabled(db, s)
    ensures Generation(db, subject) <= Generation(Apply(db, s), subject)
  {
    match subject {
      case OfSubscription(_) => if !Touches(s) { SameSubs(db, s); }
      case OfCharge(_) => if !s.EndSubscription? && !s.ReadCharge? && !s.EndCharge? { SameCharges(db, s); }
      case OfPlan(_) => if !s.EditPlan? && !s.ReadPrice? && !s.EndPrice? { SamePlans(db, s); }
    }
  }

  /** A step takes reads away, or begins one under a generation nobody has had. */
  lemma {:induction false} ReadsAfter(db: Db, s: Step)
    requires Enabled(db, s)
    ensures forall t | t in Apply(db, s).flights && t != db.time :: t in db.flights && Apply(db, s).flights[t] == db.flights[t]
    ensures db.time !in db.flights && db.time in Apply(db, s).flights ==>
              var r := Apply(db, s).flights[db.time];
              r.generation == Generation(Apply(db, s), r.subject) == Generation(db, r.subject) + 1
  {
    if Begins(s) { ReadsBegun(db, s); } else { NoneBegins(db, s); }
  }

  predicate Begins(s: Step) {
    s.ReadSubscription? || s.ReadCharge? || s.ReadPrice?
  }

  lemma {:induction false} NoneBegins(db: Db, s: Step)
    requires Enabled(db, s) && !Begins(s)
    ensures forall t | t in Apply(db, s).flights :: t in db.flights && Apply(db, s).flights[t] == db.flights[t]
  {
  }

  lemma {:induction false} ReadsBegun(db: Db, s: Step)
    requires Enabled(db, s) && Begins(s)
    ensures forall t | t in Apply(db, s).flights && t != db.time :: t in db.flights && Apply(db, s).flights[t] == db.flights[t]
    ensures db.time !in db.flights && db.time in Apply(db, s).flights ==>
              var r := Apply(db, s).flights[db.time];
              r.generation == Generation(Apply(db, s), r.subject) == Generation(db, r.subject) + 1
  {
  }

  lemma {:induction false} FencedStep(db: Db, s: Step)
    requires Fenced(db) && Enabled(db, s)
    ensures Fenced(Apply(db, s))
  {
    var db' := Apply(db, s);
    ReadsAfter(db, s);
    forall t | t in db'.flights ensures t < db'.time && db'.flights[t].generation <= Generation(db', db'.flights[t].subject) {
      if t != db.time { GenerationsRise(db, s, db.flights[t].subject); }
    }
  }

  /** A store is logged under the row's current generation, by the read that held it. */
  lemma {:induction false} LogAfter(db: Db, s: Step)
    requires Enabled(db, s)
    ensures Apply(db, s).log == db.log
         || exists t | t in db.flights && t !in Apply(db, s).flights ::
              && db.flights[t].generation == Generation(db, db.flights[t].subject)
              && Apply(db, s).log == db.log + [Stored(db.flights[t].subject, db.flights[t].generation)]
  {
    if s.EndSubscription? || s.EndCharge? || s.EndPrice? {
      assert s.at !in Apply(db, s).flights;
    }
  }

  lemma {:induction false} RisingStep(db: Db, s: Step)
    requires Fenced(db) && Rising(db) && Enabled(db, s)
    ensures Rising(Apply(db, s))
  {
    var db' := Apply(db, s);
    forall subject ensures Generation(db, subject) <= Generation(db', subject) {
      GenerationsRise(db, s, subject);
    }
    LogAfter(db, s);
    ReadsAfter(db, s);
    RisingAfter(db, db');
  }

  /** Stores in order stay in order when the current holder stores and a new generation begins. */
  lemma {:induction false} RisingAfter(db: Db, db': Db)
    requires Fenced(db) && Rising(db)
    requires forall subject :: Generation(db, subject) <= Generation(db', subject)
    requires forall t | t in db'.flights && t != db.time :: t in db.flights && db'.flights[t] == db.flights[t]
    requires db.time in db'.flights ==>
               db'.flights[db.time].generation > Generation(db, db'.flights[db.time].subject)
    requires db'.log == db.log
          || exists t | t in db.flights && t !in db'.flights ::
               && db.flights[t].generation == Generation(db, db.flights[t].subject)
               && db'.log == db.log + [Stored(db.flights[t].subject, db.flights[t].generation)]
    ensures Rising(db')
  {
  }

  /** Only a webhook moves the last invalidation, and it takes the next generation with it. */
  lemma {:induction false} InvalidatedAfter(db: Db, s: Step, id: string)
    requires Enabled(db, s)
    ensures Invalidated(Apply(db, s), id) == Invalidated(db, id)
         || (s == Webhook(id) && Generation(Apply(db, s), OfSubscription(id)) > Generation(db, OfSubscription(id)))
  {
  }

  lemma {:induction false} CurrentStep(db: Db, s: Step)
    requires Fenced(db) && Current(db) && FreshSnapshots(db) && Enabled(db, s)
    ensures Current(Apply(db, s))
  {
    var db' := Apply(db, s);
    ReadsAfter(db, s);
    forall t | t in db'.flights && db'.flights[t].subject.OfSubscription? && db'.flights[t].generation == Generation(db', db'.flights[t].subject)
      ensures Invalidated(db', db'.flights[t].subject.id) < t
    {
      var id := db'.flights[t].subject.id;
      InvalidatedAfter(db, s, id);
      GenerationsRise(db, s, OfSubscription(id));
      if t == db.time { BegunNow(db, s, id); }
    }
  }

  lemma {:induction false} BegunNow(db: Db, s: Step, id: string)
    requires Enabled(db, s) && db.time !in db.flights && db.time in Apply(db, s).flights
    requires id in db.invalidated ==> db.invalidated[id] < db.time
    ensures Invalidated(Apply(db, s), id) < db.time
  {
    InvalidatedAfter(db, s, id);
  }

  /** Rows keep their identity. */
  ghost predicate SubsExtend(subs: Subscriptions, subs': Subscriptions) {
    forall id | id in subs :: id in subs' && subs'[id].customer == subs[id].customer && subs'[id].price == subs[id].price
  }

  lemma {:induction false} SubsAfter(db: Db, s: Step)
    requires Enabled(db, s)
    ensures SubsExtend(db.subs, Apply(db, s).subs)
  {
    if !Touches(s) { SameSubs(db, s); }
  }

  predicate Touches(s: Step) {
    s.Subscribe? || s.ReadSubscription? || s.EndSubscription? || s.Webhook?
  }

  lemma {:induction false} RowAfter(db: Db, s: Step, id: string)
    requires Enabled(db, s) && id in Apply(db, s).subs && Apply(db, s).subs[id].snapshot.Some?
    requires !(s.EndSubscription? && db.flights[s.at].subject == OfSubscription(id))
    ensures id in db.subs && Apply(db, s).subs[id].snapshot == db.subs[id].snapshot
    ensures Invalidated(Apply(db, s), id) == Invalidated(db, id)
    ensures id in db.source ==> id in Apply(db, s).source && Apply(db, s).source[id] == db.source[id]
  {
    if Touches(s) { TouchedRow(db, s, id); } else { SameSubs(db, s); }
  }

  lemma {:induction false} SameSubs(db: Db, s: Step)
    requires Enabled(db, s) && !Touches(s)
    ensures Apply(db, s).subs == db.subs && Apply(db, s).invalidated == db.invalidated && Apply(db, s).source == db.source
  {
    if s.ReadCharge? || s.EndCharge? { ChargesOnly(db, s); } else if s.ReadPrice? || s.EndPrice? { PlansOnly(db, s); }
  }

  lemma {:induction false} ChargesOnly(db: Db, s: Step)
    requires Enabled(db, s) && (s.ReadCharge? || s.EndCharge?)
    ensures Apply(db, s).subs == db.subs && Apply(db, s).invalidated == db.invalidated && Apply(db, s).source == db.source
  {
  }

  lemma {:induction false} PlansOnly(db: Db, s: Step)
    requires Enabled(db, s) && (s.ReadPrice? || s.EndPrice?)
    ensures Apply(db, s).subs == db.subs && Apply(db, s).invalidated == db.invalidated && Apply(db, s).source == db.source
  {
  }

  lemma {:induction false} TouchedRow(db: Db, s: Step, id: string)
    requires Enabled(db, s) && Touches(s) && id in Apply(db, s).subs && Apply(db, s).subs[id].snapshot.Some?
    requires !(s.EndSubscription? && db.flights[s.at].subject == OfSubscription(id))
    ensures id in db.subs && Apply(db, s).subs[id].snapshot == db.subs[id].snapshot
    ensures Invalidated(Apply(db, s), id) == Invalidated(db, id)
    ensures id in db.source ==> id in Apply(db, s).source && Apply(db, s).source[id] == db.source[id]
  {
  }

  /** A store keeps the old snapshot or puts a genuine one from a read that held the fence. */
  lemma {:induction false} StoredRow(db: Db, s: Step, id: string)
    requires Inv(db) && Enabled(db, s) && s.EndSubscription? && db.flights[s.at].subject == OfSubscription(id)
    requires id in Apply(db, s).subs
    ensures SnapshotOk(Apply(db, s), id, Apply(db, s).subs[id])
  {
  }

  lemma {:induction false} FreshStep(db: Db, s: Step)
    requires Inv(db) && Enabled(db, s)
    ensures FreshSnapshots(Apply(db, s))
  {
    var db' := Apply(db, s);
    SubsAfter(db, s);
    forall id | id in db'.subs ensures SnapshotOk(db', id, db'.subs[id]) {
      if s.EndSubscription? && db.flights[s.at].subject == OfSubscription(id) {
        StoredRow(db, s, id);
      } else if db'.subs[id].snapshot.Some? {
        RowAfter(db, s, id);
        assert SnapshotOk(db, id, db.subs[id]);
      }
    }
    InvalidationsPast(db, s);
  }

  lemma {:induction false} InvalidationsPast(db: Db, s: Step)
    requires Enabled(db, s) && forall id | id in db.invalidated :: db.invalidated[id] < db.time
    ensures forall id | id in Apply(db, s).invalidated :: Apply(db, s).invalidated[id] < db.time + 1
  {
    if !Touches(s) { SameSubs(db, s); }
  }

  lemma {:induction false} AskedStep(db: Db, s: Step)
    requires Fenced(db) && Asked(db.subs, db.flights) && Enabled(db, s)
    ensures Asked(Apply(db, s).subs, Apply(db, s).flights)
  {
    var db' := Apply(db, s);
    ReadsAfter(db, s);
    SubsAfter(db, s);
    forall t | t in db'.flights && db'.flights[t].subject.OfSubscription? ensures AsksFor(db'.subs, db'.flights[t]) {
      if t == db.time { AskedNow(db, s); } else { assert AsksFor(db.subs, db.flights[t]); }
    }
  }

  lemma {:induction false} AskedNow(db: Db, s: Step)
    requires Enabled(db, s) && db.time !in db.flights && db.time in Apply(db, s).flights
    requires Apply(db, s).flights[db.time].subject.OfSubscription?
    ensures AsksFor(Apply(db, s).subs, Apply(db, s).flights[db.time])
  {
    if !Begins(s) { NoneBegins(db, s); }
  }

  lemma {:induction false} BoundStep(db: Db, s: Step)
    requires Bound(db.subs, db.charges) && Enabled(db, s)
    ensures Bound(Apply(db, s).subs, Apply(db, s).charges)
  {
    SubsAfter(db, s);
    BoundFrame(db.subs, Apply(db, s).subs, db.charges);
    if s.EndSubscription? || s.ReadCharge? || s.EndCharge? {
      ChargesAfter(db, s);
    } else {
      SameCharges(db, s);
    }
  }

  lemma {:induction false} BoundFrame(subs: Subscriptions, subs': Subscriptions, charges: Charges)
    requires SubsExtend(subs, subs') && Bound(subs, charges)
    ensures Bound(subs', charges)
  {
    forall id | id in charges ensures ChargeOk(subs', id, charges[id]) {
      assert ChargeOk(subs, id, charges[id]);
    }
  }

  lemma {:induction false} SameCharges(db: Db, s: Step)
    requires Enabled(db, s) && !s.EndSubscription? && !s.ReadCharge? && !s.EndCharge?
    ensures Apply(db, s).charges == db.charges
  {
  }

  lemma {:induction false} ChargesAfter(db: Db, s: Step)
    requires Enabled(db, s) && (s.EndSubscription? || s.ReadCharge? || s.EndCharge?)
    requires Bound(Apply(db, s).subs, db.charges)
    ensures Bound(Apply(db, s).subs, Apply(db, s).charges)
  {
  }

  lemma {:induction false} PricedStep(db: Db, s: Step)
    requires Priced(db.plans) && Enabled(db, s)
    ensures Priced(Apply(db, s).plans)
  {
    match s {
      case EditPlan(id, price, enabled) => ConfigurePriced(db.plans, id, price, enabled);
      case ReadPrice(id) => BeginPriced(db.plans, id, db.now);
      case EndPrice(at, o) => StorePriced(db.plans, db.flights[at], o, db.now);
      case _ => SamePlans(db, s);
    }
  }

  lemma {:induction false} SamePlans(db: Db, s: Step)
    requires Enabled(db, s) && !s.EditPlan? && !s.ReadPrice? && !s.EndPrice?
    ensures Apply(db, s).plans == db.plans
  {
  }

  lemma {:induction false} ConfigurePriced(plans: Plans, id: string, price: string, enabled: bool)
    requires Priced(plans)
    ensures Priced(Configure(plans, id, price, enabled))
  {
  }

  lemma {:induction false} BeginPriced(plans: Plans, id: string, now: int)
    requires Priced(plans)
    ensures Priced(BeginPrice(plans, id, now).state)
  {
  }

  lemma {:induction false} StorePriced(plans: Plans, r: Read, o: PriceSnapshot, now: int)
    requires Priced(plans)
    ensures Priced(StorePrice(plans, r, o, now).state)
  {
  }

  lemma {:induction false} StepPreserves(db: Db, s: Step)
    requires Inv(db) && Enabled(db, s)
    ensures Inv(Apply(db, s))
  {
    FencedStep(db, s);
    RisingStep(db, s);
    CurrentStep(db, s);
    FreshStep(db, s);
    AskedStep(db, s);
    BoundStep(db, s);
    PricedStep(db, s);
  }

  // ---------------------------------------------------------------- runs

  predicate Took(states: seq<Db>, steps: seq<Step>, i: int)
    requires |states| == |steps| + 1
  {
    0 <= i < |steps| && Enabled(states[i], steps[i]) && states[i + 1] == Apply(states[i], steps[i])
  }

  ghost predicate IsRun(states: seq<Db>, steps: seq<Step>) {
    |states| == |steps| + 1 && states[0] == START && forall i | 0 <= i < |steps| :: Took(states, steps, i)
  }

  lemma {:induction false} RunSound(states: seq<Db>, steps: seq<Step>, i: nat)
    requires IsRun(states, steps) && i <= |steps|
    ensures Inv(states[i]) && states[i].time == i
    decreases i
  {
    if i > 0 {
      RunSound(states, steps, i - 1);
      assert Took(states, steps, i - 1);
      StepPreserves(states[i - 1], steps[i - 1]);
    }
  }

  /** The step that begins a read of this kind. */
  function Beginning(s: Subject): Step {
    match s
    case OfSubscription(id) => ReadSubscription(id)
    case OfCharge(id) => ReadCharge(id)
    case OfPlan(id) => ReadPrice(id)
  }

  /** The bookkeeping tells the story of the run. */
  ghost predicate Traced(db: Db, steps: seq<Step>, i: nat)
    requires i <= |steps|
  {
    && (forall t | t in db.flights :: t < i && steps[t] == Beginning(db.flights[t].subject))
    && (forall id | id in db.source :: db.source[id] < i && steps[db.source[id]] == ReadSubscription(id))
    && (forall j | 0 <= j < i && steps[j].Webhook? :: j <= Invalidated(db, steps[j].id))
  }

  lemma {:induction false} RunTraced(states: seq<Db>, steps: seq<Step>, i: nat)
    requires IsRun(states, steps) && i <= |steps|
    ensures Traced(states[i], steps, i)
    decreases i
  {
    if i > 0 {
      RunTraced(states, steps, i - 1);
      RunSound(states, steps, i - 1);
      assert Took(states, steps, i - 1);
      TraceFlights(states[i - 1], steps, i - 1);
      TraceSource(states[i - 1], steps, i - 1);
      TraceWebhooks(states[i - 1], steps, i - 1);
    }
  }

  lemma {:induction false} TraceFlights(db: Db, steps: seq<Step>, i: nat)
    requires i < |steps| && db.time == i && Traced(db, steps, i) && Enabled(db, steps[i])
    ensures forall t | t in Apply(db, steps[i]).flights :: t <= i && steps[t] == Beginning(Apply(db, steps[i]).flights[t].subject)
  {
    ReadsAfter(db, steps[i]);
    if i in Apply(db, steps[i]).flights { BegunBy(db, steps[i]); }
  }

  lemma {:induction false} BegunBy(db: Db, s: Step)
    requires Enabled(db, s) && db.time !in db.flights && db.time in Apply(db, s).flights
    ensures s == Beginning(Apply(db, s).flights[db.time].subject)
  {
    if !Begins(s) { NoneBegins(db, s); }
  }

  lemma {:induction false} TraceSource(db: Db, steps: seq<Step>, i: nat)
    requires i < |steps| && Traced(db, steps, i) && Enabled(db, steps[i])
    ensures forall id | id in Apply(db, steps[i]).source ::
              Apply(db, steps[i]).source[id] <= i && steps[Apply(db, steps[i]).source[id]] == ReadSubscription(id)
  {
    if steps[i].EndSubscription? { StoredSource(db, steps[i]); } else { SameSource(db, steps[i]); }
  }

  lemma {:induction false} SameSource(db: Db, s: Step)
    requires Enabled(db, s) && !s.EndSubscription?
    ensures Apply(db, s).source == db.source
  {
    if !Touches(s) { SameSubs(db, s); }
  }

  lemma {:induction false} StoredSource(db: Db, s: Step)
    requires Enabled(db, s) && s.EndSubscription?
    ensures Apply(db, s).source == db.source || Apply(db, s).source == db.source[db.flights[s.at].subject.id := s.at]
  {
  }

  lemma {:induction false} TraceWebhooks(db: Db, steps: seq<Step>, i: nat)
    requires i < |steps| && db.time == i && Traced(db, steps, i) && Enabled(db, steps[i])
    requires forall id | id in db.invalidated :: db.invalidated[id] < i
    ensures forall j | 0 <= j <= i && steps[j].Webhook? :: j <= Invalidated(Apply(db, steps[i]), steps[j].id)
  {
    forall j | 0 <= j <= i && steps[j].Webhook? ensures j <= Invalidated(Apply(db, steps[i]), steps[j].id) {
      InvalidatedAfter(db, steps[i], steps[j].id);
      if steps[i].Webhook? { assert Apply(db, steps[i]).invalidated == db.invalidated[steps[i].id := i]; }
    }
  }

  /** A stored subscription snapshot comes from a read of that subscription which began after every
      webhook that has invalidated it. */
  lemma {:induction false} SnapshotsAreFresh(states: seq<Db>, steps: seq<Step>, i: nat, id: string)
    requires IsRun(states, steps) && i <= |steps| && id in states[i].subs && states[i].subs[id].snapshot.Some?
    ensures id in states[i].source && states[i].source[id] < i && steps[states[i].source[id]] == ReadSubscription(id)
    ensures forall j | 0 <= j < i && steps[j] == Webhook(id) :: j < states[i].source[id]
  {
    RunSound(states, steps, i);
    RunTraced(states, steps, i);
    assert SnapshotOk(states[i], id, states[i].subs[id]);
  }

  /** Successful stores of one subject carry strictly increasing generations. */
  lemma {:induction false} GenerationsIncrease(states: seq<Db>, steps: seq<Step>, i: nat, j: nat, k: nat)
    requires IsRun(states, steps) && i <= |steps| && j < k < |states[i].log| && states[i].log[j].subject == states[i].log[k].subject
    ensures states[i].log[j].generation < states[i].log[k].generation
  {
    RunSound(states, steps, i);
  }

  /** A stored price is always the plan's configured price. */
  lemma {:induction false} PricesMatchPlans(states: seq<Db>, steps: seq<Step>, i: nat, id: string)
    requires IsRun(states, steps) && i <= |steps| && id in states[i].plans && states[i].plans[id].snapshot.Some?
    ensures states[i].plans[id].snapshot.value.price == states[i].plans[id].price && states[i].plans[id].enabled
  {
    RunSound(states, steps, i);
  }

  predicate Permanent(charges: Charges, charges': Charges, id: string) {
    id in charges && charges[id].binding.Some? ==> id in charges' && charges'[id].binding == charges[id].binding
  }

  lemma {:induction false} BindingStays(db: Db, s: Step, id: string)
    requires Enabled(db, s)
    ensures Permanent(db.charges, Apply(db, s).charges, id)
  {
    if !s.EndSubscription? && !s.ReadCharge? && !s.EndCharge? { SameCharges(db, s); }
  }

  /** Once a charge is bound to its subscription, customer, invoice and payment, it stays bound so. */
  lemma {:induction false} BindingsArePermanent(states: seq<Db>, steps: seq<Step>, i: nat, j: nat, id: string)
    requires IsRun(states, steps) && i <= j <= |steps|
    ensures Permanent(states[i].charges, states[j].charges, id)
    decreases j
  {
    if i < j {
      BindingsArePermanent(states, steps, i, j - 1, id);
      assert Took(states, steps, j - 1);
      BindingStays(states[j - 1], steps[j - 1], id);
    }
  }
}
