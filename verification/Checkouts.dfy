/** Checkouts, the subscriptions they establish and the events that drive them
    (internal/portal/billing_checkouts.go and billing_checkout_events.go), for one billing mode.

    Events arrive in any order, any number of times, before or after the session is known. */
module Checkouts {
  import opened Common

  datatype State = Pending | Open | Completed | Expired

  datatype Checkout = Checkout(
    workspace: string, customer: string, plan: string, price: string,
    session: string, url: string, state: State)

  datatype Subscription = Subscription(checkout: string, workspace: string, customer: string, plan: string, price: string)

  datatype Kind = SessionCompleted | SessionExpired | Unrelated

  datatype Progress = Waiting | Processed | Ignored

  /** A verified event as stored: `genuine` is the check of mode, object kind and presence of a customer. */
  datatype Event = Event(
    kind: Kind, genuine: bool, session: string, status: string, customer: string, reference: string,
    subscription: string, progress: Progress)

  datatype Db = Db(checkouts: map<string, Checkout>, subs: map<string, Subscription>, events: map<string, Event>)

  const START := Db(map[], map[], map[])

  predicate Clean(s: string) {
    forall i | 0 <= i < |s| :: s[i] != ' ' && s[i] != '/' && s[i] != '\\' && s[i] != '\r' && s[i] != '\n'
  }

  /** What an acknowledgement may bind. */
  predicate Bindable(mode: string, s: string) {
    "cs_" + mode + "_" <= s && |s| > |mode| + 4 && |s| <= 255
  }

  /** What an event may name. */
  predicate ValidSession(mode: string, s: string) {
    Bindable(mode, s) && Clean(s)
  }

  const CHECKOUT_HOST := "https://checkout.stripe.com"

  /** An HTTPS address on the provider's checkout host. */
  predicate ValidUrl(url: string) {
    CHECKOUT_HOST <= url && |url| <= 8192
    && (|url| > |CHECKOUT_HOST| ==> url[|CHECKOUT_HOST|] == '/' || url[|CHECKOUT_HOST|] == '?' || url[|CHECKOUT_HOST|] == '#')
  }

  predicate ValidSubscription(s: string) {
    "sub_" <= s && 4 < |s| <= 255 && Clean(s)
  }

  predicate Taken(c: Checkout) {
    c.state != Expired
  }

  // ---------------------------------------------------------------- transactions

  /** The workspace's checkout that has not expired. */
  ghost predicate Occupies(db: Db, workspace: string, id: string) {
    id in db.checkouts && db.checkouts[id].workspace == workspace && Taken(db.checkouts[id])
  }

  /** The outcome of a lookup that at most one row can answer. */
  ghost predicate Finds(db: Db, session: string, found: Option<string>) {
    if found.Some? then found.value in db.checkouts && db.checkouts[found.value].session == session
    else forall id | id in db.checkouts :: db.checkouts[id].session != session
  }

  /** `RequestBillingCheckout` once the workspace has no unexpired checkout. */
  function RequestTx(db: Db, id: string, workspace: string, plan: string, price: Option<string>, customer: Option<string>): Tx<Db, Checkout> {
    if price.None? then Tx(db, Err(ErrInvalid))
    else if customer.None? then Tx(db, Err(ErrConflict))
    else
      var c := Checkout(workspace, customer.value, plan, price.value, "", "", Pending);
      Tx(db.(checkouts := db.checkouts[id := c]), Ok(c))
  }

  /** `BindBillingCheckout`; `rival` is whether another checkout already has the session. */
  function BindTx(db: Db, id: string, session: string, url: string, rival: bool): Tx<Db, ()> {
    if id !in db.checkouts then Tx(db, Err(ErrNotFound))
    else
      var c := db.checkouts[id];
      if c.session != "" then Tx(db, if c.session == session && c.url == url then Ok(()) else Err(ErrConflict))
      else if c.state != Pending || rival then Tx(db, Err(ErrConflict))
      else Tx(db.(checkouts := db.checkouts[id := c.(session := session, url := url, state := Open)]), Ok(()))
  }

  /** Another subscription for the checkout, or the subscription for another checkout. */
  ghost predicate Clashes(db: Db, sub: string, checkout: string) {
    exists s | s in db.subs :: (s == sub || db.subs[s].checkout == checkout) && !(s == sub && db.subs[s].checkout == checkout)
  }

  /** The final writes of an event on its checkout. */
  function Settle(db: Db, event: string, id: string, state: State, subs: map<string, Subscription>): Db
    requires event in db.events && id in db.checkouts
  {
    Db(db.checkouts[id := db.checkouts[id].(state := state)], subs, db.events[event := db.events[event].(progress := Processed)])
  }

  /** `ProcessBillingCheckoutEvent`, for the checkout its session belongs to. */
  ghost function EventTx(db: Db, mode: string, event: string, found: Option<string>): Tx<Db, bool>
    requires found.Some? ==> found.value in db.checkouts
  {
    if event !in db.events then Tx(db, Err(ErrNotFound))
    else
      var e := db.events[event];
      if e.progress != Waiting then Tx(db, Ok(true))
      else if e.kind == Unrelated then Tx(db, Ok(false))
      else if !e.genuine || !ValidSession(mode, e.session) then Tx(db, Err(ErrConflict))
      else if found.None? then Tx(db, Err(ErrReconciliation))
      else
        var id := found.value;
        var c := db.checkouts[id];
        if e.customer != c.customer || e.reference != id then Tx(db, Err(ErrConflict))
        else if e.kind == SessionExpired then ExpireTx(db, event, id)
        else CompleteTx(db, event, id)
  }

  function ExpireTx(db: Db, event: string, id: string): Tx<Db, bool>
    requires event in db.events && id in db.checkouts
  {
    if db.events[event].status != "expired" then Tx(db, Err(ErrConflict))
    else if db.checkouts[id].state == Completed then
      Tx(db.(events := db.events[event := db.events[event].(progress := Ignored)]), Ok(true))
    else if db.checkouts[id].state == Pending then Tx(db, Err(ErrConflict))
    else Tx(Settle(db, event, id, Expired, db.subs), Ok(true))
  }

  ghost function CompleteTx(db: Db, event: string, id: string): Tx<Db, bool>
    requires event in db.events && id in db.checkouts
  {
    var c, sub := db.checkouts[id], db.events[event].subscription;
    if db.events[event].status != "complete" || !ValidSubscription(sub) then Tx(db, Err(ErrConflict))
    else if c.state != Open && c.state != Completed then Tx(db, Err(ErrConflict))
    else if Clashes(db, sub, id) then Tx(db, Err(ErrConflict))
    else
      var subs := if sub in db.subs then db.subs else db.subs[sub := Subscription(id, c.workspace, c.customer, c.plan, c.price)];
      Tx(Settle(db, event, id, Completed, subs), Ok(true))
  }

  // ---------------------------------------------------------------- invariant

  /** A session is known from the moment the checkout opens, and belongs to one checkout. */
  ghost predicate Sessions(checkouts: map<string, Checkout>) {
    && (forall id | id in checkouts :: checkouts[id].state == Pending <==> checkouts[id].session == "")
    && (forall a, b | a in checkouts && b in checkouts && a != b && checkouts[a].session != "" :: checkouts[a].session != checkouts[b].session)
  }

  ghost predicate OnePerWorkspace(checkouts: map<string, Checkout>) {
    forall a, b | a in checkouts && b in checkouts && a != b && Taken(checkouts[a]) && Taken(checkouts[b]) ::
      checkouts[a].workspace != checkouts[b].workspace
  }

  predicate Has(subs: map<string, Subscription>, s: string, checkout: string) {
    s in subs && subs[s].checkout == checkout
  }

  /** A checkout has a subscription exactly when it is completed, and then exactly one, with its identity. */
  ghost predicate OneToOne(checkouts: map<string, Checkout>, subs: map<string, Subscription>) {
    && (forall s | s in subs ::
          && subs[s].checkout in checkouts && checkouts[subs[s].checkout].state == Completed
          && Of(subs[s], checkouts[subs[s].checkout]))
    && (forall id | id in checkouts && checkouts[id].state == Completed :: exists s :: Has(subs, s, id))
    && (forall s, t | s in subs && t in subs && subs[s].checkout == subs[t].checkout :: s == t)
  }

  predicate Of(s: Subscription, c: Checkout) {
    s.workspace == c.workspace && s.customer == c.customer && s.plan == c.plan && s.price == c.price
  }

  ghost predicate Inv(db: Db) {
    Sessions(db.checkouts) && OnePerWorkspace(db.checkouts) && OneToOne(db.checkouts, db.subs)
  }

  /** What never goes back: identities, sessions, completion, expiry, subscriptions, settled events. */
  ghost predicate Forward(db: Db, db': Db) {
    && (forall id | id in db.checkouts :: id in db'.checkouts && Onward(db.checkouts[id], db'.checkouts[id]))
    && (forall s | s in db.subs :: s in db'.subs && db'.subs[s] == db.subs[s])
    && (forall e | e in db.events :: e in db'.events && (db.events[e].progress != Waiting ==> db'.events[e] == db.events[e]))
  }

  predicate Onward(c: Checkout, c': Checkout) {
    && c'.workspace == c.workspace && c'.customer == c.customer && c'.plan == c.plan && c'.price == c.price
    && (c.session != "" ==> c'.session == c.session && c'.url == c.url)
    && (c.state == Completed ==> c'.state == Completed)
    && (c.state == Expired ==> c'.state == Expired)
    && (c.state == Open ==> c'.state != Pending)
  }

  lemma {:induction false} RequestPreserves(db: Db, id: string, workspace: string, plan: string, price: Option<string>, customer: Option<string>)
    requires Inv(db) && id !in db.checkouts && forall o :: !Occupies(db, workspace, o)
    ensures var db' := RequestTx(db, id, workspace, plan, price, customer).state; Inv(db') && Forward(db, db')
  {
    if price.Some? && customer.Some? {
      var c := Checkout(workspace, customer.value, plan, price.value, "", "", Pending);
      var checkouts' := db.checkouts[id := c];
      forall o | o in db.checkouts && Taken(db.checkouts[o]) ensures db.checkouts[o].workspace != workspace {
        assert !Occupies(db, workspace, o);
      }
      assert OneToOne(checkouts', db.subs) by { AddCheckout(db.checkouts, db.subs, id, c); }
    }
  }

  lemma {:induction false} AddCheckout(checkouts: map<string, Checkout>, subs: map<string, Subscription>, id: string, c: Checkout)
    requires OneToOne(checkouts, subs) && id !in checkouts && c.state == Pending
    ensures OneToOne(checkouts[id := c], subs)
  {
  }

  lemma {:induction false} BindPreserves(db: Db, id: string, session: string, url: string, rival: bool)
    requires Inv(db) && session != "" && (rival <==> exists o | o in db.checkouts :: db.checkouts[o].session == session)
    ensures var db' := BindTx(db, id, session, url, rival).state; Inv(db') && Forward(db, db')
  {
    if id in db.checkouts && db.checkouts[id].session == "" && !rival {
      var c := db.checkouts[id].(session := session, url := url, state := Open);
      assert OneToOne(db.checkouts[id := c], db.subs) by { MoveCheckout(db.checkouts, db.subs, id, c); }
    }
  }

  /** A checkout without a subscription may move anywhere but to completion. */
  lemma {:induction false} MoveCheckout(checkouts: map<string, Checkout>, subs: map<string, Subscription>, id: string, c: Checkout)
    requires OneToOne(checkouts, subs) && id in checkouts && checkouts[id].state != Completed && c.state != Completed
    ensures OneToOne(checkouts[id := c], subs)
  {
  }

  lemma {:induction false} EventPreserves(db: Db, mode: string, event: string, found: Option<string>)
    requires Inv(db) && (event in db.events ==> Finds(db, db.events[event].session, found))
    requires found.Some? ==> found.value in db.checkouts
    ensures var db' := EventTx(db, mode, event, found).state; Inv(db') && Forward(db, db')
  {
    if event in db.events && found.Some? && db.events[event].progress == Waiting && db.events[event].kind != Unrelated
       && db.events[event].genuine && ValidSession(mode, db.events[event].session) {
      assert db.checkouts[found.value].session != "";
      if db.events[event].kind == SessionExpired { ExpirePreserves(db, event, found.value); } else { CompletePreserves(db, event, found.value); }
    }
  }

  /** Moving an opened checkout on keeps sessions apart and workspaces single. */
  lemma {:induction false} MoveKeeps(checkouts: map<string, Checkout>, id: string, state: State)
    requires Sessions(checkouts) && OnePerWorkspace(checkouts) && id in checkouts && checkouts[id].session != ""
    requires state != Pending && (checkouts[id].state == Expired ==> state == Expired)
    ensures Sessions(checkouts[id := checkouts[id].(state := state)]) && OnePerWorkspace(checkouts[id := checkouts[id].(state := state)])
  {
  }

  lemma {:induction false} SettleForward(db: Db, event: string, id: string, state: State, subs: map<string, Subscription>)
    requires event in db.events && id in db.checkouts && db.events[event].progress == Waiting
    requires state != Pending && Onward(db.checkouts[id], db.checkouts[id].(state := state))
    requires forall s | s in db.subs :: s in subs && subs[s] == db.subs[s]
    ensures Forward(db, Settle(db, event, id, state, subs))
  {
    forall o | o in db.checkouts ensures Onward(db.checkouts[o], Settle(db, event, id, state, subs).checkouts[o]) {
    }
  }

  lemma {:induction false} ExpirePreserves(db: Db, event: string, id: string)
    requires Inv(db) && event in db.events && id in db.checkouts && db.events[event].progress == Waiting && db.checkouts[id].session != ""
    ensures var db' := ExpireTx(db, event, id).state; Inv(db') && Forward(db, db')
  {
    if db.checkouts[id].state == Open || db.checkouts[id].state == Expired {
      MoveKeeps(db.checkouts, id, Expired);
      SettleForward(db, event, id, Expired, db.subs);
      MoveCheckout(db.checkouts, db.subs, id, db.checkouts[id].(state := Expired));
    }
  }

  lemma {:induction false} CompletePreserves(db: Db, event: string, id: string)
    requires Inv(db) && event in db.events && id in db.checkouts && db.events[event].progress == Waiting && db.checkouts[id].session != ""
    ensures var db' := CompleteTx(db, event, id).state; Inv(db') && Forward(db, db')
  {
    var c, sub := db.checkouts[id], db.events[event].subscription;
    if CompleteTx(db, event, id).result.Ok? {
      MoveKeeps(db.checkouts, id, Completed);
      SettleForward(db, event, id, Completed, CompleteTx(db, event, id).state.subs);
      if sub in db.subs { Repeated(db, sub, id); } else { Completes(db.checkouts, db.subs, id, sub); }
    }
  }

  lemma {:induction false} Repeated(db: Db, sub: string, id: string)
    requires Inv(db) && id in db.checkouts && sub in db.subs && !Clashes(db, sub, id)
    ensures db.checkouts[id].state == Completed && db.checkouts[id := db.checkouts[id].(state := Completed)] == db.checkouts
  {
    assert db.subs[sub].checkout == id;
  }

  lemma {:induction false} Completes(checkouts: map<string, Checkout>, subs: map<string, Subscription>, id: string, sub: string)
    requires OneToOne(checkouts, subs) && id in checkouts && sub !in subs
    requires forall s | s in subs :: subs[s].checkout != id
    ensures var c := checkouts[id];
            OneToOne(checkouts[id := c.(state := Completed)], subs[sub := Subscription(id, c.workspace, c.customer, c.plan, c.price)])
  {
    var c := checkouts[id];
    var checkouts', subs' := checkouts[id := c.(state := Completed)], subs[sub := Subscription(id, c.workspace, c.customer, c.plan, c.price)];
    forall o | o in checkouts' && checkouts'[o].state == Completed ensures exists s :: Has(subs', s, o) {
      if o == id {
        assert Has(subs', sub, o);
      } else {
        var s :| Has(subs, s, o);
        assert Has(subs', s, o);
      }
    }
  }

  // ---------------------------------------------------------------- runs

  datatype Step =
    | Receive(event: string, e: Event)
    | Request(id: string, workspace: string, plan: string, price: Option<string>, customer: Option<string>)
    | Bind(id: string, session: string, url: string)
    | Process(event: string)

  ghost predicate Rival(db: Db, session: string) {
    exists o | o in db.checkouts :: db.checkouts[o].session == session
  }

  ghost function Found(db: Db, session: string): Option<string> {
    if Rival(db, session) then var id :| id in db.checkouts && db.checkouts[id].session == session; Some(id) else None
  }

  // ---------------------------------------------------------------- what an event does

  /** A waiting, genuine event on the session of this checkout, from its customer. */
  ghost predicate Matched(db: Db, mode: string, event: string, id: string) {
    && event in db.events && db.events[event].progress == Waiting && db.events[event].genuine
    && db.events[event].kind != Unrelated && SessionName(mode, db.events[event].session)
    && id in db.checkouts && db.checkouts[id].session == db.events[event].session
    && db.checkouts[id].customer == db.events[event].customer && db.events[event].reference == id
  }

  /** A name of one of the provider's checkout sessions in this mode. */
  ghost predicate SessionName(mode: string, s: string) {
    && "cs_" + mode + "_" <= s && |"cs_" + mode + "_"| < |s| <= 255
    && forall i | 0 <= i < |s| :: s[i] !in " /\\\r\n"
  }

  /** A name of one of the provider's subscriptions. */
  ghost predicate SubscriptionName(s: string) {
    "sub_" <= s && |"sub_"| < |s| <= 255 && forall i | 0 <= i < |s| :: s[i] !in " /\\\r\n"
  }

  lemma {:induction false} NamesAgree(mode: string, s: string)
    ensures ValidSession(mode, s) <==> SessionName(mode, s)
    ensures ValidSubscription(s) <==> SubscriptionName(s)
  {
  }

  /** `EventTx` for whatever checkout the event's session leads to. */
  ghost function Processing(db: Db, mode: string, event: string): Tx<Db, bool> {
    EventTx(db, mode, event, if event in db.events then Found(db, db.events[event].session) else None)
  }

  lemma {:induction false} MatchedIsFound(db: Db, mode: string, event: string, id: string)
    requires Inv(db) && Matched(db, mode, event, id)
    ensures Found(db, db.events[event].session) == Some(id)
  {
    NamesAgree(mode, db.events[event].session);
    assert Rival(db, db.events[event].session);
  }

  /** A completion event completes its open checkout and creates the subscription with the checkout's
      identity, unless either is bound elsewhere; on a completed checkout it only settles itself. */
  lemma {:induction false} CompletionLaw(db: Db, mode: string, event: string, id: string)
    requires Inv(db) && Matched(db, mode, event, id) && db.events[event].kind == SessionCompleted
    ensures var tx, c, sub := Processing(db, mode, event), db.checkouts[id], db.events[event].subscription;
            && (tx.result == Ok(true) <==>
                  && db.events[event].status == "complete" && SubscriptionName(sub) && (c.state == Open || c.state == Completed)
                  && (forall s | s in db.subs :: s == sub <==> db.subs[s].checkout == id))
            && (tx.result == Ok(true) ==>
                  && tx.state.checkouts == db.checkouts[id := c.(state := Completed)]
                  && tx.state.subs == db.subs[sub := Subscription(id, c.workspace, c.customer, c.plan, c.price)]
                  && tx.state.events == db.events[event := db.events[event].(progress := Processed)])
            && (tx.result != Ok(true) ==> tx == Tx(db, Err(ErrConflict)))
  {
    MatchedIsFound(db, mode, event, id);
    NamesAgree(mode, db.events[event].session);
    NamesAgree(mode, db.events[event].subscription);
    CompletedAs(db, event, id);
  }

  lemma {:induction false} CompletedAs(db: Db, event: string, id: string)
    requires Inv(db) && event in db.events && id in db.checkouts
    ensures var tx, c, sub := CompleteTx(db, event, id), db.checkouts[id], db.events[event].subscription;
            && (tx.result == Ok(true) <==>
                  && db.events[event].status == "complete" && ValidSubscription(sub) && (c.state == Open || c.state == Completed)
                  && (forall s | s in db.subs :: s == sub <==> db.subs[s].checkout == id))
            && (tx.result == Ok(true) ==>
                  && tx.state.checkouts == db.checkouts[id := c.(state := Completed)]
                  && tx.state.subs == db.subs[sub := Subscription(id, c.workspace, c.customer, c.plan, c.price)]
                  && tx.state.events == db.events[event := db.events[event].(progress := Processed)])
            && (tx.result != Ok(true) ==> tx == Tx(db, Err(ErrConflict)))
  {
    var c, sub := db.checkouts[id], db.events[event].subscription;
    if sub in db.subs && db.subs[sub].checkout == id {
      assert Of(db.subs[sub], c);
      assert db.subs[sub] == Subscription(id, c.workspace, c.customer, c.plan, c.price);
    }
  }

  /** An expiry event expires its open checkout, is ignored once that is completed, and never touches
      a subscription. */
  lemma {:induction false} ExpiryLaw(db: Db, mode: string, event: string, id: string)
    requires Inv(db) && Matched(db, mode, event, id) && db.events[event].kind == SessionExpired
    ensures var tx, c := Processing(db, mode, event), db.checkouts[id];
            && (tx.result == Ok(true) <==> db.events[event].status == "expired")
            && (tx.result == Ok(true) ==>
                  && tx.state.subs == db.subs
                  && tx.state.checkouts == (if c.state == Completed then db.checkouts else db.checkouts[id := c.(state := Expired)])
                  && tx.state.events == db.events[event := db.events[event].(progress := if c.state == Completed then Ignored else Processed)])
            && (tx.result != Ok(true) ==> tx == Tx(db, Err(ErrConflict)))
  {
    MatchedIsFound(db, mode, event, id);
    NamesAgree(mode, db.events[event].session);
  }

  /** Any other event changes nothing: a settled one is acknowledged, one of another kind passed on, and
      one that matches no checkout refused until it does. */
  lemma {:induction false} UnmatchedLaw(db: Db, mode: string, event: string)
    requires Inv(db) && forall id :: !Matched(db, mode, event, id)
    ensures Processing(db, mode, event).state == db
    ensures var result := Processing(db, mode, event).result;
            && (result == Ok(true) <==> event in db.events && db.events[event].progress != Waiting)
            && (result == Ok(false) <==> event in db.events && db.events[event].progress == Waiting && db.events[event].kind == Unrelated)
  {
    if event in db.events { NamesAgree(mode, db.events[event].session); }
    if event in db.events && Found(db, db.events[event].session).Some? {
      assert !Matched(db, mode, event, Found(db, db.events[event].session).value);
    }
  }

  // ---------------------------------------------------------------- steps

  ghost predicate Enabled(db: Db, mode: string, s: Step) {
    match s
    case Receive(event, e) => event !in db.events ==> e.progress == Waiting
    case Request(id, workspace, _, _, _) => id !in db.checkouts && forall o :: !Occupies(db, workspace, o)
    case Bind(_, session, url) => Bindable(mode, session) && ValidUrl(url)
    case Process(_) => true
  }

  ghost function Apply(db: Db, mode: string, s: Step): Db
    requires Enabled(db, mode, s)
  {
    match s
    case Receive(event, e) => if event in db.events then db else db.(events := db.events[event := e])
    case Request(id, workspace, plan, price, customer) => RequestTx(db, id, workspace, plan, price, customer).state
    case Bind(id, session, url) => BindTx(db, id, session, url, Rival(db, session)).state
    case Process(event) => Processing(db, mode, event).state
  }

  lemma {:induction false} StepPreserves(db: Db, mode: string, s: Step)
    requires Inv(db) && Enabled(db, mode, s)
    ensures Inv(Apply(db, mode, s)) && Forward(db, Apply(db, mode, s))
  {
    match s {
      case Receive(_, _) =>
      case Request(id, workspace, plan, price, customer) => RequestPreserves(db, id, workspace, plan, price, customer);
      case Bind(id, session, url) => BindPreserves(db, id, session, url, Rival(db, session));
      case Process(event) => EventPreserves(db, mode, event, if event in db.events then Found(db, db.events[event].session) else None);
    }
  }

  ghost predicate Took(mode: string, states: seq<Db>, steps: seq<Step>, i: int)
    requires |states| == |steps| + 1
  {
    0 <= i < |steps| && Enabled(states[i], mode, steps[i]) && states[i + 1] == Apply(states[i], mode, steps[i])
  }

  ghost predicate IsRun(mode: string, states: seq<Db>, steps: seq<Step>) {
    |states| == |steps| + 1 && states[0] == START && forall i | 0 <= i < |steps| :: Took(mode, states, steps, i)
  }

  /** In every reachable state a session has one checkout, a workspace one unexpired checkout, and a
      checkout has its one subscription exactly when it is completed. */
  lemma {:induction false} RunSound(mode: string, states: seq<Db>, steps: seq<Step>, i: nat)
    requires IsRun(mode, states, steps) && i <= |steps|
    ensures Inv(states[i])
    decreases i
  {
    if i > 0 {
      RunSound(mode, states, steps, i - 1);
      assert Took(mode, states, steps, i - 1);
      StepPreserves(states[i - 1], mode, steps[i - 1]);
    }
  }

  lemma {:induction false} ForwardTransitive(a: Db, b: Db, c: Db)
    requires Forward(a, b) && Forward(b, c)
    ensures Forward(a, c)
  {
    forall id | id in a.checkouts ensures id in c.checkouts && Onward(a.checkouts[id], c.checkouts[id]) {
      assert Onward(a.checkouts[id], b.checkouts[id]) && Onward(b.checkouts[id], c.checkouts[id]);
    }
  }

  /** Completion and expiry are absorbing, sessions never rebind, subscriptions are permanent,
      whatever order and however often events come. */
  lemma {:induction false} RunForward(mode: string, states: seq<Db>, steps: seq<Step>, i: nat, j: nat)
    requires IsRun(mode, states, steps) && i <= j <= |steps|
    ensures Forward(states[i], states[j])
    decreases j
  {
    if i < j {
      RunForward(mode, states, steps, i, j - 1);
      RunSound(mode, states, steps, j - 1);
      assert Took(mode, states, steps, j - 1);
      StepPreserves(states[j - 1], mode, steps[j - 1]);
      ForwardTransitive(states[i], states[j - 1], states[j]);
    }
  }

  lemma {:induction false} ExtendRun(mode: string, states: seq<Db>, steps: seq<Step>, s: Step, db: Db)
    requires IsRun(mode, states, steps) && Enabled(states[|steps|], mode, s) && db == Apply(states[|steps|], mode, s)
    ensures IsRun(mode, states + [db], steps + [s])
  {
    var states', steps' := states + [db], steps + [s];
    forall i | 0 <= i < |steps'| ensures Took(mode, states', steps', i) {
      if i < |steps| { assert Took(mode, states, steps, i); }
    }
  }

  // ---------------------------------------------------------------- imperative form

  class Store {
    const mode: string
    var checkouts: map<string, Checkout>
    var subs: map<string, Subscription>
    var events: map<string, Event>
    ghost var states: seq<Db>
    ghost var steps: seq<Step>

    ghost function View(): Db
      reads this
    {
      Db(checkouts, subs, events)
    }

    /** What this store has been through is a run. */
    ghost predicate Valid()
      reads this
    {
      IsRun(mode, states, steps) && states[|steps|] == View()
    }

    constructor (m: string)
      ensures mode == m && Valid() && View() == START && steps == []
    {
      mode := m;
      checkouts, subs, events := map[], map[], map[];
      states, steps := [START], [];
    }

    lemma Sound()
      requires Valid()
      ensures Inv(View())
    {
      RunSound(mode, states, steps, |steps|);
    }

    /** Records that the store has just taken `s` from `before`. */
    ghost method Record(s: Step, before: Db)
      requires IsRun(mode, states, steps) && states[|steps|] == before
      requires Enabled(before, mode, s) && View() == Apply(before, mode, s)
      modifies this`states, this`steps
      ensures Valid() && steps == old(steps) + [s]
    {
      ExtendRun(mode, states, steps, s, View());
      states, steps := states + [View()], steps + [s];
    }

    /** The webhook inbox: a known event is not stored again. */
    method ReceiveEvent(event: string, e: Event)
      requires Valid() && e.progress == Waiting
      modifies this
      ensures Valid() && steps == old(steps) + [Receive(event, e)]
      ensures events == if event in old(events) then old(events) else old(events)[event := e]
    {
      ghost var before := View();
      if event !in events { events := events[event := e]; }
      Record(Receive(event, e), before);
    }

    method FindSession(session: string) returns (found: Option<string>)
      ensures Finds(View(), session, found)
    {
      found := None;
      var todo := checkouts.Keys;
      while todo != {}
        invariant todo <= checkouts.Keys
        invariant found.Some? ==> found.value in checkouts && checkouts[found.value].session == session
        invariant found.None? ==> forall id | id in checkouts && id !in todo :: checkouts[id].session != session
        decreases |todo|
      {
        var id :| id in todo;
        todo := todo - {id};
        if checkouts[id].session == session { found := Some(id); }
      }
    }

    method FindUnexpired(workspace: string) returns (found: Option<string>)
      ensures found.Some? ==> Occupies(View(), workspace, found.value)
      ensures found.None? ==> forall id :: !Occupies(View(), workspace, id)
    {
      found := None;
      var todo := checkouts.Keys;
      while todo != {}
        invariant todo <= checkouts.Keys
        invariant found.Some? ==> Occupies(View(), workspace, found.value)
        invariant found.None? ==> forall id | id in checkouts && id !in todo :: !Occupies(View(), workspace, id)
        decreases |todo|
      {
        var id :| id in todo;
        todo := todo - {id};
        if checkouts[id].workspace == workspace && checkouts[id].state != Expired { found := Some(id); }
      }
    }

    /** A workspace with an unexpired checkout gets that one back, or a conflict for another plan. */
    method RequestBillingCheckout(id: string, workspace: string, plan: string, price: Option<string>, customer: Option<string>)
      returns (result: Result<Checkout>)
      requires Valid() && id !in checkouts
      modifies this
      ensures Valid() && old(steps) <= steps && subs == old(subs) && events == old(events)
      ensures forall o | Occupies(old(View()), workspace, o) ::
                && checkouts == old(checkouts)
                && result == if old(checkouts)[o].plan == plan then Ok(old(checkouts)[o]) else Err(ErrConflict)
      ensures (forall o :: !Occupies(old(View()), workspace, o)) ==>
                Tx(View(), result) == RequestTx(old(View()), id, workspace, plan, price, customer)
      ensures (forall o :: !Occupies(old(View()), workspace, o)) ==>
                if price.Some? && customer.Some?
                then && result == Ok(Checkout(workspace, customer.value, plan, price.value, "", "", Pending))
                     && checkouts == old(checkouts)[id := result.value]
                else checkouts == old(checkouts) && result == Err(if price.None? then ErrInvalid else ErrConflict)
    {
      Sound();
      ghost var before := View();
      var existing := FindUnexpired(workspace);
      if existing.Some? {
        return if checkouts[existing.value].plan != plan then Err(ErrConflict) else Ok(checkouts[existing.value]);
      }
      forall o ensures !Occupies(before, workspace, o) {
        assert !Occupies(View(), workspace, o);
      }
      if price.None? { return Err(ErrInvalid); }
      if customer.None? { return Err(ErrConflict); }
      var c := Checkout(workspace, customer.value, plan, price.value, "", "", Pending);
      checkouts := checkouts[id := c];
      Record(Request(id, workspace, plan, price, customer), before);
      return Ok(c);
    }

    /** A session is bound once; repeating the acknowledgement is fine, changing it is not. */
    method BindBillingCheckout(id: string, session: string, url: string) returns (result: Result<()>)
      requires Valid()
      modifies this
      ensures Valid() && old(steps) <= steps
      ensures !(Bindable(mode, session) && ValidUrl(url)) ==> result == Err(ErrInvalid) && checkouts == old(checkouts)
      ensures Bindable(mode, session) && ValidUrl(url) ==> Tx(View(), result) == BindTx(old(View()), id, session, url, Rival(old(View()), session))
      ensures result.Ok? <==>
                && "cs_" + mode + "_" <= session && |"cs_" + mode + "_"| < |session| <= 255 && ValidUrl(url) && id in old(checkouts)
                && (if old(checkouts)[id].session != "" then old(checkouts)[id].session == session && old(checkouts)[id].url == url
                    else old(checkouts)[id].state == Pending && forall o | o in old(checkouts) :: old(checkouts)[o].session != session)
      ensures subs == old(subs) && events == old(events)
      ensures checkouts == if result.Ok? && old(checkouts)[id].session == ""
                           then old(checkouts)[id := old(checkouts)[id].(session := session, url := url, state := Open)] else old(checkouts)
    {
      if !Bindable(mode, session) || !ValidUrl(url) { return Err(ErrInvalid); }
      var rival := FindSession(session);
      ghost var before := View();
      if id !in checkouts { return Err(ErrNotFound); }
      var c := checkouts[id];
      if c.session != "" {
        return if c.session != session || c.url != url then Err(ErrConflict) else Ok(());
      }
      if c.state != Pending { return Err(ErrConflict); }
      if rival.Some? { return Err(ErrConflict); }
      checkouts := checkouts[id := c.(session := session, url := url, state := Open)];
      Record(Bind(id, session, url), before);
      return Ok(());
    }

    method FindClash(sub: string, checkout: string) returns (clash: bool)
      ensures clash <==> Clashes(View(), sub, checkout)
    {
      clash := false;
      var todo := subs.Keys;
      while todo != {}
        invariant todo <= subs.Keys
        invariant clash <==> exists s | s in subs && s !in todo ::
                    (s == sub || subs[s].checkout == checkout) && !(s == sub && subs[s].checkout == checkout)
        decreases |todo|
      {
        var s :| s in todo;
        todo := todo - {s};
        if (s == sub || subs[s].checkout == checkout) && (s != sub || subs[s].checkout != checkout) { clash := true; }
      }
    }

    method ProcessBillingCheckoutEvent(event: string) returns (result: Result<bool>)
      requires Valid()
      modifies this
      ensures Valid() && old(steps) <= steps
      ensures Tx(View(), result) == Processing(old(View()), mode, event)
    {
      if event !in events { return Err(ErrNotFound); }
      var e := events[event];
      var found := FindSession(e.session);
      Sound();
      ghost var before := View();
      SameFind(View(), e.session, found, mode, event);
      if e.progress != Waiting { return Ok(true); }
      if e.kind == Unrelated { return Ok(false); }
      if !e.genuine || !ValidSession(mode, e.session) { return Err(ErrConflict); }
      if found.None? { return Err(ErrReconciliation); }
      var id := found.value;
      if e.customer != checkouts[id].customer || e.reference != id { return Err(ErrConflict); }
      if e.kind == SessionExpired {
        result := Expire(event, id);
      } else {
        result := Complete(event, id);
      }
      Record(Process(event), before);
    }

    method Expire(event: string, id: string) returns (result: Result<bool>)
      requires event in events && id in checkouts
      modifies this`checkouts, this`subs, this`events
      ensures Tx(View(), result) == ExpireTx(old(View()), event, id)
    {
      if events[event].status != "expired" { return Err(ErrConflict); }
      if checkouts[id].state == Completed {
        events := events[event := events[event].(progress := Ignored)];
        return Ok(true);
      }
      if checkouts[id].state != Open && checkouts[id].state != Expired { return Err(ErrConflict); }
      checkouts := checkouts[id := checkouts[id].(state := Expired)];
      events := events[event := events[event].(progress := Processed)];
      return Ok(true);
    }

    method Complete(event: string, id: string) returns (result: Result<bool>)
      requires event in events && id in checkouts
      modifies this`checkouts, this`subs, this`events
      ensures Tx(View(), result) == CompleteTx(old(View()), event, id)
    {
      var c, sub := checkouts[id], events[event].subscription;
      if events[event].status != "complete" || !ValidSubscription(sub) { return Err(ErrConflict); }
      if c.state != Open && c.state != Completed { return Err(ErrConflict); }
      var clash := FindClash(sub, id);
      if clash { return Err(ErrConflict); }
      if sub !in subs { subs := subs[sub := Subscription(id, c.workspace, c.customer, c.plan, c.price)]; }
      checkouts := checkouts[id := c.(state := Completed)];
      events := events[event := events[event].(progress := Processed)];
      return Ok(true);
    }
  }

  /** A session leads to one checkout, however it is looked up. */
  lemma {:induction false} SameFind(db: Db, session: string, found: Option<string>, mode: string, event: string)
    requires Inv(db) && Finds(db, session, found) && event in db.events && db.events[event].session == session
    ensures Finds(db, session, Found(db, session))
    ensures ValidSession(mode, session) ==> found == Found(db, session)
  {
  }
}
