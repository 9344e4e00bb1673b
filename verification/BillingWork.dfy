/** Leased billing work (internal/portal/billing_worker.go).

    Any number of workers lease, perform and acknowledge tasks; a worker may be slower than its
    lease; a webhook may put a task back in the meantime. */
module BillingWork {
  import opened Common

  /** `lease` is the digest of the holder's random token, empty when nobody holds the work. */
  datatype Task = Task(nextAttempt: int, attempts: nat, done: bool, lease: string, leaseUntil: int)

  type Tasks = map<string, Task>

  const LEASE := 60
  const AGAIN := 300
  const FIRST_DELAY := 30
  const LAST_DELAY := 3600

  const FRESH := Task(0, 0, false, "", 0)

  predicate Due(t: Task, now: int) {
    !t.done && t.nextAttempt <= now && t.leaseUntil <= now
  }

  function Leased(t: Task, token: string, now: int): Task {
    t.(lease := token, leaseUntil := now + LEASE, attempts := t.attempts + 1)
  }

  /** The acknowledgement holds only under the lease it was made for, while that lease runs. */
  predicate Holds(tasks: Tasks, key: string, token: string, now: int) {
    key in tasks && tasks[key].lease == token && tasks[key].leaseUntil > now
  }

  function Acknowledged(t: Task, ok: bool, recurring: bool, now: int, delay: int): Task {
    Task(now + delay, if ok then 0 else t.attempts, ok && !recurring, "", 0)
  }

  // ---------------------------------------------------------------- backoff

  function Pow2(n: nat): nat {
    if n == 0 then 1 else 2 * Pow2(n - 1)
  }

  /** Thirty seconds doubled for every earlier attempt, an hour at most. */
  function Delay(attempts: nat): int {
    if FIRST_DELAY * Pow2(attempts) < LAST_DELAY then FIRST_DELAY * Pow2(attempts) else LAST_DELAY
  }

  /** The doubling loop stops early and still gives the bounded power. */
  method Backoff(attempts: nat) returns (delay: int)
    ensures delay == Delay(attempts)
  {
    delay := FIRST_DELAY;
    var i := 0;
    while i < attempts && delay < LAST_DELAY
      invariant 0 <= i <= attempts && delay == FIRST_DELAY * Pow2(i)
    {
      delay := delay * 2;
      i := i + 1;
    }
    Pow2Grows(i, attempts);
    if delay > LAST_DELAY { delay := LAST_DELAY; }
  }

  lemma {:induction false} Pow2Grows(a: nat, b: nat)
    requires a <= b
    ensures Pow2(a) <= Pow2(b)
    decreases b
  {
    if a < b { Pow2Grows(a, b - 1); }
  }

  // ---------------------------------------------------------------- runs

  /** The queue, the clock, and every token handed out so far. */
  datatype Queue = Queue(tasks: Tasks, now: int, tokens: set<string>)

  const START := Queue(map[], 0, {})

  datatype Step =
    | Pass(now: int)
    | Offer(key: string)
    | Reset(key: string)
    | Lease(key: string, token: string)
    | Ack(key: string, token: string, ok: bool, recurring: bool, delay: int)

  predicate Enabled(q: Queue, s: Step) {
    match s
    case Pass(now) => q.now <= now
    case Offer(_) => true
    case Reset(_) => true
    case Lease(key, token) => key in q.tasks && Due(q.tasks[key], q.now) && token != "" && token !in q.tokens
    case Ack(_, token, _, _, _) => token in q.tokens
  }

  function Apply(q: Queue, s: Step): Queue
    requires Enabled(q, s)
  {
    match s
    case Pass(now) => q.(now := now)
    case Offer(key) => if key in q.tasks then q else q.(tasks := q.tasks[key := FRESH])
    case Reset(key) => q.(tasks := q.tasks[key := FRESH])
    case Lease(key, token) => q.(tasks := q.tasks[key := Leased(q.tasks[key], token, q.now)], tokens := q.tokens + {token})
    case Ack(key, token, ok, recurring, delay) =>
      if Holds(q.tasks, key, token, q.now) then q.(tasks := q.tasks[key := Acknowledged(q.tasks[key], ok, recurring, q.now, delay)])
      else q
  }

  /** Leases are tokens that were handed out, none of them twice. */
  ghost predicate Inv(q: Queue) {
    && "" !in q.tokens
    && (forall key | key in q.tasks && q.tasks[key].lease != "" :: q.tasks[key].lease in q.tokens)
    && (forall a, b | a in q.tasks && b in q.tasks && a != b && q.tasks[a].lease != "" :: q.tasks[a].lease != q.tasks[b].lease)
  }

  lemma {:induction false} StepPreserves(q: Queue, s: Step)
    requires Inv(q) && Enabled(q, s)
    ensures Inv(Apply(q, s)) && q.tokens <= Apply(q, s).tokens && q.now <= Apply(q, s).now
  {
  }

  predicate Took(states: seq<Queue>, steps: seq<Step>, i: int)
    requires |states| == |steps| + 1
  {
    0 <= i < |steps| && Enabled(states[i], steps[i]) && states[i + 1] == Apply(states[i], steps[i])
  }

  ghost predicate IsRun(states: seq<Queue>, steps: seq<Step>) {
    |states| == |steps| + 1 && states[0] == START && forall i | 0 <= i < |steps| :: Took(states, steps, i)
  }

  lemma {:induction false} RunSound(states: seq<Queue>, steps: seq<Step>, i: nat)
    requires IsRun(states, steps) && i <= |steps|
    ensures Inv(states[i])
    decreases i
  {
    if i > 0 {
      RunSound(states, steps, i - 1);
      assert Took(states, steps, i - 1);
      StepPreserves(states[i - 1], steps[i - 1]);
    }
  }

  /** A token that is no longer on its task never comes back to it. */
  lemma {:induction false} LostStaysLost(states: seq<Queue>, steps: seq<Step>, i: nat, j: nat, key: string, token: string)
    requires IsRun(states, steps) && i <= j <= |steps| && token in states[i].tokens
    requires !(key in states[i].tasks && states[i].tasks[key].lease == token)
    ensures !(key in states[j].tasks && states[j].tasks[key].lease == token) && token in states[j].tokens
    decreases j
  {
    if i < j {
      LostStaysLost(states, steps, i, j - 1, key, token);
      RunSound(states, steps, j - 1);
      assert Took(states, steps, j - 1);
    }
  }

  /** The step gives the work to somebody or takes it back. */
  predicate Disturbs(q: Queue, s: Step, key: string) {
    s == Reset(key) || (s.Lease? && s.key == key) || (s.Ack? && s.key == key && Holds(q.tasks, key, s.token, q.now))
  }

  /** An acknowledgement that counts finds the work exactly as its own lease left it: since then
      nobody leased it, nobody acknowledged it, no webhook put it back, and the lease still runs. */
  lemma {:induction false} AckUnderOwnLease(states: seq<Queue>, steps: seq<Step>, i: nat, k: nat, j: nat)
    requires IsRun(states, steps) && i < k < j < |steps|
    requires steps[i].Lease? && steps[j].Ack? && steps[j].key == steps[i].key && steps[j].token == steps[i].token
    requires Holds(states[j].tasks, steps[j].key, steps[j].token, states[j].now)
    ensures !Disturbs(states[k], steps[k], steps[i].key)
    ensures steps[i].key in states[k].tasks && steps[i].key in states[i + 1].tasks
    ensures states[k].tasks[steps[i].key] == states[i + 1].tasks[steps[i].key] == states[j].tasks[steps[i].key]
    ensures states[j].now < states[i].now + LEASE
  {
    var key, token := steps[i].key, steps[i].token;
    assert Took(states, steps, i);
    Untouched(states, steps, i, k, j);
    Untouched(states, steps, i, j, j);
    assert Took(states, steps, k);
    if Disturbs(states[k], steps[k], key) {
      RunSound(states, steps, k);
      Disturbed(states[k], steps[k], key, token);
      LostStaysLost(states, steps, k + 1, j, key, token);
    }
  }

  lemma {:induction false} Disturbed(q: Queue, s: Step, key: string, token: string)
    requires Inv(q) && Enabled(q, s) && Disturbs(q, s, key) && token in q.tokens
    ensures !(key in Apply(q, s).tasks && Apply(q, s).tasks[key].lease == token) && token in Apply(q, s).tokens
  {
  }

  lemma {:induction false} Untouched(states: seq<Queue>, steps: seq<Step>, i: nat, k: nat, j: nat)
    requires IsRun(states, steps) && i < k <= j < |steps| && steps[i].Lease?
    requires steps[i].key in states[j].tasks && states[j].tasks[steps[i].key].lease == steps[i].token
    ensures steps[i].key in states[k].tasks && steps[i].key in states[i + 1].tasks
    ensures states[k].tasks[steps[i].key] == states[i + 1].tasks[steps[i].key]
    ensures steps[i].token in states[k].tokens
    decreases k
  {
    var key, token := steps[i].key, steps[i].token;
    assert Took(states, steps, i);
    if k > i + 1 {
      Untouched(states, steps, i, k - 1, j);
      assert Took(states, steps, k - 1);
      RunSound(states, steps, k - 1);
      if Disturbs(states[k - 1], steps[k - 1], key) {
        Disturbed(states[k - 1], steps[k - 1], key, token);
        LostStaysLost(states, steps, k, j, key, token);
      }
    }
  }

  // ---------------------------------------------------------------- after the acknowledgement

  /** The step is an acknowledgement of this work that counts. */
  predicate Settles(q: Queue, s: Step, key: string) {
    s.Ack? && s.key == key && Holds(q.tasks, key, s.token, q.now)
  }

  lemma {:induction false} SettledTask(q: Queue, s: Step, key: string)
    requires Enabled(q, s) && Settles(q, s, key)
    ensures var tasks := Apply(q, s).tasks;
            && key in tasks && tasks[key].lease == "" && tasks[key].leaseUntil == 0 && tasks[key].nextAttempt == q.now + s.delay
            && (tasks[key].done <==> s.ok && !s.recurring) && tasks[key].attempts == (if s.ok then 0 else q.tasks[key].attempts)
  {
  }

  lemma {:induction false} Undisturbed(states: seq<Queue>, steps: seq<Step>, i: nat, j: nat, key: string)
    requires IsRun(states, steps) && i <= j <= |steps| && key in states[i].tasks
    requires forall k | i <= k < j :: !Disturbs(states[k], steps[k], key)
    ensures key in states[j].tasks && states[j].tasks[key] == states[i].tasks[key] && states[i].now <= states[j].now
    decreases j
  {
    if i < j {
      Undisturbed(states, steps, i, j - 1, key);
      assert Took(states, steps, j - 1);
    }
  }

  /** Work that failed, and work that recurs, is due again from its next attempt on, until somebody
      leases it or a webhook puts it back. */
  lemma {:induction false} ComesBack(states: seq<Queue>, steps: seq<Step>, j: nat, i: nat, key: string)
    requires IsRun(states, steps) && j < i <= |steps| && Settles(states[j], steps[j], key) && (!steps[j].ok || steps[j].recurring)
    requires forall k | j < k < i :: !Disturbs(states[k], steps[k], key)
    requires states[j].now + steps[j].delay <= states[i].now && 0 <= states[i].now
    ensures key in states[i].tasks && Due(states[i].tasks[key], states[i].now)
  {
    assert Took(states, steps, j);
    SettledTask(states[j], steps[j], key);
    Undisturbed(states, steps, j + 1, i, key);
  }

  /** One-off work that succeeded is never leased again, unless a webhook puts it back. */
  lemma {:induction false} StaysDone(states: seq<Queue>, steps: seq<Step>, j: nat, i: nat, key: string)
    requires IsRun(states, steps) && j < i <= |steps| && Settles(states[j], steps[j], key) && steps[j].ok && !steps[j].recurring
    requires forall k | j < k < i :: steps[k] != Reset(key)
    ensures key in states[i].tasks && states[i].tasks[key].done && states[i].tasks[key].lease == ""
    ensures i < |steps| ==> !(steps[i].Lease? && steps[i].key == key)
    decreases i
  {
    if i == j + 1 {
      assert Took(states, steps, j);
      SettledTask(states[j], steps[j], key);
    } else {
      StaysDone(states, steps, j, i - 1, key);
      RunSound(states, steps, i - 1);
      assert Took(states, steps, i - 1);
    }
    if i < |steps| { assert Took(states, steps, i); }
  }

  // ---------------------------------------------------------------- who may take work

  /** The step takes the work. */
  predicate Takes(s: Step, key: string) {
    s.Lease? && s.key == key
  }

  /** Work is taken only while it is not done, at its time, and not under somebody's running lease; it is
      then held for a minute, and one more attempt is counted. */
  lemma {:induction false} TakenWhenFree(states: seq<Queue>, steps: seq<Step>, i: nat, key: string)
    requires IsRun(states, steps) && i < |steps| && Takes(steps[i], key)
    ensures key in states[i].tasks && key in states[i + 1].tasks
    ensures var before, after := states[i].tasks[key], states[i + 1].tasks[key];
            && !before.done && before.nextAttempt <= states[i].now && before.leaseUntil <= states[i].now
            && after == Task(before.nextAttempt, before.attempts + 1, false, steps[i].token, states[i].now + 60)
  {
    assert Took(states, steps, i);
  }

  /** Two workers never hold the same work at once: unless it was settled or put back in between, it is
      taken again only when the first lease has run out. */
  lemma {:induction false} LeasesApart(states: seq<Queue>, steps: seq<Step>, i: nat, j: nat, key: string)
    requires IsRun(states, steps) && i < j < |steps| && Takes(steps[i], key) && Takes(steps[j], key)
    requires forall k | i < k < j :: steps[k] != Reset(key) && !Settles(states[k], steps[k], key)
    ensures states[i].now + 60 <= states[j].now
  {
    TakenWhenFree(states, steps, i, key);
    TakenWhenFree(states, steps, j, key);
    HeldOn(states, steps, i + 1, j, key);
  }

  lemma {:induction false} HeldOn(states: seq<Queue>, steps: seq<Step>, i: nat, j: nat, key: string)
    requires IsRun(states, steps) && i <= j <= |steps| && key in states[i].tasks
    requires forall k | i <= k < j :: steps[k] != Reset(key) && !Settles(states[k], steps[k], key)
    ensures key in states[j].tasks && states[i].tasks[key].leaseUntil <= states[j].tasks[key].leaseUntil
    ensures states[i].tasks[key].nextAttempt == states[j].tasks[key].nextAttempt
    decreases j
  {
    if i < j {
      HeldOn(states, steps, i, j - 1, key);
      assert Took(states, steps, j - 1);
      if Takes(steps[j - 1], key) { TakenWhenFree(states, steps, j - 1, key); }
    }
  }

  /** After an outcome, the work rests until its next attempt, unless a webhook puts it back. */
  lemma {:induction false} RestsBetween(states: seq<Queue>, steps: seq<Step>, j: nat, i: nat, key: string)
    requires IsRun(states, steps) && j < i < |steps| && Settles(states[j], steps[j], key) && Takes(steps[i], key)
    requires forall k | j < k < i :: steps[k] != Reset(key) && !Settles(states[k], steps[k], key)
    ensures states[j].now + steps[j].delay <= states[i].now
  {
    assert Took(states, steps, j);
    SettledTask(states[j], steps[j], key);
    HeldOn(states, steps, j + 1, i, key);
    TakenWhenFree(states, steps, i, key);
  }
}
