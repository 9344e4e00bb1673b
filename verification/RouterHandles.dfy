/** Several router handles on one database (internal/noderouter/ownership.go).

    Each handle keeps its own in-flight counts, so a drain on one handle says something about the
    others only because `beginUpstream` lets a single handle contact upstreams at a time: the one
    that holds the lock file, until it is closed and its last call has returned, or its process
    dies. Handles that only read or retire take no lock. */
module RouterHandles {
  import opened Common
  import Router
  import Threads = RouterThreads

  datatype Handle = Handle(inFlight: map<string, int>, owns: bool, upstreams: int, closed: bool)

  const FRESH := Handle(map[], false, 0, false)

  /** The database and its write guard, every call in progress with the handle it runs on, and the handles. */
  datatype Site = Site(
    db: Router.Db, guard: Option<nat>, threads: map<nat, Threads.Thread>,
    home: map<nat, nat>, handles: map<nat, Handle>)

  datatype Step =
    | Open(h: nat)
    | Call(h: nat, s: Threads.Step)   // a call enters through `beginUpstream`, or is refused by it
    | Go(s: Threads.Step)             // a call goes on, and passes `endUpstream` when it leaves
    | Control(s: Threads.Step)        // a retirement or rejection, without ownership
    | Close(h: nat)
    | Kill(h: nat)                    // the handle's process dies

  predicate Enters(s: Threads.Step) {
    s.Serve? || s.Arrive? || s.Await? || s.Drain?
  }

  predicate Continues(s: Threads.Step) {
    !Enters(s) && !s.Retire? && !s.Reject? && !s.Crash?
  }

  /** What one handle sees. */
  function Local(site: Site, h: nat): Threads.World
    requires h in site.handles
  {
    Threads.World(site.db, site.handles[h].inFlight, site.guard, site.threads)
  }

  function Bare(site: Site): Threads.World {
    Threads.World(site.db, map[], site.guard, site.threads)
  }

  predicate Unowned(handles: map<nat, Handle>) {
    forall g | g in handles :: !handles[g].owns
  }

  /** `beginUpstream` succeeds. */
  predicate Admits(site: Site, h: nat)
    requires h in site.handles
  {
    !site.handles[h].closed && (site.handles[h].owns || Unowned(site.handles))
  }

  predicate Enabled(cfg: Router.Config, site: Site, s: Step) {
    match s
    case Open(h) => h !in site.handles
    case Call(h, c) => h in site.handles && Enters(c) && Threads.Enabled(cfg, Local(site, h), c)
    case Go(c) => Continues(c) && c.t in site.home && site.home[c.t] in site.handles && Threads.Enabled(cfg, Local(site, site.home[c.t]), c)
    case Control(c) => (c.Retire? || c.Reject?) && Threads.Enabled(cfg, Bare(site), c)
    case Close(h) => h in site.handles
    case Kill(h) => h in site.handles
  }

  /** `releaseOwnerLocked`. */
  function Released(h: Handle): Handle {
    if h.closed && h.upstreams == 0 then h.(owns := false) else h
  }

  /** The site after its handle `h` has gone from `Local` to `w`, with the call `t` in progress or gone. */
  function Joined(site: Site, h: nat, t: nat, w: Threads.World, upstreams: int): Site
    requires h in site.handles
  {
    var handle := Released(site.handles[h].(inFlight := w.inFlight, owns := true, upstreams := upstreams));
    Site(w.db, w.guard, w.threads,
         if t in w.threads then site.home[t := h] else site.home - {t},
         site.handles[h := handle])
  }

  function Apply(cfg: Router.Config, site: Site, s: Step): Site
    requires Enabled(cfg, site, s)
  {
    match s
    case Open(h) => site.(handles := site.handles[h := FRESH])
    case Call(h, c) =>
      if !Admits(site, h) then site
      else
        var w := Threads.Apply(cfg, Local(site, h), c);
        Joined(site, h, c.t, w, site.handles[h].upstreams + if c.t in w.threads then 1 else 0)
    case Go(c) =>
      var h := site.home[c.t];
      var w := Threads.Apply(cfg, Local(site, h), c);
      Joined(site, h, c.t, w, site.handles[h].upstreams - if c.t in w.threads then 0 else 1)
    case Control(c) => site.(db := Threads.Apply(cfg, Bare(site), c).db)
    case Close(h) => site.(handles := site.handles[h := Released(site.handles[h].(closed := true))])
    case Kill(h) =>
      var threads := map t | t in site.threads && !(t in site.home && site.home[t] == h) :: site.threads[t];
      Site(site.db, if site.guard.Some? && site.guard.value in threads then site.guard else None, threads,
           map t | t in site.home && site.home[t] != h :: site.home[t], site.handles - {h})
  }

  // ---------------------------------------------------------------- invariant

  predicate Idle(inFlight: map<string, int>) {
    forall b | b in inFlight :: inFlight[b] == 0
  }

  /** Calls run only on the handle that owns the upstreams, and there is one at most. */
  ghost predicate Owned(site: Site) {
    && site.threads.Keys == site.home.Keys
    && (forall t | t in site.home :: site.home[t] in site.handles && site.handles[site.home[t]].owns)
    && (forall g, h | g in site.handles && h in site.handles && site.handles[g].owns && site.handles[h].owns :: g == h)
  }

  /** The owner's counters count every call there is; everybody else's are at rest. */
  predicate Settled(site: Site, h: nat)
    requires h in site.handles
  {
    if site.handles[h].owns then site.handles[h].upstreams == |site.threads|
    else site.handles[h].upstreams == 0 && Idle(site.handles[h].inFlight)
  }

  ghost predicate Inv(cfg: Router.Config, site: Site) {
    && Owned(site)
    && (forall h | h in site.handles :: Settled(site, h))
    && (forall h | h in site.handles && site.handles[h].owns :: Threads.Inv(cfg, Local(site, h)))
    && (Unowned(site.handles) ==> Router.Inv(cfg, site.db) && site.guard.None?)
  }

  /** Without calls in progress, a handle at rest is as sound as the database. */
  lemma {:induction false} AtRest(cfg: Router.Config, w: Threads.World)
    requires Router.Inv(cfg, w.db) && w.threads == map[] && w.guard.None? && Idle(w.inFlight)
    ensures Threads.Inv(cfg, w)
  {
    forall b ensures Threads.InFlight(w, b) == |Threads.CountedOn(w.threads, b)| {
      assert Threads.CountedOn(w.threads, b) == {};
    }
  }

  /** And conversely: when the last call is gone, the counts are at rest. */
  lemma {:induction false} Emptied(cfg: Router.Config, w: Threads.World)
    requires Threads.Inv(cfg, w) && |w.threads| == 0
    ensures w.threads == map[] && w.guard.None? && Idle(w.inFlight) && Router.Inv(cfg, w.db)
  {
    assert w.threads.Keys == {};
    forall b | b in w.inFlight ensures w.inFlight[b] == 0 {
      assert Threads.CountedOn(w.threads, b) == {};
      assert Threads.InFlight(w, b) == |Threads.CountedOn(w.threads, b)|;
    }
  }

  /** Whoever may go on sees a sound router. */
  lemma {:induction false} Sees(cfg: Router.Config, site: Site, h: nat)
    requires Inv(cfg, site) && h in site.handles && (site.handles[h].owns || Unowned(site.handles))
    ensures Threads.Inv(cfg, Local(site, h))
    ensures forall g | g in site.handles && site.handles[g].owns :: g == h
    ensures forall t | t in site.home :: site.home[t] == h
    ensures site.handles[h].upstreams == |site.threads|
  {
    if !site.handles[h].owns {
      assert site.home.Keys == {} by { forall t | t in site.home ensures false { } }
      assert site.threads == map[];
      AtRest(cfg, Local(site, h));
    }
  }

  /** One call's step changes the number of calls by what it enters or leaves. */
  lemma {:induction false} CallsAfter(threads: map<nat, Threads.Thread>, threads': map<nat, Threads.Thread>, t: nat)
    requires threads - {t} == threads' - {t}
    ensures |threads'| - (if t in threads' then 1 else 0) == |threads| - (if t in threads then 1 else 0)
    ensures t in threads' ==> threads'.Keys == threads.Keys + {t}
    ensures t !in threads' ==> threads'.Keys == threads.Keys - {t}
  {
    var a, b := threads.Keys, threads'.Keys;
    assert (threads - {t}).Keys == a - {t} && (threads' - {t}).Keys == b - {t};
    SetLess(a, b, t);
    assert |threads| == |a| && |threads'| == |b|;
  }

  lemma {:induction false} SetLess(a: set<nat>, b: set<nat>, t: nat)
    requires a - {t} == b - {t}
    ensures |b| - (if t in b then 1 else 0) == |a| - (if t in a then 1 else 0)
    ensures t in b ==> b == a + {t}
    ensures t !in b ==> b == a - {t}
  {
    assert |a| == |a - {t}| + if t in a then 1 else 0;
    assert |b| == |b - {t}| + if t in b then 1 else 0;
    forall x | x != t ensures x in a <==> x in b {
      assert x in a - {t} <==> x in b - {t};
    }
  }

  lemma {:induction false} JoinedSound(cfg: Router.Config, site: Site, h: nat, t: nat, w: Threads.World, upstreams: int)
    requires Inv(cfg, site) && h in site.handles && (site.handles[h].owns || Unowned(site.handles))
    requires Threads.Inv(cfg, w) && w.threads - {t} == site.threads - {t} && upstreams == |w.threads|
    ensures Inv(cfg, Joined(site, h, t, w, upstreams))
  {
    var site' := Joined(site, h, t, w, upstreams);
    Sees(cfg, site, h);
    CallsAfter(site.threads, w.threads, t);
    assert Local(site', h) == w;
    forall g | g in site'.handles && g != h ensures Settled(site', g) && !site'.handles[g].owns {
      assert Settled(site, g);
    }
    if !site'.handles[h].owns { Emptied(cfg, w); }
    JoinedOwned(site, h, t, w, upstreams);
  }

  lemma {:induction false} JoinedOwned(site: Site, h: nat, t: nat, w: Threads.World, upstreams: int)
    requires Owned(site) && h in site.handles && upstreams == |w.threads|
    requires forall g | g in site.handles && site.handles[g].owns :: g == h
    requires forall u | u in site.home :: site.home[u] == h
    requires w.threads.Keys == if t in w.threads then site.threads.Keys + {t} else site.threads.Keys - {t}
    ensures Owned(Joined(site, h, t, w, upstreams))
  {
    var site' := Joined(site, h, t, w, upstreams);
    forall u | u in site'.home ensures site'.home[u] == h && site'.handles[h].owns {
      assert u in w.threads.Keys;
    }
  }

  lemma {:induction false} CallPreserves(cfg: Router.Config, site: Site, h: nat, c: Threads.Step)
    requires Inv(cfg, site) && Enabled(cfg, site, Call(h, c))
    ensures Inv(cfg, Apply(cfg, site, Call(h, c)))
  {
    if Admits(site, h) { AdmitPreserves(cfg, site, h, c); }
  }

  lemma {:induction false} AdmitPreserves(cfg: Router.Config, site: Site, h: nat, c: Threads.Step)
    requires Inv(cfg, site) && Enabled(cfg, site, Call(h, c)) && Admits(site, h)
    ensures Inv(cfg, Apply(cfg, site, Call(h, c)))
  {
    Sees(cfg, site, h);
    EntersOnce(cfg, Local(site, h), c);
    var w' := Threads.Apply(cfg, Local(site, h), c);
    JoinedSound(cfg, site, h, c.t, w', site.handles[h].upstreams + if c.t in w'.threads then 1 else 0);
  }

  lemma {:induction false} EntersOnce(cfg: Router.Config, w: Threads.World, c: Threads.Step)
    requires Threads.Inv(cfg, w) && Enters(c) && Threads.Enabled(cfg, w, c)
    ensures var w' := Threads.Apply(cfg, w, c);
            && Threads.Inv(cfg, w') && w'.threads - {c.t} == w.threads - {c.t}
            && |w'.threads| == |w.threads| + if c.t in w'.threads then 1 else 0
  {
    StepOf(cfg, w, c);
    CallsAfter(w.threads, Threads.Apply(cfg, w, c).threads, c.t);
  }

  lemma {:induction false} StepOf(cfg: Router.Config, w: Threads.World, c: Threads.Step)
    requires Threads.Inv(cfg, w) && Threads.Enabled(cfg, w, c) && !c.Retire? && !c.Reject? && !c.Crash?
    ensures Threads.Inv(cfg, Threads.Apply(cfg, w, c))
    ensures Threads.Apply(cfg, w, c).threads - {c.t} == w.threads - {c.t}
  {
    Threads.StepPreserves(cfg, w, c);
    Threads.OneThread(cfg, w, c, "");
  }

  lemma {:induction false} GoPreserves(cfg: Router.Config, site: Site, c: Threads.Step)
    requires Inv(cfg, site) && Enabled(cfg, site, Go(c))
    ensures Inv(cfg, Apply(cfg, site, Go(c)))
  {
    var h := site.home[c.t];
    Sees(cfg, site, h);
    var w, w' := Local(site, h), Threads.Apply(cfg, Local(site, h), c);
    StepOf(cfg, w, c);
    CallsAfter(w.threads, w'.threads, c.t);
    assert c.t in w.threads;
    JoinedSound(cfg, site, h, c.t, w', site.handles[h].upstreams - if c.t in w'.threads then 0 else 1);
  }

  /** Retiring and rejecting depend on the database and the guard alone. */
  lemma {:induction false} ControlAlike(cfg: Router.Config, site: Site, h: nat, c: Threads.Step)
    requires h in site.handles && (c.Retire? || c.Reject?) && Threads.Enabled(cfg, Bare(site), c)
    ensures Threads.Enabled(cfg, Local(site, h), c)
    ensures Threads.Apply(cfg, Local(site, h), c) == Local(site.(db := Threads.Apply(cfg, Bare(site), c).db), h)
  {
  }

  lemma {:induction false} ControlPreserves(cfg: Router.Config, site: Site, c: Threads.Step)
    requires Inv(cfg, site) && Enabled(cfg, site, Control(c))
    ensures Inv(cfg, Apply(cfg, site, Control(c)))
  {
    var site' := Apply(cfg, site, Control(c));
    forall h | h in site.handles && site.handles[h].owns ensures Threads.Inv(cfg, Local(site', h)) {
      ControlAlike(cfg, site, h, c);
      Threads.StepPreserves(cfg, Local(site, h), c);
    }
    forall h | h in site'.handles ensures Settled(site', h) {
      assert Settled(site, h);
    }
    if Unowned(site.handles) {
      assert Router.Inv(cfg, site'.db) by {
        if c.Retire? { Router.FencePreserves(cfg, site.db, c.c); } else { Router.RejectPreserves(cfg, site.db, c.c); }
      }
    }
  }

  lemma {:induction false} ClosePreserves(cfg: Router.Config, site: Site, h: nat)
    requires Inv(cfg, site) && h in site.handles
    ensures Inv(cfg, Apply(cfg, site, Close(h)))
  {
    var site' := Apply(cfg, site, Close(h));
    assert Settled(site, h);
    forall g | g in site'.handles && g != h ensures Settled(site', g) {
      assert Settled(site, g);
    }
    if site.handles[h].owns && !site'.handles[h].owns {
      Emptied(cfg, Local(site, h));
    }
    forall g | g in site'.handles && site'.handles[g].owns ensures Threads.Inv(cfg, Local(site', g)) {
      assert Local(site', g) == Local(site, g);
    }
    if Unowned(site'.handles) && !site.handles[h].owns {
      assert Unowned(site.handles) by {
        forall g | g in site.handles ensures !site.handles[g].owns {
          assert g != h ==> site'.handles[g] == site.handles[g];
        }
      }
    }
  }

  /** The owner's process takes all calls with it; any other takes none. */
  lemma {:induction false} KillPreserves(cfg: Router.Config, site: Site, h: nat)
    requires Inv(cfg, site) && h in site.handles
    ensures Inv(cfg, Apply(cfg, site, Kill(h)))
  {
    var site' := Apply(cfg, site, Kill(h));
    if site.handles[h].owns {
      Sees(cfg, site, h);
      assert site'.threads == map[] && site'.home == map[];
      assert Threads.Inv(cfg, Local(site, h));
      assert Unowned(site'.handles);
      forall g | g in site'.handles ensures Settled(site', g) {
        assert Settled(site, g);
      }
    } else {
      assert site'.threads == site.threads && site'.home == site.home;
      GuardKept(cfg, site);
      assert site'.guard == site.guard;
      forall g | g in site'.handles ensures Settled(site', g) && Local(site', g) == Local(site, g) {
        assert Settled(site, g);
      }
      if Unowned(site'.handles) {
        assert Unowned(site.handles) by {
          forall g | g in site.handles ensures !site.handles[g].owns { assert g != h ==> g in site'.handles; }
        }
      }
    }
  }

  lemma {:induction false} GuardKept(cfg: Router.Config, site: Site)
    requires Inv(cfg, site)
    ensures site.guard.Some? ==> site.guard.value in site.threads
  {
    if !Unowned(site.handles) {
      var g :| g in site.handles && site.handles[g].owns;
      assert Threads.Inv(cfg, Local(site, g));
    }
  }

  lemma {:induction false} OpenPreserves(cfg: Router.Config, site: Site, h: nat)
    requires Inv(cfg, site) && h !in site.handles
    ensures Inv(cfg, Apply(cfg, site, Open(h)))
  {
    var site' := Apply(cfg, site, Open(h));
    forall g | g in site'.handles && g != h ensures Settled(site', g) && Local(site', g) == Local(site, g) {
      assert Settled(site, g);
    }
    if Unowned(site'.handles) {
      assert Unowned(site.handles) by {
        forall g | g in site.handles ensures !site.handles[g].owns { assert site'.handles[g] == site.handles[g]; }
      }
    }
  }

  lemma {:induction false} StepPreserves(cfg: Router.Config, site: Site, s: Step)
    requires Inv(cfg, site) && Enabled(cfg, site, s)
    ensures Inv(cfg, Apply(cfg, site, s))
  {
    match s {
      case Open(h) => OpenPreserves(cfg, site, h);
      case Call(h, c) => CallPreserves(cfg, site, h, c);
      case Go(c) => GoPreserves(cfg, site, c);
      case Control(c) => ControlPreserves(cfg, site, c);
      case Close(h) => ClosePreserves(cfg, site, h);
      case Kill(h) => KillPreserves(cfg, site, h);
    }
  }

  // ---------------------------------------------------------------- runs

  ghost predicate Took(cfg: Router.Config, states: seq<Site>, steps: seq<Step>, i: int)
    requires |states| == |steps| + 1
  {
    0 <= i < |steps| && Enabled(cfg, states[i], steps[i]) && states[i + 1] == Apply(cfg, states[i], steps[i])
  }

  ghost predicate IsRun(cfg: Router.Config, states: seq<Site>, steps: seq<Step>) {
    && |states| == |steps| + 1
    && Router.Inv(cfg, states[0].db) && states[0] == Site(states[0].db, None, map[], map[], map[])
    && forall i | 0 <= i < |steps| :: Took(cfg, states, steps, i)
  }

  lemma {:induction false} RunSound(cfg: Router.Config, states: seq<Site>, steps: seq<Step>, i: nat)
    requires IsRun(cfg, states, steps) && i <= |steps|
    ensures Inv(cfg, states[i])
    decreases i
  {
    if i > 0 {
      RunSound(cfg, states, steps, i - 1);
      assert Took(cfg, states, steps, i - 1);
      StepPreserves(cfg, states[i - 1], steps[i - 1]);
    }
  }

  ghost function CallsOf(site: Site, h: nat, b: string): set<nat> {
    set t | t in site.threads && t in site.home && site.home[t] == h && Threads.Counted(site.threads[t]) == Some(b)
  }

  /** Drain exclusion over every handle: while a drain action runs on any of them, no call on any of
      them that it must exclude is in contact with the backend, and each handle's counters are
      exactly the calls it has in progress. */
  lemma {:induction false} DrainExclusion(cfg: Router.Config, states: seq<Site>, steps: seq<Step>, i: nat, t: nat, u: nat, h: nat, b: string)
    requires IsRun(cfg, states, steps) && i <= |steps|
    requires t in states[i].threads && states[i].threads[t].Acting? && u in states[i].threads && h in states[i].handles
    ensures !Threads.Touches(states[i].threads[u], states[i].threads[t].c)
    ensures Threads.InFlight(Local(states[i], h), b) == |CallsOf(states[i], h, b)|
  {
    RunSound(cfg, states, steps, i);
    var site := states[i];
    var owner := site.home[t];
    Sees(cfg, site, owner);
    assert Settled(site, h);
    if h == owner {
      assert CallsOf(site, h, b) == Threads.CountedOn(site.threads, b);
    } else {
      assert CallsOf(site, h, b) == {};
    }
  }

  /** At most one handle is ever in contact with upstreams, and it cannot lose them while a call runs. */
  lemma {:induction false} OneHandleServes(cfg: Router.Config, states: seq<Site>, steps: seq<Step>, i: nat, t: nat, u: nat)
    requires IsRun(cfg, states, steps) && i <= |steps| && t in states[i].threads && u in states[i].threads
    ensures t in states[i].home && u in states[i].home && states[i].home[t] == states[i].home[u]
    ensures states[i].home[t] in states[i].handles && states[i].handles[states[i].home[t]].owns
  {
    RunSound(cfg, states, steps, i);
  }

  // ---------------------------------------------------------------- who gets to call

  /** A call is let in exactly on an open handle while no other handle owns the upstreams; it then runs
      there and the handle owns them. A refused call changes nothing. */
  lemma {:induction false} AdmittedExactly(cfg: Router.Config, site: Site, h: nat, t: nat, c: Router.Candidate)
    requires Enabled(cfg, site, Call(h, Threads.Arrive(t, c)))
    ensures var site' := Apply(cfg, site, Call(h, Threads.Arrive(t, c)));
            if !site.handles[h].closed && (site.handles[h].owns || forall g | g in site.handles && g != h :: !site.handles[g].owns)
            then && t in site'.threads && site'.threads[t] == Threads.Arriving(c) && site'.home == site.home[t := h] && h in site'.handles
                 && site'.handles[h].owns && site'.handles[h].upstreams == site.handles[h].upstreams + 1
                 && site'.db == site.db && site'.handles - {h} == site.handles - {h}
            else site' == site
  {
  }

  /** A closed handle gives up the upstreams once its last call has returned, and only then. */
  lemma {:induction false} ClosedOwnerReleases(cfg: Router.Config, site: Site, h: nat)
    requires Inv(cfg, site) && h in site.handles && site.handles[h].owns
    ensures var site' := Apply(cfg, site, Close(h));
            && h in site'.handles && site'.handles[h].closed
            && (site'.handles[h].owns <==> site.threads != map[])
            && site'.threads == site.threads && site'.db == site.db
            && (site.threads == map[] ==> forall g | g in site'.handles :: !site'.handles[g].owns)
  {
    assert Settled(site, h);
    assert |site.threads| == 0 <==> site.threads == map[];
  }
}
