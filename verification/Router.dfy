/** The durable routing record (internal/noderouter/router.go and retirement.go).

    Each transaction is a function of the database; `Store` is the imperative form. */
module Router {
  import opened Common

  datatype Candidate = Candidate(
    project: string, runtime: string, deployment: string, op: string,
    revision: int, artifact: string, backend: string)

  /** The zero candidate a fresh database starts from. */
  const NOTHING := Candidate("", "", "", "", 0, "", "")

  datatype Status = Unset | Pending | Active | Failed

  datatype Route = Route(fence: Candidate, status: Status, active: Option<Candidate>)

  /** The route and the permanent tombstones, keyed by operation. */
  datatype Db = Db(route: Route, retired: map<string, Candidate>)

  /** Operator-pinned listeners: backend name to loopback port. */
  datatype Config = Config(project: string, runtime: string, backends: map<string, int>)

  const EMPTY := Db(Route(NOTHING, Unset, None), map[])

  predicate ValidConfig(c: Config) {
    && Digest(c.project) && Digest(c.runtime)
    && 1 <= |c.backends| <= 16
    && (forall b | b in c.backends :: 1 <= |b| <= 64 && 1 <= c.backends[b] <= 65535)
    && (forall b, d | b in c.backends && d in c.backends && b != d :: c.backends[b] != c.backends[d])
  }

  predicate Valid(cfg: Config, c: Candidate) {
    && c.project == cfg.project && c.runtime == cfg.runtime && c.revision > 0
    && Digest(c.deployment) && Digest(c.op) && Digest(c.artifact)
    && c.backend in cfg.backends
  }

  /** How `Activate` goes on after its first transaction. */
  datatype Next = AlreadyActive | Probe

  /** The first transaction of `Activate`: the fence that precedes probing. */
  function BeginTx(cfg: Config, db: Db, c: Candidate): Tx<Db, Next> {
    if !Valid(cfg, c) then Tx(db, Err(ErrInvalid))
    else if c.op in db.retired then Tx(db, Err(ErrRetired))
    else if c.revision < db.route.fence.revision then Tx(db, Err(ErrStale))
    else if c.revision == db.route.fence.revision then
      if c != db.route.fence then Tx(db, Err(ErrConflict))
      else if db.route.status == Active then Tx(db, Ok(AlreadyActive))
      else if db.route.status == Failed then Tx(db, Err(ErrUnhealthy))
      else Tx(db, Ok(Probe))
    else if db.route.active.Some? && db.route.active.value.backend == c.backend
            && db.route.active.value.artifact != c.artifact then Tx(db, Err(ErrConflict))
    else Tx(db.(route := db.route.(fence := c, status := Pending)), Ok(Probe))
  }

  /** The second transaction of `Activate`, after the probe answered. */
  function CommitTx(db: Db, c: Candidate, healthy: bool): Tx<Db, ()> {
    if c.op in db.retired then Tx(db, Err(ErrRetired))
    else if db.route.fence != c then Tx(db, Err(ErrStale))
    else if db.route.status == Active then Tx(db, Ok(()))
    else if db.route.status == Failed then Tx(db, Err(ErrUnhealthy))
    else if healthy then Tx(db.(route := db.route.(status := Active, active := Some(c))), Ok(()))
    else Tx(db.(route := db.route.(status := Failed)), Err(ErrUnhealthy))
  }

  /** The live route still uses this operation or its listener. */
  predicate InUse(db: Db, c: Candidate) {
    db.route.active.Some? && (db.route.active.value.op == c.op || db.route.active.value.backend == c.backend)
  }

  /** `FenceRetirement`. */
  function FenceTx(cfg: Config, db: Db, c: Candidate): Tx<Db, ()> {
    if !Valid(cfg, c) then Tx(db, Err(ErrInvalid))
    else if c.op in db.retired then Tx(db, if db.retired[c.op] == c then Ok(()) else Err(ErrConflict))
    else if InUse(db, c) then Tx(db, Err(ErrConflict))
    else if db.route.fence.op == c.op && db.route.fence != c then Tx(db, Err(ErrConflict))
    else
      var route := if db.route.fence == c && db.route.status == Pending then db.route.(status := Failed) else db.route;
      Tx(Db(route, db.retired[c.op := c]), Ok(()))
  }

  /** The second transaction of `RejectActivation`, after its fence. */
  function RejectTx(db: Db, c: Candidate): Tx<Db, ()> {
    var fence := db.route.fence;
    if fence.revision > c.revision || (fence.revision == c.revision && fence != c) then Tx(db, Err(ErrConflict))
    else if InUse(db, c) then Tx(db, Err(ErrConflict))
    else Tx(db.(route := db.route.(fence := c, status := Failed)), Ok(()))
  }

  /** The checks `WithDrainedBackend` makes under its write guard. */
  predicate Drainable(db: Db, c: Candidate) {
    && c.op in db.retired && db.retired[c.op] == c
    && !(db.route.active.Some? && db.route.active.value.backend == c.backend)
    && !(db.route.status == Pending && db.route.fence.backend == c.backend)
  }

  // ---------------------------------------------------------------- invariant

  /** Status, fence and live candidate tell one story. */
  predicate Coherent(r: Route) {
    && r.fence.revision >= 0
    && (r.fence.revision == 0 <==> r.status == Unset)
    && (r.status == Unset ==> r.fence == NOTHING && r.active.None?)
    && (r.status == Active <==> r.active == Some(r.fence))
    && (r.status == Pending || r.status == Failed ==>
          r.active.None? || r.active.value.revision < r.fence.revision)
  }

  /** What is stored was validated first. */
  ghost predicate Validated(cfg: Config, db: Db) {
    && (db.route.status != Unset ==> Valid(cfg, db.route.fence))
    && (db.route.active.Some? ==> Valid(cfg, db.route.active.value))
    && (forall op | op in db.retired :: db.retired[op].op == op && Valid(cfg, db.retired[op]))
  }

  /** A retired operation neither serves nor waits for its probe. */
  predicate Fenced(db: Db) {
    && (db.route.active.Some? ==> db.route.active.value.op !in db.retired)
    && (db.route.status == Pending ==> db.route.fence.op !in db.retired)
  }

  ghost predicate Inv(cfg: Config, db: Db) {
    Coherent(db.route) && Validated(cfg, db) && Fenced(db)
  }

  /** Between two states of one database: the fence never goes back nor changes at a revision,
      tombstones are permanent, and the live candidate is only replaced by a newer one. */
  ghost predicate Advances(db: Db, db': Db) {
    && db.route.fence.revision <= db'.route.fence.revision
    && (db.route.fence.revision == db'.route.fence.revision ==> db.route.fence == db'.route.fence)
    && (forall op | op in db.retired :: op in db'.retired && db'.retired[op] == db.retired[op])
    && (db.route.active.Some? ==>
          && db'.route.active.Some?
          && db.route.active.value.revision <= db'.route.active.value.revision
          && (db.route.active.value.revision == db'.route.active.value.revision ==> db.route.active == db'.route.active))
  }

  lemma {:induction false} AdvancesTransitive(a: Db, b: Db, c: Db)
    requires Advances(a, b) && Advances(b, c)
    ensures Advances(a, c)
  {
  }

  lemma {:induction false} BeginPreserves(cfg: Config, db: Db, c: Candidate)
    requires Inv(cfg, db)
    ensures Inv(cfg, BeginTx(cfg, db, c).state) && Advances(db, BeginTx(cfg, db, c).state)
  {
  }

  lemma {:induction false} CommitPreserves(cfg: Config, db: Db, c: Candidate, healthy: bool)
    requires Inv(cfg, db) && Valid(cfg, c)
    ensures Inv(cfg, CommitTx(db, c, healthy).state) && Advances(db, CommitTx(db, c, healthy).state)
  {
  }

  lemma {:induction false} FencePreserves(cfg: Config, db: Db, c: Candidate)
    requires Inv(cfg, db)
    ensures Inv(cfg, FenceTx(cfg, db, c).state) && Advances(db, FenceTx(cfg, db, c).state)
  {
    var db' := FenceTx(cfg, db, c).state;
    assert Coherent(db'.route) && Fenced(db');
    if db' != db {
      TombstoneValidated(cfg, db, c);
    }
  }

  lemma {:induction false} TombstoneValidated(cfg: Config, db: Db, c: Candidate)
    requires Validated(cfg, db) && Valid(cfg, c)
    ensures Validated(cfg, db.(retired := db.retired[c.op := c]))
  {
  }

  lemma {:induction false} RejectPreserves(cfg: Config, db: Db, c: Candidate)
    requires Inv(cfg, db) && c.op in db.retired && db.retired[c.op] == c
    ensures Inv(cfg, RejectTx(db, c).state) && Advances(db, RejectTx(db, c).state)
  {
  }

  // ---------------------------------------------------------------- imperative form

  /** The name of the listener pinned to a port. */
  function BackendForPort(cfg: Config, port: int): Option<string>
    requires ValidConfig(cfg)
  {
    if exists b | b in cfg.backends :: cfg.backends[b] == port
    then var b :| b in cfg.backends && cfg.backends[b] == port; Some(b)
    else None
  }

  class Store {
    const config: Config
    var route: Route
    var retired: map<string, Candidate>

    constructor (c: Config)
      ensures config == c && View() == EMPTY
    {
      config := c;
      route := Route(NOTHING, Unset, None);
      retired := map[];
    }

    function View(): Db
      reads this
    {
      Db(route, retired)
    }

    method ActivateBegin(c: Candidate) returns (result: Result<Next>)
      modifies this
      ensures Tx(View(), result) == BeginTx(config, old(View()), c)
      ensures !Valid(config, c) ==> result == Err(ErrInvalid)
      ensures Valid(config, c) && c.op in retired ==> result == Err(ErrRetired)
      ensures Valid(config, c) && c.op !in retired && c.revision < old(route).fence.revision ==> result == Err(ErrStale)
      ensures Valid(config, c) && c.op !in retired && c.revision == old(route).fence.revision ==>
                result == if c != old(route).fence then Err(ErrConflict)
                          else if old(route).status == Active then Ok(AlreadyActive)
                          else if old(route).status == Failed then Err(ErrUnhealthy) else Ok(Probe)
      ensures Valid(config, c) && c.op !in retired && c.revision > old(route).fence.revision ==>
                result == if route.active.Some? && route.active.value.backend == c.backend && route.active.value.artifact != c.artifact
                          then Err(ErrConflict) else Ok(Probe)
      ensures retired == old(retired) && route.active == old(route).active
      ensures if result == Ok(Probe) then route.fence == c && (old(route).fence == c || route.status == Pending) else route == old(route)
    {
      if !Valid(config, c) { return Err(ErrInvalid); }
      if c.op in retired { return Err(ErrRetired); }
      if c.revision < route.fence.revision { return Err(ErrStale); }
      if c.revision == route.fence.revision {
        if c != route.fence { return Err(ErrConflict); }
        if route.status == Active { return Ok(AlreadyActive); }
        if route.status == Failed { return Err(ErrUnhealthy); }
      } else {
        if route.active.Some? && route.active.value.backend == c.backend && route.active.value.artifact != c.artifact {
          return Err(ErrConflict);
        }
        route := route.(fence := c, status := Pending);
      }
      return Ok(Probe);
    }

    method ActivateCommit(c: Candidate, healthy: bool) returns (result: Result<()>)
      modifies this
      ensures Tx(View(), result) == CommitTx(old(View()), c, healthy)
      ensures c.op in retired ==> result == Err(ErrRetired) && route == old(route)
      ensures c.op !in retired && old(route).fence != c ==> result == Err(ErrStale) && route == old(route)
      ensures c.op !in retired && old(route).fence == c && old(route).status != Active && old(route).status != Failed ==>
                if healthy then result == Ok(()) && route == Route(c, Active, Some(c))
                else result == Err(ErrUnhealthy) && route == Route(c, Failed, old(route).active)
      ensures c.op !in retired && old(route).fence == c && (old(route).status == Active || old(route).status == Failed) ==>
                route == old(route) && result == if old(route).status == Active then Ok(()) else Err(ErrUnhealthy)
      ensures retired == old(retired)
    {
      if c.op in retired { return Err(ErrRetired); }
      if route.fence != c { return Err(ErrStale); }
      if route.status == Active { return Ok(()); }
      if route.status == Failed { return Err(ErrUnhealthy); }
      route := route.(status := Failed);
      if healthy { route := route.(status := Active, active := Some(c)); }
      return if healthy then Ok(()) else Err(ErrUnhealthy);
    }

    method FenceRetirement(c: Candidate) returns (result: Result<()>)
      modifies this
      ensures Tx(View(), result) == FenceTx(config, old(View()), c)
      ensures result.Ok? <==>
                && Valid(config, c)
                && (if c.op in old(retired) then old(retired)[c.op] == c
                    else
                      && (old(route).active.Some? ==> old(route).active.value.op != c.op && old(route).active.value.backend != c.backend)
                      && (old(route).fence.op == c.op ==> old(route).fence == c))
      ensures retired == if result.Ok? then old(retired)[c.op := c] else old(retired)
      ensures route == if result.Ok? && c.op !in old(retired) && old(route).fence == c && old(route).status == Pending
                       then old(route).(status := Failed) else old(route)
    {
      if !Valid(config, c) { return Err(ErrInvalid); }
      if c.op in retired {
        return if retired[c.op] == c then Ok(()) else Err(ErrConflict);
      }
      if route.active.Some? && (route.active.value.op == c.op || route.active.value.backend == c.backend) {
        return Err(ErrConflict);
      }
      if route.fence.op == c.op && route.fence != c { return Err(ErrConflict); }
      if route.fence == c && route.status == Pending { route := route.(status := Failed); }
      retired := retired[c.op := c];
      return Ok(());
    }

    /** The port pinned to a valid candidate's listener. */
    method BackendPort(c: Candidate) returns (result: Result<int>)
      ensures result.Ok? <==> Valid(config, c)
      ensures result.Ok? <==>
                && c.project == config.project && c.runtime == config.runtime && c.revision > 0
                && Digest(c.deployment) && Digest(c.op) && Digest(c.artifact) && c.backend in config.backends
      ensures result.Ok? ==> c.backend in config.backends && result.value == config.backends[c.backend]
    {
      if !Valid(config, c) { return Err(ErrInvalid); }
      return Ok(config.backends[c.backend]);
    }

    /** What `WithDrainedBackend` checks under its write guard. */
    method CheckDrainable(c: Candidate) returns (result: Result<()>)
      ensures result.Ok? <==> Drainable(View(), c)
      ensures result.Ok? <==>
                && c.op in retired && retired[c.op] == c
                && (route.active.Some? ==> route.active.value.backend != c.backend)
                && (route.status == Pending ==> route.fence.backend != c.backend)
      ensures result.Err? ==> result.error == ErrNotFound || result.error == ErrConflict
    {
      if c.op !in retired { return Err(ErrNotFound); }
      if retired[c.op] != c { return Err(ErrConflict); }
      if (route.active.Some? && route.active.value.backend == c.backend)
         || (route.status == Pending && route.fence.backend == c.backend) {
        return Err(ErrConflict);
      }
      return Ok(());
    }

    /** The second transaction of `RejectActivation`. */
    method PublishFailed(c: Candidate) returns (result: Result<()>)
      modifies this
      ensures Tx(View(), result) == RejectTx(old(View()), c)
      ensures result.Ok? <==>
                && (old(route).fence.revision < c.revision || old(route).fence == c)
                && (old(route).active.Some? ==> old(route).active.value.op != c.op && old(route).active.value.backend != c.backend)
      ensures View() == if result.Ok? then Db(Route(c, Failed, old(route).active), old(retired)) else old(View())
    {
      if route.fence.revision > c.revision || (route.fence.revision == c.revision && route.fence != c) {
        return Err(ErrConflict);
      }
      if route.active.Some? && (route.active.value.op == c.op || route.active.value.backend == c.backend) {
        return Err(ErrConflict);
      }
      route := route.(fence := c, status := Failed);
      return Ok(());
    }
  }

  // ---------------------------------------------------------------- observations

  /** The parts of a runtime observation that `validObservation` looks at. */
  datatype ObservationFacts = ObservationFacts(routing: Route, toolchain: string, arch: string, settled: bool)

  /** `validCandidate` of the management API. */
  predicate ApiCandidate(c: Candidate, project: string, runtime: string) {
    && c.project == project && c.runtime == runtime
    && Digest(c.deployment) && Digest(c.op) && Digest(c.artifact)
    && c.revision > 0 && 0 < |c.backend| <= 64
  }

  /** `validObservation` of the management API. */
  predicate ValidObservation(o: ObservationFacts, project: string, runtime: string, op: string) {
    var r := o.routing;
    if !ApiCandidate(r.fence, project, runtime) || r.fence.op != op || !Digest(o.toolchain) || !Architecture(o.arch) then false
    else if r.active.Some? && (!ApiCandidate(r.active.value, project, runtime) || r.active.value.revision > r.fence.revision) then false
    else match r.status
      case Active => r.active.Some? && r.active.value == r.fence
      case Pending => (r.active.None? || r.active.value.revision < r.fence.revision) && !o.settled
      case Failed => r.active.None? || r.active.value.revision < r.fence.revision
      case Unset => false
  }

  /** Whatever the API accepts names the operation it was asked about, a complete candidate of this
      runtime, and a live candidate that its status allows. */
  lemma {:induction false} AcceptedReport(o: ObservationFacts, project: string, runtime: string, op: string)
    requires ValidObservation(o, project, runtime, op)
    ensures Digest(o.toolchain) && Architecture(o.arch) && o.routing.fence.op == op
    ensures Candidacy(o.routing.fence, project, runtime) && (o.routing.active.Some? ==> Candidacy(o.routing.active.value, project, runtime))
    ensures o.routing.status == Active <==> o.routing.active == Some(o.routing.fence)
    ensures o.routing.status != Unset && (o.routing.status == Pending ==> !o.settled)
    ensures o.routing.active.Some? && o.routing.status != Active ==> o.routing.active.value.revision < o.routing.fence.revision
  {
  }

  /** A complete candidate of one runtime. */
  ghost predicate Candidacy(c: Candidate, project: string, runtime: string) {
    && c.project == project && c.runtime == runtime && c.revision > 0 && 0 < |c.backend| <= 64
    && Digest(c.deployment) && Digest(c.op) && Digest(c.artifact)
  }

  /** A report on the fenced operation of any sound database is one the API accepts, provided a
      pending operation is never called settled. */
  lemma {:induction false} SoundRouteIsReportable(cfg: Config, db: Db, o: ObservationFacts, op: string)
    requires ValidConfig(cfg) && Inv(cfg, db)
    requires o.routing == db.route && db.route.fence.op == op && db.route.status != Unset
    requires Digest(o.toolchain) && Architecture(o.arch)
    requires o.settled ==> db.route.status != Pending
    ensures ValidObservation(o, cfg.project, cfg.runtime, op)
  {
  }
}
