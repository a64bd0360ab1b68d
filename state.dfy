/**
 * The state of a MySQL `Connection` as a value, and each of its operations
 * as a step from one state to the next. The driver (`sql.Open`, `db.Ping`,
 * `db.Close`) is replaced by the outcomes the caller supplies, and every
 * step reports the driver calls it made. A Go `panic` is a returned
 * `Panic`; the state at the moment of the panic is the state afterwards,
 * which is what a caller that recovers goes on using.
 */
module ConnectionState {
  import opened Wrappers
  import opened DataSourceName

  /** An opened `*sql.DB`, as an abstract token. */
  datatype Handle = Handle(id: nat)

  /** An error returned by the driver. */
  datatype DriverError = DriverError(text: string)

  /** The value a step panics with: the fixed configuration message, or a driver error. */
  datatype Panic = Message(text: string) | Raised(err: DriverError)

  const InvalidMysql: string := "invalid mysql"

  /** What the driver answers during one connect: `sql.Open`, then the first `db.Ping` (`None` is success). */
  datatype Driver = Driver(open: Result<Handle, DriverError>, probe: Option<DriverError>)

  /** A call into the driver. */
  datatype Call = Open(dsn: string) | Probe(h: Handle) | Close(h: Handle)

  datatype State = State(config: Config, db: Option<Handle>, connectionString: Option<string>)

  /** The state after a step, the driver calls it made in order, and its panic if it had one. */
  datatype Outcome = Outcome(state: State, calls: seq<Call>, panic: Option<Panic>)

  /** A connection string is at hand: cached already, or the configuration generates one. */
  predicate Usable(s: State) {
    s.connectionString.Some? || Complete(s.config)
  }

  /** `generateConnectionString`: validate, format, cache. */
  function GenerateStep(s: State): (o: Outcome)
    ensures o.calls == [] && o.state.config == s.config && o.state.db == s.db
    ensures o.panic.Some? <==> !Complete(s.config)
    ensures o.panic.Some? ==> o.state == s && o.panic == Some(Message(InvalidMysql))
    ensures o.panic.None? ==> o.state.connectionString == Some(Format(s.config))
  {
    match Generate(s.config)
    case None => Outcome(s, [], Some(Message(InvalidMysql)))
    case Some(dsn) => Outcome(s.(connectionString := Some(dsn)), [], None)
  }

  /** Generating again after a successful generation changes nothing. */
  lemma GenerateIdempotent(s: State)
    requires GenerateStep(s).panic.None?
    ensures var t := GenerateStep(s).state; GenerateStep(t) == Outcome(t, [], None)
  {
  }

  /**
   * `connect`: generate the string unless one is cached, open with it, probe
   * the new handle once, and keep it only when the probe succeeds; a handle
   * whose probe failed is closed.
   */
  function ConnectStep(s: State, d: Driver): (o: Outcome)
    ensures o.state.config == s.config
    ensures s.connectionString.Some? ==> o.state.connectionString == s.connectionString
    ensures s.connectionString.None? ==> o.state.connectionString == Generate(s.config)
    ensures o.panic.None? <==> Usable(s) && d.open.Ok? && d.probe.None?
    ensures o.panic.None? ==> o.state.db == Some(d.open.value)
    ensures o.panic.Some? ==> o.state.db == s.db
    ensures !Usable(s) ==> o.panic == Some(Message(InvalidMysql))
    ensures Usable(s) && d.open.Err? ==> o.panic == Some(Raised(d.open.error))
    ensures Usable(s) && d.open.Ok? && d.probe.Some? ==> o.panic == Some(Raised(d.probe.value))
    ensures Usable(s) && d.open.Ok? ==> |o.calls| >= 2 && o.calls[1] == Probe(d.open.value)
    ensures o.calls == [] <==> !Usable(s)
    ensures |o.calls| == if !Usable(s) then 0 else if d.open.Err? then 1 else if d.probe.None? then 2 else 3
    ensures Usable(s) ==> o.calls[0] == Open(o.state.connectionString.value)
    ensures forall i :: 0 < i < |o.calls| ==> !o.calls[i].Open?
    ensures forall h :: Close(h) in o.calls <==> Usable(s) && d.open == Ok(h) && d.probe.Some?
  {
    var g := if s.connectionString.None? then GenerateStep(s) else Outcome(s, [], None);
    if g.panic.Some? then g
    else
      var t := g.state;
      var dsn := t.connectionString.value;
      match d.open
      case Err(e) => Outcome(t, [Open(dsn)], Some(Raised(e)))
      case Ok(h) =>
        match d.probe
        case Some(e) => Outcome(t, [Open(dsn), Probe(h), Close(h)], Some(Raised(e)))
        case None => Outcome(t.(db := Some(h)), [Open(dsn), Probe(h)], None)
  }

  /** `Db`: connect when there is no handle, then return the handle. */
  function DbStep(s: State, d: Driver): (o: Outcome)
    ensures s.db.Some? ==> o == Outcome(s, [], None)
    ensures s.db.None? ==> o == ConnectStep(s, d)
    ensures o.panic.None? ==> o.state.db.Some?
    ensures o.panic.Some? ==> o.state.db == s.db
  {
    if s.db.None? then ConnectStep(s, d) else Outcome(s, [], None)
  }

  /** The handle `Db` returns, or the panic it raises. */
  function DbResult(o: Outcome): Result<Handle, Panic>
    requires o.panic.None? ==> o.state.db.Some?
  {
    if o.panic.Some? then Err(o.panic.value) else Ok(o.state.db.value)
  }

  /**
   * `Ping`: connect when there is no handle, then probe the handle; a failed
   * probe drops the handle and panics with the probe's error.
   */
  function PingStep(s: State, d: Driver, probe: Option<DriverError>): (o: Outcome)
    ensures o.state.config == s.config
    ensures o.state.connectionString == DbStep(s, d).state.connectionString
    ensures o.panic.None? <==> DbStep(s, d).panic.None? && probe.None?
    ensures o.panic.None? ==> o.state == DbStep(s, d).state
    ensures DbStep(s, d).panic.None? && probe.Some? ==>
              o.state.db == None && o.panic == Some(Raised(probe.value))
    ensures DbStep(s, d).panic.Some? ==> o == DbStep(s, d)
    ensures DbStep(s, d).panic.None? ==>
              o.calls == DbStep(s, d).calls + [Probe(DbStep(s, d).state.db.value)]
    ensures s.db.Some? ==> o.calls == [Probe(s.db.value)]
  {
    var c := DbStep(s, d);
    if c.panic.Some? then c
    else
      var h := c.state.db.value;
      match probe
      case None => Outcome(c.state, c.calls + [Probe(h)], None)
      case Some(e) => Outcome(c.state.(db := None), c.calls + [Probe(h)], Some(Raised(e)))
  }

  /** `SetDb`: replace the handle, nothing else. */
  function SetDbStep(s: State, h: Option<Handle>): (t: State)
    ensures t.db == h && t.config == s.config && t.connectionString == s.connectionString
  {
    s.(db := h)
  }

  /** A new `Connection` with its configuration set and nothing cached. */
  function Fresh(c: Config): State {
    State(c, None, None)
  }

  /**
   * An operation a caller performs on a `Connection`. The configuration
   * fields are exported, so a caller may also overwrite them at any time.
   */
  datatype Op =
    | DbOp(d: Driver)
    | PingOp(d: Driver, probe: Option<DriverError>)
    | SetDbOp(h: Option<Handle>)
    | SetConfigOp(c: Config)

  function Apply(s: State, op: Op): State {
    match op
    case DbOp(d) => DbStep(s, d).state
    case PingOp(d, probe) => PingStep(s, d, probe).state
    case SetDbOp(h) => SetDbStep(s, h)
    case SetConfigOp(c) => s.(config := c)
  }

  /** The configuration after a sequence of operations: the last one written, if any. */
  function FinalConfig(c: Config, ops: seq<Op>): Config
    decreases |ops|
  {
    if ops == [] then c
    else FinalConfig(if ops[0].SetConfigOp? then ops[0].c else c, ops[1..])
  }

  /** No operation of the sequence writes the configuration. */
  predicate KeepsConfig(ops: seq<Op>) {
    forall i :: 0 <= i < |ops| ==> !ops[i].SetConfigOp?
  }

  /** The state after a sequence of operations, each panic recovered by the caller. */
  function Run(s: State, ops: seq<Op>): State
    decreases |ops|
  {
    if ops == [] then s else Run(Apply(s, ops[0]), ops[1..])
  }

  /** The cached string is empty or is the one the configuration generates. */
  predicate Coherent(s: State) {
    s.connectionString.None? || s.connectionString == Generate(s.config)
  }

  /**
   * Every operation keeps a cached string. Only a configuration write changes
   * the configuration, and every other operation keeps the cache coherent.
   */
  lemma ApplyKeeps(s: State, op: Op)
    ensures Apply(s, op).config == if op.SetConfigOp? then op.c else s.config
    ensures s.connectionString.Some? ==> Apply(s, op).connectionString == s.connectionString
    ensures Coherent(s) && !op.SetConfigOp? ==> Coherent(Apply(s, op))
  {
  }

  /**
   * Once cached, the connection string never changes, whatever the caller
   * does, including overwriting the configuration.
   */
  lemma {:induction false} CachedStringKept(s: State, ops: seq<Op>)
    requires s.connectionString.Some?
    ensures Run(s, ops).connectionString == s.connectionString
    ensures Run(s, ops).config == FinalConfig(s.config, ops)
    decreases |ops|
  {
    if ops != [] {
      ApplyKeeps(s, ops[0]);
      CachedStringKept(Apply(s, ops[0]), ops[1..]);
    }
  }

  /**
   * As long as the configuration is not overwritten, any cached string is the
   * one the configuration generates.
   */
  lemma {:induction false} CachedStringGenerated(s: State, ops: seq<Op>)
    requires Coherent(s) && KeepsConfig(ops)
    ensures Coherent(Run(s, ops)) && Run(s, ops).config == s.config
    decreases |ops|
  {
    if ops != [] {
      assert !ops[0].SetConfigOp?;
      ApplyKeeps(s, ops[0]);
      CachedStringGenerated(Apply(s, ops[0]), ops[1..]);
    }
  }

  /**
   * Overwriting the configuration after the string is cached leaves the old
   * string in place: it is not regenerated for the new configuration.
   */
  lemma ConfigWriteLeavesStaleString(s: State, c: Config)
    requires s.connectionString.Some? && Complete(c) && s.connectionString != Some(Format(c))
    ensures Apply(s, SetConfigOp(c)).connectionString == s.connectionString
    ensures !Coherent(Apply(s, SetConfigOp(c)))
  {
  }

  /** After a `Db` that did not panic, the next `Db` calls nothing and returns the same handle. */
  lemma LazyConnect(s: State, d1: Driver, d2: Driver)
    requires DbStep(s, d1).panic.None?
    ensures var t := DbStep(s, d1).state;
            DbStep(t, d2) == Outcome(t, [], None) && DbResult(DbStep(t, d2)) == DbResult(DbStep(s, d1))
  {
  }

  /** On a connection without a handle, `Db` opens exactly once, with the cached or generated string. */
  lemma DbOpensOnce(s: State, d: Driver)
    requires s.db.None? && Usable(s)
    ensures var o := DbStep(s, d);
            o.calls[0] == Open(o.state.connectionString.value) &&
            forall i :: 0 < i < |o.calls| ==> !o.calls[i].Open?
  {
  }

  /**
   * After a failed `Ping` the handle is gone, the cached string stays, and
   * the next `Db` opens again, with that string when one was cached.
   */
  lemma PingFailureReconnects(s: State, d: Driver, e: DriverError, d2: Driver)
    requires DbStep(s, d).panic.None? && Usable(s)
    ensures var t := PingStep(s, d, Some(e)).state;
            t.db.None? && t.connectionString == DbStep(s, d).state.connectionString &&
            DbStep(t, d2).calls[0] == Open(DbStep(t, d2).state.connectionString.value) &&
            (t.connectionString.Some? ==> DbStep(t, d2).state.connectionString == t.connectionString)
  {
  }

  /** After `SetDb` with a handle, `Db` returns that handle and calls nothing. */
  lemma SetDbThenDb(s: State, h: Handle, d: Driver)
    ensures var t := SetDbStep(s, Some(h));
            DbStep(t, d).calls == [] && DbResult(DbStep(t, d)) == Ok(h)
  {
  }

  /** A handle whose first probe failed is never kept. */
  lemma FailedProbeNotKept(s: State, d: Driver, h: Handle, e: DriverError)
    requires s.db.None? && d == Driver(Ok(h), Some(e))
    ensures DbStep(s, d).state.db == None
    ensures Usable(s) ==> DbStep(s, d).calls == [Open(DbStep(s, d).state.connectionString.value), Probe(h), Close(h)]
  {
  }
}
