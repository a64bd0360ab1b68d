/**
 * The `Connection` struct and its methods, updating its two cached fields in
 * place. Each method is proved to leave the object in the state, and to make
 * the driver calls, that the matching step of `ConnectionState` describes.
 */
module MySql {
  import opened Wrappers
  import opened DataSourceName
  import opened ConnectionState

  class Connection {
    /** The pool handle, absent until a connect succeeds or `SetDb` injects one. */
    var db: Option<Handle>
    /** The connection string, absent until it is first generated. */
    var connectionString: Option<string>
    var user: string
    var password: string
    /** Go's `Method`: the transport, such as `tcp`. */
    var protocol: string
    var host: string
    var port: string
    var schema: string
    var query: Option<string>

    function Settings(): Config
      reads this
    {
      Config(user, password, protocol, host, port, schema, query)
    }

    /** The object's state as a value. */
    function Snapshot(): State
      reads this
    {
      State(Settings(), db, connectionString)
    }

    /** A connection configured by the caller, with no handle and no string yet. */
    constructor (c: Config)
      ensures Snapshot() == Fresh(c)
    {
      user, password, protocol := c.user, c.password, c.protocol;
      host, port, schema, query := c.host, c.port, c.schema, c.query;
      db, connectionString := None, None;
    }

    /** Returns the handle, connecting first when there is none. */
    method Db(d: Driver) returns (r: Result<Handle, Panic>, calls: seq<Call>)
      modifies this
      ensures var o := DbStep(old(Snapshot()), d);
              Snapshot() == o.state && calls == o.calls && r == DbResult(o)
    {
      calls := [];
      if db.None? {
        var p;
        p, calls := Connect(d);
        if p.Some? {
          return Err(p.value), calls;
        }
      }
      r := Ok(db.value);
    }

    /** Overrides the handle; the string and the configuration stay as they are. */
    method SetDb(h: Option<Handle>)
      modifies this
      ensures Snapshot() == SetDbStep(old(Snapshot()), h)
    {
      db := h;
    }

    /** Probes the handle, connecting first when there is none; a failed probe drops it. */
    method Ping(d: Driver, probe: Option<DriverError>) returns (p: Option<Panic>, calls: seq<Call>)
      modifies this
      ensures PingStep(old(Snapshot()), d, probe) == Outcome(Snapshot(), calls, p)
    {
      p, calls := None, [];
      if db.None? {
        p, calls := Connect(d);
        if p.Some? {
          return;
        }
      }
      calls := calls + [Probe(db.value)];
      if probe.Some? {
        db := None;
        p := Some(Raised(probe.value));
      }
    }

    /** Generates the string unless cached, opens, probes, and keeps the handle only if all succeed. */
    method Connect(d: Driver) returns (p: Option<Panic>, calls: seq<Call>)
      modifies this
      ensures ConnectStep(old(Snapshot()), d) == Outcome(Snapshot(), calls, p)
    {
      calls := [];
      if connectionString.None? {
        p := GenerateConnectionString();
        if p.Some? {
          return;
        }
      }
      var dsn := connectionString.value;
      calls := [Open(dsn)];
      match d.open {
        case Err(e) =>
          p := Some(Raised(e));
        case Ok(h) =>
          calls := calls + [Probe(h)];
          if d.probe.Some? {
            calls := calls + [Close(h)];
            p := Some(Raised(d.probe.value));
          } else {
            db := Some(h);
            p := None;
          }
      }
    }

    /** Validates the configuration and caches the formatted connection string. */
    method GenerateConnectionString() returns (p: Option<Panic>)
      modifies this
      ensures GenerateStep(old(Snapshot())) == Outcome(Snapshot(), [], p)
    {
      if user == "" || password == "" || (protocol == "" && host == "") || (port == "" && schema == "") {
        assert Rejected(Settings());
        return Some(Message(InvalidMysql));
      }
      assert !Rejected(Settings());
      var dsn := user + ":" + password + "@" + protocol + "(" + host + ":" + port + ")/" + schema;
      assert dsn == Base(Settings());
      if query.Some? {
        dsn := dsn + "?" + query.value;
        assert dsn == Base(Settings()) + ("?" + query.value);
      }
      assert dsn == Format(Settings());
      connectionString := Some(dsn);
      p := None;
    }
  }
}
