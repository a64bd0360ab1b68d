# MySQL connection handle, modelled in Dafny

This project models `Connection` from `mysql/connection.go`: a lazily
initialised handle to a MySQL connection pool. A connection holds its
configuration (user, password, transport method, host, port, schema and an
optional query), a cached connection string and an optional pool handle.

- `wrappers.dfy` (module `Wrappers`): `Option` and `Result`.
- `dsn.dfy` (module `DataSourceName`): the validity rule and the format
  `user:password@method(host:port)/schema[?query]` of
  `generateConnectionString`, as pure functions. It also has a parser, `Parse`,
  proved to be the format's inverse in both directions.
- `state.dfy` (module `ConnectionState`): the connection's state as a value,
  one step function per operation (`GenerateStep`, `ConnectStep`, `DbStep`,
  `PingStep`, `SetDbStep`), runs of operations, and lemmas about them.
- `connection.dfy` (module `MySql`): the class `Connection`, whose methods
  update `db` and `connectionString` in place. Each method is proved to match
  its step function.

The driver (`sql.Open`, `db.Ping`, `db.Close`) is replaced by outcomes the
caller supplies: a `Driver` value gives the result of the open and of the first
probe, and `Ping` takes the outcome of its own probe. Handles are abstract
tokens. Every operation returns the driver calls it made, in order
(`Open(dsn)`, `Probe(h)`, `Close(h)`). A Go `panic` is a returned `Panic`:
`Message("invalid mysql")` for a rejected configuration, `Raised(err)` for a
driver error. The state at the moment of the panic is the state afterwards.

The configuration fields are exported in Go, so a caller may overwrite them at
any time. Runs of operations include such writes (`SetConfigOp`). The cached
string is not regenerated after one.

The Go field `Method` is called `protocol` here, because `method` is a Dafny
keyword.

The validity rule follows the code as written. Go's `&&` binds tighter than
`||`, so generation fails exactly when the user is empty, the password is
empty, both method and host are empty, or both port and schema are empty. A
configuration with an empty method and a non-empty host is accepted. The
authors may have meant to require both method and host. The model keeps the
rule as the code writes it.

## Model

| member | source | states |
|---|---|---|
| `DataSourceName.Generate` | mysql/connection.go:83-98 | Generation fails exactly when the configuration lacks a user, a password, both method and host, or both port and schema. On success the string is the formatted configuration. |
| `DataSourceName.QuerySuffix` | mysql/connection.go:91-95 | Without a query the string is `user:password@method(host:port)/schema`. With a query it is that base string, then `?`, then the query. |
| `DataSourceName.ParseFormat` | mysql/connection.go:89-97 | The format is readable back: when no field holds the delimiter that ends it, parsing the generated string gives back every field and the query. |
| `DataSourceName.Parse` | mysql/connection.go:89-97 | Every string the parser accepts is exactly the format of the configuration it yields, and that configuration is delimited. |
| `DataSourceName.FormatInjective` | mysql/connection.go:91-95 | Two delimited configurations with the same connection string are equal. |
| `DataSourceName.EmptyProtocolAccepted` | mysql/connection.go:84-86 | An empty method with a non-empty host passes validation, because of Go's operator precedence. |
| `DataSourceName.SourceExample` | mysql/connection.go:89-95 | The example beside the format string: `root`, `password`, `tcp`, `127.0.0.1`, `3306`, `schema` and query `timeout=2s&parseTime=true` give `root:password@tcp(127.0.0.1:3306)/schema?timeout=2s&parseTime=true`. |
| `ConnectionState.GenerateStep` | mysql/connection.go:83-98 | Only the cached string changes. On an invalid configuration nothing changes and the panic is "invalid mysql"; otherwise the cached string is the formatted configuration. No driver call is made. |
| `ConnectionState.GenerateIdempotent` | mysql/connection.go:83-98 | Generating a second time after a successful generation changes nothing and panics with nothing. |
| `ConnectionState.ConnectStep` | mysql/connection.go:59-81 | A cached string is reused unchanged; a missing one is generated. It succeeds exactly when a string is at hand, open succeeds and the first probe succeeds, and only then is the handle assigned. On any failure the handle keeps its old value. The panic is "invalid mysql" when no string is at hand, the open error when open fails, and the probe error when the first probe fails. The calls are exactly: nothing when no string is at hand; one open, with the cached string, when open fails; open then one probe of the fresh handle on success; open, probe and close of that handle when the probe fails. A handle is closed exactly when it opened and its first probe failed. |
| `ConnectionState.DbStep` | mysql/connection.go:27-36 | With a handle present, nothing happens and no driver call is made. Without one, it connects. When it does not panic, a handle is present afterwards. |
| `ConnectionState.PingStep` | mysql/connection.go:45-57 | It connects first only when there is no handle; with a handle present, its only driver call is one probe of that handle. When the connect panics, the outcome is exactly that of `Db`. Otherwise the calls are those of `Db` followed by one probe of the handle `Db` left, new or old. A failed probe leaves no handle and panics with the probe's error. A successful probe leaves the state as connecting left it. The cached string is never touched by the probe. |
| `ConnectionState.SetDbStep` | mysql/connection.go:39-43 | The handle becomes the given one; the configuration and the cached string are unchanged. |
| `ConnectionState.ApplyKeeps` | mysql/connection.go:15-98 | Every operation keeps any cached string. Only a write to the exported configuration fields changes the configuration. Every other operation keeps the cache either empty or equal to the generated string. |
| `ConnectionState.CachedStringKept` | mysql/connection.go:63-65 | Once a string is cached, no sequence of `Db`, `Ping`, `SetDb` calls and configuration writes changes it, whether or not they panic. The configuration afterwards is the last one written. |
| `ConnectionState.CachedStringGenerated` | mysql/connection.go:63-65 | Over any sequence of operations that does not write the configuration, the cached string stays absent or equal to what the configuration generates. |
| `ConnectionState.ConfigWriteLeavesStaleString` | mysql/connection.go:63-65 | Overwriting the configuration after a string is cached keeps the old string, which then no longer matches the configuration. |
| `ConnectionState.LazyConnect` | mysql/connection.go:27-36 | After a `Db` that did not panic, the next `Db` makes no driver call, changes nothing and returns the same handle. |
| `ConnectionState.DbOpensOnce` | mysql/connection.go:27-36 | On a connection without a handle whose string is at hand, `Db` opens exactly once, first, with the connection's string. |
| `ConnectionState.PingFailureReconnects` | mysql/connection.go:45-57 | After a failed probe in `Ping`, the handle is absent and the cached string is unchanged. When a string is at hand (cached, or the configuration is complete), the next `Db` opens again, with that cached string when there is one. |
| `ConnectionState.SetDbThenDb` | mysql/connection.go:27-43 | After `SetDb` with a handle, `Db` returns that handle and makes no driver call. |
| `ConnectionState.FailedProbeNotKept` | mysql/connection.go:67-80 | When the fresh handle's first probe fails, the connection still has no handle. The calls are open, probe, then close of that handle. |
| `MySql.Connection.constructor` | mysql/connection.go:11-24 | A new connection holds the given configuration, no handle and no cached string. |
| `MySql.Connection.Db` | mysql/connection.go:27-36 | The new state, the driver calls and the returned handle or panic are those of `DbStep`. |
| `MySql.Connection.SetDb` | mysql/connection.go:39-43 | The new state is the old one with only the handle replaced. |
| `MySql.Connection.Ping` | mysql/connection.go:45-57 | The new state, the driver calls and the panic are those of `PingStep`. |
| `MySql.Connection.Connect` | mysql/connection.go:59-81 | The new state, the driver calls and the panic are those of `ConnectStep`. |
| `MySql.Connection.GenerateConnectionString` | mysql/connection.go:83-98 | The new state and the panic are those of `GenerateStep`. |

## Left out

- The reader/writer lock and every `Lock`, `RLock` and `Unlock` are not modelled. The operations run one at a time. So the model does not cover the check-then-lock window in `Db` and `Ping`, or the handle cleared under a read lock in `Ping`.
- The real driver is not modelled. `sql.Open`, `db.Ping` and `db.Close` are outcomes supplied by the caller. The open outcome does not depend on the string's contents; the model records only that open was called with that string.
- The error from closing a handle whose first probe failed is only logged by the Go code. The model records the close call and leaves out the log line.
- A panic is modelled as a returned value, not as unwinding. A caller that recovers sees the state the model returns.
- The JSON struct tags are serialisation metadata and are not modelled.
- `Parse` is this model's inverse of the format. It is not the driver's DSN parser, and it reads back only configurations whose fields do not contain their closing delimiter.
