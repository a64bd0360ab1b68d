/**
 * The connection string of a MySQL `Connection`: the validity rule that
 * `generateConnectionString` applies to the configuration, the format it
 * writes, `user:password@method(host:port)/schema[?query]`, and a parser
 * that is the format's inverse on configurations whose fields do not contain
 * the delimiter that ends them.
 */
module DataSourceName {
  import opened Wrappers

  /** The exported configuration fields of a `Connection`. `protocol` is Go's `Method`. */
  datatype Config = Config(
    user: string,
    password: string,
    protocol: string,
    host: string,
    port: string,
    schema: string,
    query: Option<string>)

  /**
   * The rejection test as the Go code writes it. Go's `&&` binds tighter than
   * `||` (the parentheses here are the ones Go implies), so a missing protocol is rejected only together with a
   * missing host, and a missing port only together with a missing schema.
   */
  predicate Rejected(c: Config) {
    c.user == "" || c.password == "" || (c.protocol == "" && c.host == "") ||
    (c.port == "" && c.schema == "")
  }

  /**
   * What generation needs, stated positively: a user, a password, a method
   * or a host, and a port or a schema.
   */
  predicate Complete(c: Config) {
    c.user != "" && c.password != "" && (c.protocol != "" || c.host != "") &&
    (c.port != "" || c.schema != "")
  }

  /** The part that is always written: `user:password@method(host:port)/schema`. */
  function Base(c: Config): string {
    c.user + ":" + c.password + "@" + c.protocol + "(" + c.host + ":" + c.port + ")/" + c.schema
  }

  /** What follows the schema: `?query` when a query is set, nothing otherwise. */
  function Suffix(query: Option<string>): string {
    match query
    case None => ""
    case Some(q) => "?" + q
  }

  /** The connection string written for a configuration. */
  function Format(c: Config): string {
    Base(c) + Suffix(c.query)
  }

  /**
   * `generateConnectionString` as a value: `None` where the Go code panics
   * with "invalid mysql", the formatted string otherwise.
   */
  function Generate(c: Config): (r: Option<string>)
    ensures r.None? <==> !Complete(c)
    ensures r.Some? ==> r.value == Format(c)
  {
    if Rejected(c) then None else Some(Format(c))
  }

  /** A query suffix is appended to the base string and nothing else changes. */
  lemma QuerySuffix(c: Config, q: string)
    ensures Format(c.(query := Some(q))) == Format(c.(query := None)) + "?" + q
    ensures Format(c.(query := None)) == Base(c)
  {
  }

  /** Each field is free of the delimiter written right after it. */
  predicate Delimited(c: Config) {
    ':' !in c.user && '@' !in c.password && '(' !in c.protocol &&
    ':' !in c.host && ')' !in c.port && '?' !in c.schema
  }

  /** The position of the first `d` in `s`, or `|s|` when `d` does not occur. */
  function Find(s: string, d: char): (i: nat)
    ensures i <= |s|
    ensures i < |s| ==> s[i] == d
    ensures forall k :: 0 <= k < i ==> s[k] != d
  {
    if s == [] || s[0] == d then 0 else 1 + Find(s[1..], d)
  }

  /** Splits `s` at its first `d` into what comes before and what comes after. */
  function Cut(s: string, d: char): (r: Option<(string, string)>)
    ensures r.None? <==> d !in s
    ensures r.Some? ==> s == r.value.0 + [d] + r.value.1 && d !in r.value.0
  {
    var i := Find(s, d);
    if i == |s| then None
    else
      assert s == s[..i] + [d] + s[i + 1..];
      Some((s[..i], s[i + 1..]))
  }

  /** Cutting a joined string at a delimiter that its left part lacks gives the parts back. */
  lemma CutJoin(a: string, d: char, b: string)
    requires d !in a
    ensures Cut(a + [d] + b, d) == Some((a, b))
  {
    var s := a + [d] + b;
    assert s[|a|] == d;
    var i := Find(s, d);
    assert i == |a|;
    assert s[..i] == a && s[i + 1..] == b;
  }

  /** Parts written one after another, each followed by its delimiter. */
  function Joined(parts: seq<string>, delims: string): string
    requires |parts| == |delims|
  {
    if parts == [] then "" else parts[0] + [delims[0]] + Joined(parts[1..], delims[1..])
  }

  /** No part contains the delimiter that follows it. */
  predicate Free(parts: seq<string>, delims: string)
    requires |parts| == |delims|
  {
    parts == [] || (delims[0] !in parts[0] && Free(parts[1..], delims[1..]))
  }

  /** Joining a first part and the rest, followed by a tail. */
  lemma JoinedCons(part: string, parts: seq<string>, delims: string, tail: string)
    requires |parts| + 1 == |delims|
    ensures Joined([part] + parts, delims) + tail
         == part + [delims[0]] + (Joined(parts, delims[1..]) + tail)
    ensures Free([part] + parts, delims) <==> delims[0] !in part && Free(parts, delims[1..])
  {
    assert ([part] + parts)[0] == part && ([part] + parts)[1..] == parts;
  }

  /**
   * Reads one part per delimiter off the front of `s`, each part ending at the
   * first occurrence of its delimiter, and returns the parts and what is left.
   */
  function Fields(s: string, delims: string): (r: Option<(seq<string>, string)>)
    ensures r.Some? ==> |r.value.0| == |delims|
    ensures r.Some? ==> Joined(r.value.0, delims) + r.value.1 == s && Free(r.value.0, delims)
    decreases |delims|
  {
    if delims == [] then Some(([], s))
    else
      var c := Cut(s, delims[0]);
      if c.None? then None
      else
        var f := Fields(c.value.1, delims[1..]);
        if f.None? then None
        else
          JoinedCons(c.value.0, f.value.0, delims, f.value.1);
          Some(([c.value.0] + f.value.0, f.value.1))
  }

  /** `Fields` reads the first part, then the others from what follows its delimiter. */
  lemma FieldsStep(s: string, delims: string, part: string, rest: string, parts: seq<string>, tail: string)
    requires delims != [] && Cut(s, delims[0]) == Some((part, rest))
    requires Fields(rest, delims[1..]) == Some((parts, tail))
    ensures Fields(s, delims) == Some(([part] + parts, tail))
  {
  }

  /** Reading the parts back off a joined string gives them back. */
  lemma {:induction false} FieldsJoined(parts: seq<string>, delims: string, tail: string)
    requires |parts| == |delims| && Free(parts, delims)
    ensures Fields(Joined(parts, delims) + tail, delims) == Some((parts, tail))
  {
    if parts == [] {
      assert Joined(parts, delims) + tail == tail;
    } else {
      var rest := Joined(parts[1..], delims[1..]) + tail;
      var s := Joined(parts, delims) + tail;
      assert s == parts[0] + [delims[0]] + rest;
      CutJoin(parts[0], delims[0], rest);
      FieldsJoined(parts[1..], delims[1..], tail);
      FieldsStep(s, delims, parts[0], rest, parts[1..], tail);
      assert [parts[0]] + parts[1..] == parts;
    }
  }

  /** The delimiters that end user, password, protocol, host and port. */
  const Delims: string := ":@(:)"

  function Parts(c: Config): seq<string> {
    [c.user, c.password, c.protocol, c.host, c.port]
  }

  lemma BaseJoined(c: Config)
    ensures Base(c) == Joined(Parts(c), Delims) + "/" + c.schema
  {
    var ps := Parts(c);
    assert ps[1..] == [c.password, c.protocol, c.host, c.port];
    assert ps[2..] == [c.protocol, c.host, c.port];
    assert ps[3..] == [c.host, c.port];
    assert ps[4..] == [c.port];
    assert ps[5..] == [];
    assert Delims[1..] == "@(:)" && Delims[2..] == "(:)" && Delims[3..] == ":)" && Delims[4..] == ")";
    var j4 := c.port + ")";
    assert Joined(ps[4..], Delims[4..]) == j4;
    var j3 := c.host + ":" + j4;
    assert Joined(ps[3..], Delims[3..]) == j3;
    var j2 := c.protocol + "(" + j3;
    assert Joined(ps[2..], Delims[2..]) == j2;
    var j1 := c.password + "@" + j2;
    assert Joined(ps[1..], Delims[1..]) == j1;
    var j0 := c.user + ":" + j1;
    assert Joined(ps, Delims) == j0;
  }

  /** Being delimited is being free of the delimiters, field by field. */
  lemma DelimitedFree(c: Config)
    ensures Delimited(c) <==> '?' !in c.schema && Free(Parts(c), Delims)
  {
    var ps := Parts(c);
    assert ps[1..] == [c.password, c.protocol, c.host, c.port];
    assert ps[2..] == [c.protocol, c.host, c.port];
    assert ps[3..] == [c.host, c.port];
    assert ps[4..] == [c.port];
    assert Delims[1..] == "@(:)" && Delims[2..] == "(:)" && Delims[3..] == ":)" && Delims[4..] == ")";
    assert Free(ps[4..], Delims[4..]) <==> ')' !in c.port;
    assert Free(ps[3..], Delims[3..]) <==> ':' !in c.host && Free(ps[4..], Delims[4..]);
    assert Free(ps[2..], Delims[2..]) <==> '(' !in c.protocol && Free(ps[3..], Delims[3..]);
    assert Free(ps[1..], Delims[1..]) <==> '@' !in c.password && Free(ps[2..], Delims[2..]);
    assert Free(ps, Delims) <==> ':' !in c.user && Free(ps[1..], Delims[1..]);
  }

  /** The connection string is the joined parts, then `/`, the schema and the suffix. */
  lemma FormatJoined(c: Config)
    ensures Format(c) == Joined(Parts(c), Delims) + ("/" + (c.schema + Suffix(c.query)))
  {
    BaseJoined(c);
  }

  /** Splits what follows `/` into the schema and the query after the first `?`. */
  function SchemaQuery(t: string): (r: (string, Option<string>))
    ensures r.0 + Suffix(r.1) == t && '?' !in r.0
  {
    match Cut(t, '?')
    case None => (t, None)
    case Some((schema, q)) => (schema, Some(q))
  }

  /** The configuration read from the parts and from what follows them. */
  function Assemble(ps: seq<string>, rest: string): Config
    requires |ps| == 5 && rest != []
  {
    var sq := SchemaQuery(rest[1..]);
    Config(ps[0], ps[1], ps[2], ps[3], ps[4], sq.0, sq.1)
  }

  /** A configuration assembled from parts that `Fields` read is delimited and formats back. */
  lemma AssembleFormats(s: string, ps: seq<string>, rest: string)
    requires |ps| == 5 && Joined(ps, Delims) + rest == s && Free(ps, Delims)
    requires rest != [] && rest[0] == '/'
    ensures Delimited(Assemble(ps, rest)) && Format(Assemble(ps, rest)) == s
  {
    var c := Assemble(ps, rest);
    assert ps == Parts(c);
    DelimitedFree(c);
    FormatJoined(c);
    assert rest == "/" + rest[1..];
  }

  /**
   * Reads a connection string back into a configuration. Whatever it accepts
   * is delimited and formats back to the string it came from.
   */
  function Parse(s: string): (r: Option<Config>)
    ensures r.Some? ==> Delimited(r.value) && Format(r.value) == s
  {
    match Fields(s, Delims)
    case None => None
    case Some((ps, rest)) =>
      if rest == [] || rest[0] != '/' then None
      else
        AssembleFormats(s, ps, rest);
        Some(Assemble(ps, rest))
  }

  /** The schema and query are read back from what follows `/`. */
  lemma SchemaQuerySuffix(schema: string, query: Option<string>)
    requires '?' !in schema
    ensures SchemaQuery(schema + Suffix(query)) == (schema, query)
  {
    match query
    case None =>
      assert schema + Suffix(query) == schema;
    case Some(q) =>
      assert schema + Suffix(query) == schema + ['?'] + q;
      CutJoin(schema, '?', q);
  }

  /** Parsing a formatted configuration gives the configuration back. */
  lemma ParseFormat(c: Config)
    requires Delimited(c)
    ensures Parse(Format(c)) == Some(c)
  {
    var rest := "/" + (c.schema + Suffix(c.query));
    FormatJoined(c);
    DelimitedFree(c);
    FieldsJoined(Parts(c), Delims, rest);
    assert rest[1..] == c.schema + Suffix(c.query);
    SchemaQuerySuffix(c.schema, c.query);
    assert Assemble(Parts(c), rest) == c;
  }

  /** The format loses nothing on delimited configurations. */
  lemma FormatInjective(c: Config, c': Config)
    requires Delimited(c) && Delimited(c')
    requires Format(c) == Format(c')
    ensures c == c'
  {
    ParseFormat(c);
    ParseFormat(c');
  }

  /** Generation accepts a configuration with no protocol as long as it has a host. */
  lemma EmptyProtocolAccepted(c: Config)
    requires c.user != "" && c.password != "" && c.protocol == "" && c.host != ""
    requires c.port != "" || c.schema != ""
    ensures Generate(c) == Some(Format(c))
  {
  }

  /** The example written beside the format string in the Go code. */
  lemma SourceExample()
    ensures Generate(Config("root", "password", "tcp", "127.0.0.1", "3306", "schema",
                            Some("timeout=2s&parseTime=true")))
         == Some("root:password@tcp(127.0.0.1:3306)/schema" + ("?" + "timeout=2s&parseTime=true"))
  {
    var c := Config("root", "password", "tcp", "127.0.0.1", "3306", "schema",
                    Some("timeout=2s&parseTime=true"));
    assert !Rejected(c);
    assert c.user + ":" + c.password == "root:password";
    assert "root:password" + "@" + c.protocol + "(" == "root:password@tcp(";
    assert "root:password@tcp(" + c.host + ":" == "root:password@tcp(127.0.0.1:";
    assert "root:password@tcp(127.0.0.1:" + c.port + ")/" == "root:password@tcp(127.0.0.1:3306)/";
    assert "root:password@tcp(127.0.0.1:3306)/" + c.schema == "root:password@tcp(127.0.0.1:3306)/schema";
    assert Format(c) == Base(c) + ("?" + "timeout=2s&parseTime=true");
  }
}
