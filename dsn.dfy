/**
 * The connection string of the metadata database
 * (internal/infrastructure/database/metadata.go): the MySQL driver's
 * `user:password@tcp(host:port)/database?params` form.  `Read` is a reading
 * of that form, field by field, which `Build` is proved to invert.
 */
module Dsn {
  import opened Wrappers
  import opened Text
  import opened Config

  /** The query parameters used when the configuration leaves them empty. */
  function Params(cfg: MetadataDBConfig): (r: string)
    ensures r != ""
    ensures cfg.params != "" ==> r == cfg.params
    ensures cfg.params == "" ==> r == DefaultParams
  {
    if cfg.params == "" then DefaultParams else cfg.params
  }

  /** `buildDSN`: the template `%s:%s@tcp(%s:%d)/%s?%s` filled in, piece by piece from the right. */
  function Build(cfg: MetadataDBConfig): string
  {
    cfg.username + (":" + (cfg.password + ("@tcp(" + (cfg.host + (":" + (DecimalString(cfg.port) + (")/" +
      (cfg.database + ("?" + Params(cfg))))))))))
  }

  /** The fields of a connection string. */
  datatype Fields = Fields(
    username: string,
    password: string,
    host: string,
    port: int,
    database: string,
    params: string)

  /** `s` cut at the first `c`: what comes before it and what comes after it. */
  function SplitFirst(s: string, c: char): (r: Option<(string, string)>)
    ensures r.None? <==> c !in s
    ensures r.Some? ==> s == r.value.0 + [c] + r.value.1 && c !in r.value.0
  {
    if s == [] then None
    else if s[0] == c then Some(([], s[1..]))
    else match SplitFirst(s[1..], c)
      case None => None
      case Some((before, after)) => Some(([s[0]] + before, after))
  }

  /** Cutting `a + [c] + b` at its first `c` gives back `a` and `b` when `a` holds no `c`. */
  lemma {:induction false} SplitFirstOf(a: string, c: char, b: string)
    requires c !in a
    ensures SplitFirst(a + ([c] + b), c) == Some((a, b))
  {
    if a != [] {
      assert (a + ([c] + b))[1..] == a[1..] + ([c] + b);
      SplitFirstOf(a[1..], c, b);
      assert [a[0]] + a[1..] == a;
    } else {
      assert a + ([c] + b) == [c] + b;
      assert ([c] + b)[1..] == b;
    }
  }

  /**
   * Reading a connection string: the username up to the first ':', the
   * password up to the next '@', then the address and path that follow.
   */
  function Read(s: string): Option<Fields>
  {
    match SplitFirst(s, ':')
    case None => None
    case Some((username, s1)) =>
      match SplitFirst(s1, '@')
      case None => None
      case Some((password, s2)) => ReadAddress(username, password, s2)
  }

  /** After the '@': "tcp(", then the host up to the next ':'. */
  function ReadAddress(username: string, password: string, s: string): Option<Fields>
  {
    if |s| < 4 || s[..4] != "tcp(" then None
    else match SplitFirst(s[4..], ':')
      case None => None
      case Some((host, rest)) => ReadPort(username, password, host, rest)
  }

  /** After the host's ':': the port up to ')'. */
  function ReadPort(username: string, password: string, host: string, s: string): Option<Fields>
  {
    match SplitFirst(s, ')')
    case None => None
    case Some((portText, rest)) => ReadPath(username, password, host, portText, rest)
  }

  /** After the ')': '/', the database name up to the next '?', the parameters to the end, and the port as a number. */
  function ReadPath(username: string, password: string, host: string, portText: string, s: string): Option<Fields>
  {
    if s == [] || s[0] != '/' then None
    else match SplitFirst(s[1..], '?')
      case None => None
      case Some((database, params)) =>
        match Atoi(portText)
        case None => None
        case Some(port) => Some(Fields(username, password, host, port, database, params))
  }

  /** A decimal numeral holds no ')'. */
  lemma NoParenInDecimal(n: int)
    ensures ')' !in DecimalString(n)
  {
    var d := if n < 0 then Digits(-n) else Digits(n);
    assert AllDigits(d);
    assert forall i :: 0 <= i < |d| ==> d[i] != ')';
  }

  /** The path of a built string reads back as its database name, parameters and port. */
  lemma ReadPathOf(username: string, password: string, host: string, port: int, database: string, params: string)
    requires '?' !in database && MinInt64 <= port <= MaxInt64
    ensures ReadPath(username, password, host, DecimalString(port), "/" + (database + ("?" + params)))
              == Some(Fields(username, password, host, port, database, params))
  {
    var s := "/" + (database + ("?" + params));
    assert s[1..] == database + ("?" + params);
    SplitFirstOf(database, '?', params);
    AtoiOfDecimalString(port);
  }

  /** A port numeral and its ')' are read off before the path. */
  lemma ReadPortOf(username: string, password: string, host: string, port: int, rest: string)
    ensures ReadPort(username, password, host, DecimalString(port) + (")/" + rest))
              == ReadPath(username, password, host, DecimalString(port), "/" + rest)
  {
    NoParenInDecimal(port);
    assert ")/" + rest == [')'] + ("/" + rest);
    SplitFirstOf(DecimalString(port), ')', "/" + rest);
  }

  /** "tcp(", a host and its ':' are read off before the port. */
  lemma ReadAddressOf(username: string, password: string, host: string, rest: string)
    requires ':' !in host
    ensures ReadAddress(username, password, "tcp(" + (host + (":" + rest))) == ReadPort(username, password, host, rest)
  {
    var s := "tcp(" + (host + (":" + rest));
    assert s[..4] == "tcp(" && s[4..] == host + (":" + rest);
    SplitFirstOf(host, ':', rest);
  }

  /** A username, a password and their separators are read off before the address. */
  lemma ReadCredentialsOf(username: string, password: string, rest: string)
    requires ':' !in username && '@' !in password
    ensures Read(username + (":" + (password + ("@tcp(" + rest)))) == ReadAddress(username, password, "tcp(" + rest)
  {
    SplitFirstOf(username, ':', password + ("@tcp(" + rest));
    assert "@tcp(" + rest == ['@'] + ("tcp(" + rest);
    SplitFirstOf(password, '@', "tcp(" + rest);
  }

  /**
   * The connection string names the configured database: reading it back
   * gives the configured fields and the effective parameters, provided the
   * username holds no ':', the password no '@', the host no ':' and the
   * database name no '?', and the port is an `int64`.
   */
  lemma ReadBuild(cfg: MetadataDBConfig)
    requires ':' !in cfg.username && '@' !in cfg.password && ':' !in cfg.host && '?' !in cfg.database
    requires MinInt64 <= cfg.port <= MaxInt64
    ensures Read(Build(cfg)) ==
              Some(Fields(cfg.username, cfg.password, cfg.host, cfg.port, cfg.database, Params(cfg)))
  {
    var path := cfg.database + ("?" + Params(cfg));
    var port := DecimalString(cfg.port) + (")/" + path);
    ReadCredentialsOf(cfg.username, cfg.password, cfg.host + (":" + port));
    ReadAddressOf(cfg.username, cfg.password, cfg.host, port);
    ReadPortOf(cfg.username, cfg.password, cfg.host, cfg.port, path);
    ReadPathOf(cfg.username, cfg.password, cfg.host, cfg.port, cfg.database, Params(cfg));
  }

  /** Whatever the fields hold, the string ends with '?' and the effective parameters, which are never empty. */
  lemma BuildEndsWithParams(cfg: MetadataDBConfig)
    ensures var s := Build(cfg);
            var q := "?" + Params(cfg);
            |q| <= |s| && s[|s| - |q|..] == q && |q| > 1
  {
    var s := Build(cfg);
    var q := "?" + Params(cfg);
    var front := cfg.username + ":" + cfg.password + "@tcp(" + cfg.host + ":" + DecimalString(cfg.port) + ")/"
                   + cfg.database;
    assert s == front + q;
    assert s[|s| - |q|..] == q;
  }
}
