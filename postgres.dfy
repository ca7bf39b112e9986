/**
 * Package postgres: the connection string a store is created with, the
 * `Connect` sequence (register the traced driver, open, ping, then keep the
 * handle), the "no rows is not an error" rule of `Select`/`SelectAll`, and
 * `Disconnect`. The database driver itself is outside the model: each step's
 * failure is a parameter.
 */
module Postgres {
  import opened Wrappers
  import opened Strings

  /** An error value as the package sees it: driver sentinels, opaque failures and `errors.Wrap` chains. */
  datatype DbError =
    | ErrNoRows
    | ErrTxDone
    | Failure(message: string)
    | Wrapped(context: string, cause: DbError)
  {
    /** The text `Error()` returns; `errors.Wrap` prefixes its message and a colon. */
    function Error(): string
    {
      match this
      case ErrNoRows => "sql: no rows in result set"
      case ErrTxDone => "sql: transaction has already been committed or rolled back"
      case Failure(m) => m
      case Wrapped(c, cause) => c + ": " + cause.Error()
    }

    /** `errors.Is(this, target)`: the error or anything it wraps equals the target. */
    predicate Is(target: DbError)
    {
      this == target || (Wrapped? && cause.Is(target))
    }
  }

  /** `errors.Wrap(err, message)`. */
  function Wrap(err: DbError, message: string): (w: DbError)
    ensures w.Error() == message + ": " + err.Error()
    ensures forall target :: err.Is(target) ==> w.Is(target)
  {
    Wrapped(message, err)
  }

  datatype Config = Config(
    dbHost: string, dbPort: int, dbName: string, dbUser: string, dbPassword: string, dbSchema: string,
    maxOpenConnections: int, maxIdleConnections: int, connectionMaxLifetime: int)

  /** `createConnectionString`: password and search path appear only when set. */
  function ConnectionString(host: string, port: int, name: string, user: string, password: string, schema: string): (s: string)
    ensures BaseInfo(host, port, name, user) <= s
    ensures s == BaseInfo(host, port, name, user) <==> password == "" && schema == ""
  {
    var info := BaseInfo(host, port, name, user);
    var withPassword := if password != "" then info + " password=" + password else info;
    if schema != "" then withPassword + " search_path=" + schema else withPassword
  }

  /** The key/value settings a connection string is meant to carry, in order. */
  function ConnectionSettings(host: string, port: int, name: string, user: string, password: string, schema: string): seq<(string, string)>
  {
    BaseSettings(host, port, name, user)
    + (if password != "" then [("password", password)] else [])
    + (if schema != "" then [("search_path", schema)] else [])
  }

  /** How libpq reads a key/value connection string: words separated by spaces, each `key=value`. */
  function ParseConnectionString(s: string): seq<(string, string)>
  {
    var words := Split(s, ' ');
    seq(|words|, i requires 0 <= i < |words| => var (k, v, _) := Cut(words[i], '='); (k, v))
  }

  function Entry(setting: (string, string)): string
  {
    setting.0 + "=" + setting.1
  }

  function Entries(settings: seq<(string, string)>): seq<string>
  {
    seq(|settings|, i requires 0 <= i < |settings| => Entry(settings[i]))
  }

  function BaseSettings(host: string, port: int, name: string, user: string): seq<(string, string)>
  {
    [("host", host), ("port", IntToString(port)), ("user", user), ("dbname", name), ("sslmode", "disable")]
  }

  function BaseInfo(host: string, port: int, name: string, user: string): string
  {
    "host=" + host + " port=" + IntToString(port) + " user=" + user + " dbname=" + name + " sslmode=disable"
  }

  lemma BaseInfoIsJoined(host: string, port: int, name: string, user: string)
    ensures Join(Entries(BaseSettings(host, port, name, user)), ' ') == BaseInfo(host, port, name, user)
  {
    var p := IntToString(port);
    var s1 := [("host", host)];
    assert Join(Entries(s1), ' ') == "host=" + host;
    AppendSetting(s1, "port", p, " port=");
    AppendSetting(s1 + [("port", p)], "user", user, " user=");
    AppendSetting(s1 + [("port", p), ("user", user)], "dbname", name, " dbname=");
    AppendSetting(s1 + [("port", p), ("user", user), ("dbname", name)], "sslmode", "disable", " sslmode=");
    assert s1 + [("port", p)] + [("user", user)] == s1 + [("port", p), ("user", user)];
    assert s1 + [("port", p), ("user", user)] + [("dbname", name)] == s1 + [("port", p), ("user", user), ("dbname", name)];
    assert s1 + [("port", p), ("user", user), ("dbname", name)] + [("sslmode", "disable")] == BaseSettings(host, port, name, user);
    var x := "host=" + host + " port=" + p + " user=" + user + " dbname=" + name;
    assert x + " sslmode=" + "disable" == x + " sslmode=disable";
  }

  lemma AppendSetting(settings: seq<(string, string)>, key: string, value: string, prefix: string)
    requires |settings| >= 1
    requires prefix == " " + key + "="
    ensures Join(Entries(settings + [(key, value)]), ' ') == Join(Entries(settings), ' ') + prefix + value
  {
    assert Entries(settings + [(key, value)]) == Entries(settings) + [key + "=" + value];
    JoinAppend(Entries(settings), key + "=" + value, ' ');
  }

  lemma {:induction false} ConnectionStringIsJoinedSettings(
    host: string, port: int, name: string, user: string, password: string, schema: string)
    ensures ConnectionString(host, port, name, user, password, schema)
         == Join(Entries(ConnectionSettings(host, port, name, user, password, schema)), ' ')
  {
    var base := BaseSettings(host, port, name, user);
    var info := BaseInfo(host, port, name, user);
    BaseInfoIsJoined(host, port, name, user);
    var withPassword := if password != "" then base + [("password", password)] else base;
    var infoP := if password != "" then info + " password=" + password else info;
    if password != "" {
      AppendSetting(base, "password", password, " password=");
    }
    var all := if schema != "" then withPassword + [("search_path", schema)] else withPassword;
    if schema != "" {
      AppendSetting(withPassword, "search_path", schema, " search_path=");
    }
    assert all == ConnectionSettings(host, port, name, user, password, schema);
    assert ConnectionString(host, port, name, user, password, schema) == if schema != "" then infoP + " search_path=" + schema else infoP;
  }

  /**
   * A connection string carries exactly the intended settings, password and
   * search path included only when set, provided no value contains a space.
   */
  lemma {:induction false} ConnectionStringRoundTrip(
    host: string, port: int, name: string, user: string, password: string, schema: string)
    requires ' ' !in host && ' ' !in name && ' ' !in user && ' ' !in password && ' ' !in schema
    ensures ParseConnectionString(ConnectionString(host, port, name, user, password, schema))
         == ConnectionSettings(host, port, name, user, password, schema)
  {
    var settings := ConnectionSettings(host, port, name, user, password, schema);
    var entries := Entries(settings);
    ConnectionStringIsJoinedSettings(host, port, name, user, password, schema);
    assert forall i :: 0 <= i < |settings| ==> ' ' !in settings[i].0 && ' ' !in settings[i].1 && '=' !in settings[i].0;
    forall i | 0 <= i < |entries|
      ensures ' ' !in entries[i]
    {
      assert entries[i] == settings[i].0 + "=" + settings[i].1;
    }
    SplitJoin(entries, ' ');
    var parsed := ParseConnectionString(Join(entries, ' '));
    forall i | 0 <= i < |settings|
      ensures parsed[i] == settings[i]
    {
      assert entries[i] == settings[i].0 + ['='] + settings[i].1;
      CutJoined(settings[i].0, settings[i].1, '=');
    }
  }

  /** A connection string always has its host, port, user, database and SSL mode, in that order. */
  lemma ConnectionSettingsHaveFixedPrefix(
    host: string, port: int, name: string, user: string, password: string, schema: string)
    ensures var s := ConnectionSettings(host, port, name, user, password, schema);
      5 <= |s| <= 7 && s[..5] == [("host", host), ("port", IntToString(port)), ("user", user), ("dbname", name), ("sslmode", "disable")]
      && ((exists i :: 5 <= i < |s| && s[i] == ("password", password)) <==> password != "")
      && ((exists i :: 5 <= i < |s| && s[i] == ("search_path", schema)) <==> schema != "")
  {
    var s := ConnectionSettings(host, port, name, user, password, schema);
    assert "password"[0] != "search_path"[0];
    if password != "" {
      assert s[5] == ("password", password);
    }
    if schema != "" {
      assert s[|s| - 1] == ("search_path", schema);
    }
  }

  /** What `sql.Open` hands back once configured. */
  datatype Db = Db(dsn: string, maxOpenConnections: int, maxIdleConnections: int, connectionMaxLifetime: int)

  /** The outcome of a scan: `dst` filled with a value, or the scan's error. */
  datatype Scan<T> = Scanned(value: T) | ScanFailed(err: DbError)

  /**
   * `Select` and `SelectAll`: a scan error that is (or wraps) `sql.ErrNoRows`
   * is reported as success with `dst` left as it was; any other error is returned.
   */
  function Select<T>(dst: T, scan: Scan<T>): (r: (T, Option<DbError>))
    ensures r.1.None? <==> scan.Scanned? || scan.err.Is(ErrNoRows)
    ensures r.1.Some? ==> scan.ScanFailed? && r.1.value == scan.err && r.0 == dst
    ensures scan.Scanned? ==> r.0 == scan.value
    ensures scan.ScanFailed? ==> r.0 == dst
  {
    match scan
    case Scanned(v) => (v, None)
    case ScanFailed(err) => if err.Is(ErrNoRows) then (dst, None) else (dst, Some(err))
  }

  class Store {
    const config: Config
    const connStr: string
    var dbConnection: Option<Db>

    /** `New`: the connection string is computed from the configuration once. */
    constructor (config: Config)
      ensures this.config == config && dbConnection.None?
      ensures connStr == ConnectionString(config.dbHost, config.dbPort, config.dbName, config.dbUser,
                                          config.dbPassword, config.dbSchema)
    {
      this.config := config;
      this.connStr := ConnectionString(config.dbHost, config.dbPort, config.dbName, config.dbUser,
                                       config.dbPassword, config.dbSchema);
      dbConnection := None;
    }

    /**
     * `Connect`: the first failing step's error, wrapped with that step's
     * message, and the handle untouched; otherwise the configured handle is kept.
     */
    method Connect(registerErr: Option<DbError>, openErr: Option<DbError>, pingErr: Option<DbError>)
      returns (err: Option<DbError>)
      modifies this
      ensures registerErr.Some? ==>
                err == Some(Wrap(registerErr.value, "failed to hook the tracer to the database driver"))
      ensures registerErr.None? && openErr.Some? ==> err == Some(Wrap(openErr.value, "failed to open connection"))
      ensures registerErr.None? && openErr.None? && pingErr.Some? ==>
                err == Some(Wrap(pingErr.value, "failed to ping database connection"))
      ensures err.Some? ==> dbConnection == old(dbConnection)
      ensures err.None? <==> registerErr.None? && openErr.None? && pingErr.None?
      ensures err.None? ==> dbConnection == Some(Db(connStr, config.maxOpenConnections, config.maxIdleConnections,
                                                    config.connectionMaxLifetime))
    {
      if registerErr.Some? {
        return Some(Wrap(registerErr.value, "failed to hook the tracer to the database driver"));
      }
      if openErr.Some? {
        return Some(Wrap(openErr.value, "failed to open connection"));
      }
      if pingErr.Some? {
        return Some(Wrap(pingErr.value, "failed to ping database connection"));
      }
      dbConnection := Some(Db(connStr, config.maxOpenConnections, config.maxIdleConnections, config.connectionMaxLifetime));
      err := None;
    }

    /** `Disconnect`: nothing to close without a handle, otherwise whatever closing it reports. */
    function Disconnect(closeErr: Option<DbError>): (err: Option<DbError>)
      reads this
      ensures err.Some? ==> dbConnection.Some? && err == closeErr
      ensures dbConnection.None? ==> err.None?
    {
      if dbConnection.None? then None else closeErr
    }
  }

  /** A store that never connected disconnects cleanly whatever the driver would say. */
  method DisconnectWithoutConnect(config: Config, closeErr: Option<DbError>) returns (err: Option<DbError>)
    ensures err.None?
  {
    var store := new Store(config);
    err := store.Disconnect(closeErr);
  }
}
