/**
 * The configuration half of `SequelizeComponent` (index.js): the built-in
 * defaults, how a configured connection entry is merged over them, and the
 * arguments the Sequelize constructor is then called with.
 *
 * The merge performed by doublescore's `mixin` is modelled as "an explicit
 * field wins over the default"; the driver options are merged key by key,
 * which is what a deep merge does for an options object of scalar values.
 */
module ConnectionConfig {
  import opened Wrappers

  /** A scalar as it can stand in a configuration tree. */
  datatype Scalar = Null | Bool(b: bool) | Num(n: int) | Str(s: string)

  /** JavaScript truthiness: the scalars that `x || y` replaces by `y`. */
  predicate Falsy(v: Scalar)
  {
    v == Null || v == Bool(false) || v == Num(0) || v == Str("")
  }

  /** The `options` field of a connection entry: an object, or an explicit `null`. */
  datatype OptionsField = NullOptions | Options(entries: map<string, Scalar>)

  /** One entry of `connections` as the configuration source gives it; `None` is an absent key. */
  datatype ConnectionEntry = ConnectionEntry(
    database: Option<Scalar>,
    username: Option<Scalar>,
    password: Option<Scalar>,
    options: Option<OptionsField>)

  /** A connection entry after the defaults have been merged in: every field is present. */
  datatype ResolvedConnection = ResolvedConnection(
    database: Scalar,
    username: Scalar,
    password: Scalar,
    options: OptionsField)

  /** The value found at `stringstack:sequelize` in the configuration source. */
  datatype RawConfig = RawConfig(connections: Option<map<string, ConnectionEntry>>)

  /** The component's installed configuration (`_config` when it is not `null`). */
  datatype Config = Config(connections: map<string, ConnectionEntry>)

  /** The four arguments of `new Sequelize(database, username, password, options)`. */
  datatype DriverArgs = DriverArgs(
    database: Scalar,
    username: Scalar,
    password: Scalar,
    options: map<string, Scalar>)

  /** `defaultConnectionConfig.options`. */
  const DefaultOptions: map<string, Scalar> :=
    map["host" := Str("localhost"), "port" := Num(3306), "dialect" := Str("mysql"),
        "operatorsAliases" := Bool(false), "logging" := Bool(false)]

  /** `defaultConnectionConfig`. */
  const DefaultConnection: ResolvedConnection :=
    ResolvedConnection(Str("mysql"), Str(""), Str(""), Options(DefaultOptions))

  /** The explicit value if there is one, the default otherwise. */
  function Override(explicit: Option<Scalar>, default: Scalar): (r: Scalar)
  {
    if explicit.Some? then explicit.value else default
  }

  /**
   * `__(defaultConfig).mixin(raw)`: the configured connections, or none when
   * the source holds no configuration or no `connections` key.
   */
  function ResolveConfig(raw: Option<RawConfig>): (c: Config)
    ensures forall name :: name in c.connections <==>
              raw.Some? && raw.value.connections.Some? && name in raw.value.connections.value
    ensures forall name :: name in c.connections ==> c.connections[name] == raw.value.connections.value[name]
  {
    if raw.Some? && raw.value.connections.Some? then Config(raw.value.connections.value)
    else Config(map[])
  }

  /** `__(defaultConnectionConfig).mixin(entry)`. */
  function ResolveConnection(e: ConnectionEntry): (r: ResolvedConnection)
    ensures e.database.Some? ==> r.database == e.database.value
    ensures e.database.None? ==> r.database == DefaultConnection.database
    ensures e.username.Some? ==> r.username == e.username.value
    ensures e.username.None? ==> r.username == DefaultConnection.username
    ensures e.password.Some? ==> r.password == e.password.value
    ensures e.password.None? ==> r.password == DefaultConnection.password
    ensures e.options == Some(NullOptions) <==> r.options == NullOptions
    ensures r.options.Options? ==>
              forall k :: k in r.options.entries <==>
                k in DefaultOptions || (e.options.Some? && k in e.options.value.entries)
    ensures r.options.Options? ==>
              forall k :: k in r.options.entries ==>
                r.options.entries[k] ==
                  if e.options.Some? && k in e.options.value.entries then e.options.value.entries[k]
                  else DefaultOptions[k]
  {
    var options :=
      match e.options
      case None => Options(DefaultOptions)
      case Some(NullOptions) => NullOptions
      case Some(Options(m)) => Options(DefaultOptions + m);
    ResolvedConnection(
      Override(e.database, DefaultConnection.database),
      Override(e.username, DefaultConnection.username),
      Override(e.password, DefaultConnection.password),
      options)
  }

  /** `x || null`. */
  function OrNull(v: Scalar): (r: Scalar)
  {
    if Falsy(v) then Null else v
  }

  /**
   * The destructuring at index.js:98-101: a falsy database, username or
   * password is passed as `null`, and a missing options object as `{}`.
   */
  function ConstructorArgs(c: ResolvedConnection): (a: DriverArgs)
    ensures a.database == Null <==> Falsy(c.database)
    ensures !Falsy(c.database) ==> a.database == c.database
    ensures a.username == Null <==> Falsy(c.username)
    ensures !Falsy(c.username) ==> a.username == c.username
    ensures a.password == Null <==> Falsy(c.password)
    ensures !Falsy(c.password) ==> a.password == c.password
    ensures c.options.Options? ==> a.options == c.options.entries
    ensures c.options.NullOptions? ==> a.options == map[]
  {
    var options := if c.options.Options? then c.options.entries else map[];
    DriverArgs(OrNull(c.database), OrNull(c.username), OrNull(c.password), options)
  }

  /** What `getConnection` passes to the Sequelize constructor for a configured entry. */
  function ConnectArgs(e: ConnectionEntry): (a: DriverArgs)
  {
    ConstructorArgs(ResolveConnection(e))
  }

  /** A resolved entry written back as an entry that spells out every field. */
  function Explicit(r: ResolvedConnection): (e: ConnectionEntry)
  {
    ConnectionEntry(Some(r.database), Some(r.username), Some(r.password), Some(r.options))
  }

  /**
   * The defaults fill only what is absent: an entry that already spells out
   * every field of a resolved entry resolves to that entry again.
   */
  lemma ResolveIsIdempotent(e: ConnectionEntry)
    ensures ResolveConnection(Explicit(ResolveConnection(e))) == ResolveConnection(e)
  {
    var r := ResolveConnection(e);
    if r.options.Options? {
      assert DefaultOptions + r.options.entries == r.options.entries;
    }
  }

  /**
   * An entry that leaves out every field is connected with the default
   * database and options, and with `null` credentials: the default empty
   * username and password are falsy. A single worked instance of
   * `ConstructorArgs` over `ResolveConnection`.
   */
  lemma EmptyEntryArgs()
    ensures ConnectArgs(ConnectionEntry(None, None, None, None))
         == DriverArgs(Str("mysql"), Null, Null, DefaultOptions)
  {
  }

  /**
   * The Sequelize constructor never receives a falsy credential other than
   * `null`: a corollary of `ConstructorArgs`'s contract, stated for entries.
   */
  lemma ArgsAreNullOrTruthy(e: ConnectionEntry)
    ensures var a := ConnectArgs(e);
            (a.database == Null || !Falsy(a.database)) &&
            (a.username == Null || !Falsy(a.username)) &&
            (a.password == Null || !Falsy(a.password))
  {
  }
}
