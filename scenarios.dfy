/**
 * Client code in the manner of the repository's integration tests: what a
 * caller of `SequelizeComponent` can conclude from the contracts alone.
 */
module Scenarios {
  import opened Wrappers
  import opened ConnectionConfig
  import opened Component

  /** A connection named `test`, with the configuration fixture's entry values. */
  const TestEntry: ConnectionEntry :=
    ConnectionEntry(
      Some(Str("stringstack_sequelize_test")), Some(Str("root")), Some(Str("test-password")),
      Some(Options(map["dialect" := Str("mysql"), "host" := Str("localhost"), "port" := Num(13306)])))

  const TestConfig: RawConfig := RawConfig(Some(map["test" := TestEntry]))

  /** Before `init` nothing is configured; `init` installs a configuration and opens nothing. */
  method LazyInit()
  {
    var c := new SequelizeComponent();
    assert c.config == None && c.pool == map[];
    c.Init(Some(TestConfig));
    assert c.config.Some? && c.pool == map[] && c.calls == [];
  }

  /** A second `getConnection` of the same name returns the cached object without authenticating. */
  method CachedConnection()
  {
    var c, h := Connected();
    assert h.args == ConnectArgs(TestEntry);

    var second := c.GetConnection("test", Rejected("unreachable"));
    assert second == Success(h) && c.calls == [Authenticate(h)];

    var unknown := c.GetConnection("missing", Resolved);
    assert unknown == Failure(ConnectionNotFound) && c.pool == map["test" := h];
  }

  /** A component after `init` and one successful `getConnection("test")`. */
  method Connected() returns (c: SequelizeComponent, h: Handle)
    ensures fresh(c) && c.Valid()
    ensures c.config == Some(ResolveConfig(Some(TestConfig)))
    ensures c.keys == ["test"] && c.pool == map["test" := h] && c.calls == [Authenticate(h)]
    ensures h.args == ConnectArgs(TestEntry)
  {
    c := new SequelizeComponent();
    c.Init(Some(TestConfig));
    var got := c.GetConnection("test", Resolved);
    h := got.value;
  }

  /** A `dinit` whose closes all resolve empties the pool; the component is then uninitialised. */
  method TearDown()
  {
    var c, h := Connected();
    assert HandlesInOrder(c.keys, c.pool) == [h];

    var closed := c.Dinit(_ => Resolved);
    assert closed == Pass && c.config == None && c.pool == map[];
    assert c.calls == [Authenticate(h), Close(h)];

    var after := c.GetConnection("test", Resolved);
    assert after == Failure(NotInitialized);
  }

  /** A rejected authenticate() is not cached, so the next call tries again with a new handle. */
  method RetryAfterRejectedAuthentication()
  {
    var c := new SequelizeComponent();
    c.Init(Some(TestConfig));

    var failed := c.GetConnection("test", Rejected("ECONNREFUSED"));
    assert failed == Failure(Driver("ECONNREFUSED")) && c.pool == map[];
    var attempt := c.calls[0].handle;

    var retried := c.GetConnection("test", Resolved);
    assert retried.Success? && retried.value != attempt && c.pool == map["test" := retried.value];
  }

  /**
   * When a close() rejects, `dinit` reports it and keeps the pool; after a
   * new `init` the component hands out the handle it already closed.
   */
  method StaleHandleAfterFailedDinit()
  {
    var c, h := Connected();
    assert HandlesInOrder(c.keys, c.pool) == [h];

    var closed := c.Dinit(_ => Rejected("close failed"));
    assert closed == Fail(Driver("close failed"));
    assert c.config == None && c.pool == map["test" := h];
    assert c.calls == [Authenticate(h), Close(h)];

    c.Init(Some(TestConfig));
    var again := c.GetConnection("test", Resolved);
    assert again == Success(h);
  }
}
