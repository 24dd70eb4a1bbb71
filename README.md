# stringstack-sequelize: the connection component, modelled in Dafny

`SequelizeComponent` (index.js) is a StringStack component that gives its host
named Sequelize database connections. It has two pieces of state:

- `_config`, the merged configuration. It is `null` until `init` runs and `null` again after `dinit`.
- `_connectionPool`, an object that maps a connection name to a live Sequelize instance.

Connections are opened lazily. The first `getConnection(name)` builds a Sequelize instance from the
configured entry merged over the built-in defaults, authenticates it, and caches it. Later calls
return the cached instance. `dinit` clears the configuration, closes every pooled instance one at a
time, and then deletes the pool's entries.

The model is split into four modules:

- `Wrappers` (wrappers.dfy): `Option`, `Result` and `Outcome`, for `null` values and Node-style callbacks.
- `ConnectionConfig` (connection_config.dfy): the defaults (`defaultConfig`, `defaultConnectionConfig`), the merge
  of a configured entry over them, and the arguments passed to `new Sequelize(...)`. These are pure
  functions with lemmas.
- `Component` (component.dfy): the class `SequelizeComponent`, whose fields mirror the source:
  - `config` is `_config`.
  - `pool` is `_connectionPool`.
  - `keys` is the property order of `_connectionPool`, which `async.eachOfSeries` and `Object.keys` follow.
  - A ghost log `calls` records every `authenticate()` and `close()` call made into the driver.

  `Init`, `GetConnection` and `Dinit` change these fields as the source does. `Dinit` keeps the
  source's two series steps as two methods with loops: `CloseAll` (through `CloseInSeries`) and
  `DeleteAll`.
- `Scenarios` (scenarios.dfy): client methods that follow the integration tests. They check the
  lifecycle assertions of test/query.mysql.test.js:67-68, 88-90, 112-113 and 133-134 against the
  contracts alone. They also show two consequences of the code. A rejected authentication is retried
  with a new instance. After a failed `dinit` and a new `init`, `getConnection` returns an
  instance that was already closed.

The driver is outside the model:

- A Sequelize instance is a `Handle`: an object with identity that holds its constructor arguments.
- How `authenticate()` settles is a parameter of `GetConnection`.
- How each handle's `close()` settles is a function parameter of `Dinit`.
- The value read from the configuration source (`this._nconf.get('stringstack:sequelize')`) is a parameter of `Init`.

Points of index.js the model keeps as written:

- index.js has no "already initialized" or "already d-initialized" guard. `init` overwrites the
  configuration whenever it is called, and `dinit` runs in any state.
- When a `close()` rejects, index.js stops the series and never runs the delete step. The pool keeps
  every entry, including the handles that were already closed, while `_config` is already `null`.
- This version of index.js has no `setupDir`/`applyMigrations` handling, no model loading and no
  migration runner, even though the tests call `applyMigrations` and read `_connectionModelsInitialized`.

## Model

| member | source | states |
|---|---|---|
| `ConnectionConfig.ResolveConfig` | index.js:50 | The installed configuration holds exactly the connections the configuration source gives, with their entries unchanged. It holds no connection when the source has no configuration or no `connections` key (default `connections: {}`). |
| `ConnectionConfig.ResolveConnection` | index.js:12-23 | Merging an entry over `defaultConnectionConfig` (index.js:96): each explicit field wins, and each absent field takes the default (`mysql`, `''`, `''`). The options hold exactly the default option keys plus the explicit ones, and an explicit option value wins. An explicit `null` options stays `null`. |
| `ConnectionConfig.ConstructorArgs` | index.js:98-101 | A database, username or password becomes `null` exactly when it is falsy, and is passed unchanged otherwise. Options are passed as configured, or as `{}` when they are `null`. |
| `ConnectionConfig.ResolveIsIdempotent` | index.js:96 | Defaults fill only absent fields: an entry that already spells out a resolved entry resolves to itself. |
| `ConnectionConfig.EmptyEntryArgs` | index.js:96-101 | An entry with no fields connects with database `mysql`, `null` username and password (the default `''` is falsy), and the default options. |
| `ConnectionConfig.ArgsAreNullOrTruthy` | index.js:101 | The Sequelize constructor never receives a falsy credential other than `null`. |
| `Component.HandlesInOrder` | index.js:62 | The handles `async.eachOfSeries` visits: one per key, position by position, the pooled handle of that key. |
| `Component.FirstRejection` | index.js:62-70 | Finds the index of the first handle whose `close()` rejects: every earlier close resolved. It is `None` exactly when every close resolves. |
| `Component.CloseCalls` | index.js:64 | Closing a sequence of handles makes one `close()` call per handle, in order. |
| `Component.HandlesInOrderCoversPool` | index.js:62 | When the pool keeps one key per entry and no handle twice, the visited handles are distinct and are exactly the pooled handles. |
| `Component.DistinctClosedOnce` | index.js:62-70 | Closing distinct handles in series calls `close()` on each exactly once and on nothing else. |
| `Component.ClosesEachHandleOnce` | index.js:58-78 | A `dinit` that completes calls `close()` on every pooled handle exactly once and on no other object. |
| `Component.SequelizeComponent.constructor` | index.js:38-46 | A new component has a `null` configuration, an empty pool and has made no driver call. |
| `Component.SequelizeComponent.Init` | index.js:48-54 | Installs the merged configuration, so `_config` is non-null. The method may not change the pool, which is framed out, so connections stay lazy. |
| `Component.SequelizeComponent.GetConnection` | index.js:82-124 | Covers each guard in source order and leaves the configuration unchanged: (1) not initialised: "not initialized", nothing changes; (2) name already pooled: that same handle, with no driver call and no change, whatever the configuration says; (3) name neither pooled nor configured: "connection identifier not found", nothing changes; (4) otherwise exactly one new handle is built from `ConnectArgs` of the entry and authenticated. On resolve, the pool gains exactly `name -> handle` (appended to the key order) and that handle is returned. On reject, the reason is returned and the pool is unchanged, so the next call tries again. |
| `Component.SequelizeComponent.Dinit` | index.js:56-80 | The configuration becomes `null` in every case. With no rejecting close: success, every pooled handle closed once in key order, pool and key order empty. On an empty pool this succeeds with no call. At the first rejecting close (index `k`): that reason is returned, handles `0..k` have been closed in order, and the pool and its key order are exactly as before. |
| `Component.SequelizeComponent.CloseAll` | index.js:60-71 | The first series step: closes the pooled handles in key order up to and including the first rejection, whose reason it returns; it succeeds after closing all of them when none rejects. |
| `Component.SequelizeComponent.CloseInSeries` | index.js:62-70 | `async.eachOfSeries` over a handle sequence: one close at a time, each after the previous resolved. It stops at the first rejection. |
| `Component.SequelizeComponent.DeleteAll` | index.js:72-77 | The second series step: deleting every key leaves the pool and its key order empty. |

## Left out

- Sequelize itself (construction, `authenticate()`, `close()`, queries) is a foreign library reached over the network. A handle is an opaque object, and each promise's outcome is supplied by the caller.
- `new Sequelize(...)` throwing synchronously (for instance on an unknown dialect) is not modelled. Construction always succeeds in the model.
- A promise rejected with a falsy reason is not modelled. `async` would treat that as success; Sequelize rejects with `Error` objects.
- doublescore's `mixin` is not shown. It is modelled as "explicit field wins", with the `options` object merged key by key. Configuration values are scalars only: nested option objects, arrays, and non-object inputs are not modelled.
- Numbers in the configuration are integers. Floating point and `NaN` (also falsy in JavaScript) are not modelled.
- The `models: []` default (index.js:8) and `defaultModelConfig` (index.js:25-34) are not modelled: no code reads them.
- The nconf configuration source (index.js:40) is external. `Init` receives the value it would return.
- Concurrency is not modelled: each call runs atomically. Two overlapping `getConnection` calls for the same uncached name could both authenticate, with the last write winning at index.js:118.
- JavaScript lists integer-like property names before the others. The key order here is plain insertion order.
- Property names with special meaning on plain objects (such as `__proto__`) are not modelled. `hasOwnProperty` is map membership.
- Callback timing (synchronous versus deferred `done`) and the promise-style calling convention are not modelled.
- Migration application, model loading, the manual `applyMigrations` trigger and `getLib` are not part of this index.js. They are not modelled.
- The test harness, the Docker utilities, the configuration fixture and the migration and model fixture files are not part of this model.
