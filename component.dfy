/**
 * `SequelizeComponent` (index.js): a lifecycle around a cache of named
 * database connections.  `_config` is `null` until `init` and again after
 * `dinit`; `_connectionPool` maps a connection name to its Sequelize handle.
 *
 * The driver is outside the model: a handle is an object with identity, and
 * what `authenticate()` and `close()` settle to is given by the caller.  The
 * ghost log `calls` records, in order, every driver call the component makes.
 */
module Component {
  import opened Wrappers
  import opened ConnectionConfig

  /** How a promise returned by the driver settles. */
  datatype Settled = Resolved | Rejected(reason: string)

  /** The errors the component hands to its callbacks. */
  datatype Error =
    | NotInitialized         // "not initialized"
    | ConnectionNotFound     // "connection identifier not found"
    | Driver(reason: string) // a rejection of authenticate() or close(), passed on unchanged

  /** A Sequelize instance: created with the constructor arguments, compared by identity. */
  class Handle {
    const args: DriverArgs

    constructor (args: DriverArgs)
      ensures this.args == args
    {
      this.args := args;
    }
  }

  /** A call the component makes into the driver. */
  datatype DriverCall = Authenticate(handle: Handle) | Close(handle: Handle)

  predicate Distinct<T(==)>(s: seq<T>)
  {
    forall i, j :: 0 <= i < j < |s| ==> s[i] != s[j]
  }

  /** No handle is cached under two names. */
  predicate Injective(pool: map<string, Handle>)
  {
    forall a, b :: a in pool && b in pool && a != b ==> pool[a] != pool[b]
  }

  /**
   * `keys` lists the names of `pool` in insertion order (the order of
   * `Object.keys`), each once, and no handle is pooled twice.
   */
  ghost predicate PoolShape(keys: seq<string>, pool: map<string, Handle>)
  {
    && Distinct(keys)
    && (forall k :: k in keys <==> k in pool)
    && Injective(pool)
  }

  /** The pooled handles in the order `async.eachOfSeries` visits them. */
  function HandlesInOrder(keys: seq<string>, pool: map<string, Handle>): (hs: seq<Handle>)
    requires forall k :: k in keys ==> k in pool
    ensures |hs| == |keys|
    ensures forall i :: 0 <= i < |keys| ==> hs[i] == pool[keys[i]]
  {
    if keys == [] then [] else [pool[keys[0]]] + HandlesInOrder(keys[1..], pool)
  }

  /** The index of the first handle whose `close()` rejects, if any. */
  function FirstRejection(hs: seq<Handle>, close: Handle -> Settled): (r: Option<nat>)
    ensures r.None? <==> forall i :: 0 <= i < |hs| ==> close(hs[i]).Resolved?
    ensures r.Some? ==> r.value < |hs| && close(hs[r.value]).Rejected?
    ensures r.Some? ==> forall i :: 0 <= i < r.value ==> close(hs[i]).Resolved?
  {
    if hs == [] then None
    else if close(hs[0]).Rejected? then Some(0)
    else match FirstRejection(hs[1..], close)
      case None => None
      case Some(k) => Some(k + 1)
  }

  /** The driver calls made by closing `hs` one after the other. */
  function CloseCalls(hs: seq<Handle>): (cs: seq<DriverCall>)
    ensures |cs| == |hs|
    ensures forall i :: 0 <= i < |hs| ==> cs[i] == Close(hs[i])
  {
    if hs == [] then [] else [Close(hs[0])] + CloseCalls(hs[1..])
  }

  /** Closing one more handle adds its call at the end of the trace. */
  lemma CloseCallsExtend(hs: seq<Handle>, i: nat)
    requires i < |hs|
    ensures CloseCalls(hs[..i + 1]) == CloseCalls(hs[..i]) + [Close(hs[i])]
  {
    var a, b := CloseCalls(hs[..i + 1]), CloseCalls(hs[..i]) + [Close(hs[i])];
    assert forall j :: 0 <= j < |a| ==> a[j] == b[j];
  }

  /** A rejection after nothing but resolutions is the first rejection. */
  lemma FirstRejectionAt(hs: seq<Handle>, close: Handle -> Settled, i: nat)
    requires i < |hs| && close(hs[i]).Rejected?
    requires forall j :: 0 <= j < i ==> close(hs[j]).Resolved?
    ensures FirstRejection(hs, close) == Some(i)
  {
  }

  /** Visiting the pool in key order meets every pooled handle, each at one position. */
  lemma HandlesInOrderCoversPool(keys: seq<string>, pool: map<string, Handle>)
    requires PoolShape(keys, pool)
    ensures Distinct(HandlesInOrder(keys, pool))
    ensures forall h :: h in HandlesInOrder(keys, pool) <==> h in pool.Values
  {
    var hs := HandlesInOrder(keys, pool);
    forall i, j | 0 <= i < j < |hs|
      ensures hs[i] != hs[j]
    {
      assert keys[i] != keys[j] && keys[i] in pool && keys[j] in pool;
    }
    forall h | h in hs
      ensures h in pool.Values
    {
      var i :| 0 <= i < |hs| && hs[i] == h;
      assert keys[i] in pool && pool[keys[i]] == h;
    }
    forall h | h in pool.Values
      ensures h in hs
    {
      var k :| k in pool && pool[k] == h;
      var i :| 0 <= i < |keys| && keys[i] == k;
      assert hs[i] == h;
    }
  }

  lemma {:induction false} OccursOnce<T>(s: seq<T>, x: T)
    requires Distinct(s) && x in s
    ensures multiset(s)[x] == 1
  {
    if s[0] == x {
      assert x !in s[1..];
    } else {
      OccursOnce(s[1..], x);
    }
    assert s == [s[0]] + s[1..];
  }

  /** Closing a sequence of distinct handles closes each of them once and nothing else. */
  lemma DistinctClosedOnce(hs: seq<Handle>)
    requires Distinct(hs)
    ensures forall h :: h in hs ==> multiset(CloseCalls(hs))[Close(h)] == 1
    ensures forall c :: c in CloseCalls(hs) ==> c.Close? && c.handle in hs
  {
    var cs := CloseCalls(hs);
    assert Distinct(cs) by {
      forall i, j | 0 <= i < j < |cs|
        ensures cs[i] != cs[j]
      {
        assert cs[i].handle == hs[i] && cs[j].handle == hs[j];
      }
    }
    forall h | h in hs
      ensures multiset(cs)[Close(h)] == 1
    {
      var i :| 0 <= i < |hs| && hs[i] == h;
      assert cs[i] == Close(h);
      OccursOnce(cs, Close(h));
    }
    forall c | c in cs
      ensures c.Close? && c.handle in hs
    {
      var i :| 0 <= i < |cs| && cs[i] == c;
      assert c.handle == hs[i];
    }
  }

  /**
   * A `dinit` that closes the whole pool calls `close()` on every pooled
   * handle exactly once and on nothing else.
   */
  lemma ClosesEachHandleOnce(keys: seq<string>, pool: map<string, Handle>)
    requires PoolShape(keys, pool)
    ensures forall h :: h in pool.Values ==> multiset(CloseCalls(HandlesInOrder(keys, pool)))[Close(h)] == 1
    ensures forall c :: c in CloseCalls(HandlesInOrder(keys, pool)) ==> c.Close? && c.handle in pool.Values
  {
    HandlesInOrderCoversPool(keys, pool);
    DistinctClosedOnce(HandlesInOrder(keys, pool));
  }

  class SequelizeComponent {
    /** `_config`: `None` stands for `null`. */
    var config: Option<Config>
    /** `_connectionPool`. */
    var pool: map<string, Handle>
    /** The property order of `_connectionPool`. */
    var keys: seq<string>
    /** Every driver call made so far, oldest first. */
    ghost var calls: seq<DriverCall>

    ghost predicate Valid()
      reads this
    {
      PoolShape(keys, pool)
    }

    /** A new component holds no configuration and no connection. */
    constructor ()
      ensures Valid()
      ensures config == None && pool == map[] && keys == [] && calls == []
    {
      config := None;
      pool := map[];
      keys := [];
      calls := [];
    }

    /**
     * `init`: installs the defaults merged with the raw configuration; no
     * connection is opened, so connections stay lazy.
     */
    method Init(raw: Option<RawConfig>)
      requires Valid()
      modifies this`config
      ensures Valid()
      ensures config == Some(ResolveConfig(raw))
    {
      config := Some(ResolveConfig(raw));
    }

    /**
     * `getConnection(name)`: the guards in the order of the source, then a
     * new handle that is cached only once `authenticate()` resolves (its
     * outcome is `auth`).
     */
    method GetConnection(name: string, auth: Settled) returns (r: Result<Handle, Error>)
      requires Valid()
      modifies this`pool, this`keys, this`calls
      ensures Valid()
      ensures old(config).None? ==>
                r == Failure(NotInitialized) && pool == old(pool) && keys == old(keys) && calls == old(calls)
      ensures old(config).Some? && name in old(pool) ==>
                r == Success(old(pool)[name]) && pool == old(pool) && keys == old(keys) && calls == old(calls)
      ensures old(config).Some? && name !in old(pool) && name !in old(config).value.connections ==>
                r == Failure(ConnectionNotFound) && pool == old(pool) && keys == old(keys) && calls == old(calls)
      ensures old(config).Some? && name !in old(pool) && name in old(config).value.connections ==>
                && |calls| == |old(calls)| + 1
                && var created := calls[|old(calls)|].handle;
                && calls == old(calls) + [Authenticate(created)]
                && fresh(created)
                && created.args == ConnectArgs(old(config).value.connections[name])
                && (auth.Resolved? ==>
                      r == Success(created) && pool == old(pool)[name := created] && keys == old(keys) + [name])
                && (auth.Rejected? ==>
                      r == Failure(Driver(auth.reason)) && pool == old(pool) && keys == old(keys))
    {
      if config.None? {
        return Failure(NotInitialized);
      }
      if name in pool {
        return Success(pool[name]);
      }
      if name !in config.value.connections {
        return Failure(ConnectionNotFound);
      }
      var handle := new Handle(ConnectArgs(config.value.connections[name]));
      calls := calls + [Authenticate(handle)];
      match auth
      case Rejected(reason) =>
        r := Failure(Driver(reason));
      case Resolved =>
        pool := pool[name := handle];
        keys := keys + [name];
        r := Success(handle);
    }

    /**
     * `dinit`: clears the configuration, then runs two steps in series:
     * closing every pooled handle, then deleting every pool entry.  The
     * first `close()` that rejects (`close` says how each handle's close
     * settles) is reported and the second step never runs, so the pool is
     * left as it was.
     */
    method Dinit(close: Handle -> Settled) returns (r: Outcome<Error>)
      requires Valid()
      modifies this
      ensures Valid()
      ensures config == None
      ensures var hs := HandlesInOrder(old(keys), old(pool));
              match FirstRejection(hs, close)
              case None =>
                r == Pass && pool == map[] && keys == [] && calls == old(calls) + CloseCalls(hs)
              case Some(k) =>
                && r == Fail(Driver(close(hs[k]).reason))
                && pool == old(pool) && keys == old(keys)
                && calls == old(calls) + CloseCalls(hs[..k + 1])
    {
      config := None;
      r := CloseAll(close);
      if r.Pass? {
        DeleteAll();
      }
    }

    /**
     * The first step of `dinit` (`async.eachOfSeries`): close the pooled
     * handles one at a time in key order, stopping at the first rejection.
     */
    method CloseAll(close: Handle -> Settled) returns (r: Outcome<Error>)
      requires Valid()
      modifies this`calls
      ensures var hs := HandlesInOrder(keys, pool);
              match FirstRejection(hs, close)
              case None => r == Pass && calls == old(calls) + CloseCalls(hs)
              case Some(k) => r == Fail(Driver(close(hs[k]).reason)) && calls == old(calls) + CloseCalls(hs[..k + 1])
    {
      var handles := HandlesInOrder(keys, pool);
      r := CloseInSeries(handles, close);
    }

    /** `async.eachOfSeries` over `handles`: each close waits for the one before; a rejection ends the run. */
    method CloseInSeries(handles: seq<Handle>, close: Handle -> Settled) returns (r: Outcome<Error>)
      modifies this`calls
      ensures match FirstRejection(handles, close)
              case None => r == Pass && calls == old(calls) + CloseCalls(handles)
              case Some(k) => r == Fail(Driver(close(handles[k]).reason)) && calls == old(calls) + CloseCalls(handles[..k + 1])
    {
      ghost var before := calls;
      var i := 0;
      while i < |handles|
        invariant 0 <= i <= |handles|
        invariant calls == before + CloseCalls(handles[..i])
        invariant forall j :: 0 <= j < i ==> close(handles[j]).Resolved?
      {
        CloseCallsExtend(handles, i);
        calls := calls + [Close(handles[i])];
        if close(handles[i]).Rejected? {
          FirstRejectionAt(handles, close, i);
          return Fail(Driver(close(handles[i]).reason));
        }
        i := i + 1;
      }
      assert handles[..i] == handles;
      r := Pass;
    }

    /** The second step of `dinit`: delete every key of the pool, in key order. */
    method DeleteAll()
      requires Valid()
      modifies this`pool, this`keys
      ensures Valid()
      ensures pool == map[] && keys == []
    {
      var names := keys;
      var j := 0;
      while j < |names|
        invariant 0 <= j <= |names|
        invariant keys == names[j..]
        invariant forall k :: k in pool <==> k in names[j..]
      {
        pool := pool - {names[j]};
        keys := keys[1..];
        j := j + 1;
      }
      assert pool.Keys == {};
    }
  }
}
