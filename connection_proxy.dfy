/** The routing proxy of lib/data_fabric/connection_proxy.rb: the thread's
    role slot that every proxy shares, the process-wide cache of connection
    pools keyed by resolved name (`ConnectionProxy.shard_pools`), the proxy
    that resolves its connection name to a pool, and the `PoolProxy` that
    forwards pool lifecycle calls to every cached pool. */
module Routing {
  import opened Base
  import Driver
  import ShardContext
  import opened ConnectionNames

  /** `Thread.current[:data_fabric_role]`: one slot for the thread, read
      and written by every proxy. */
  class RoleSlot {
    var role: Option<string>

    constructor()
      ensures role == None
    {
      role := None;
    }
  }

  /** What a block does to the role slot: the value it leaves there and
      whether it raised. */
  datatype RoleExit = RoleExit(slot: Option<string>, raised: bool)

  /** `shard_pools[name] ||= ConnectionPool.new(...)` on values: the pool
      the lookup yields, with the cache after it. A pool the driver creates
      takes the driver's next serial number. */
  function Admit(pools: map<string, Driver.Pool>, created: nat, configs: map<string, Driver.Config>,
                 name: string): (Result<Driver.Pool>, map<string, Driver.Pool>)
  {
    if name in pools then (Ok(pools[name]), pools)
    else if name !in configs then (Err(UnknownDatabaseConfig(name)), pools)
    else
      var p := Driver.Pool(created, configs[name]);
      (Ok(p), pools[name := p])
  }

  /** The cache works as one: a lookup that succeeds leaves the name
      cached, so the next lookup of it yields the same pool and changes
      nothing, whatever the driver would number a new one; a name with no
      configuration raises and adds nothing; no cached entry ever changes. */
  lemma AdmitCaches(pools: map<string, Driver.Pool>, created: nat, later: nat,
                    configs: map<string, Driver.Config>, name: string)
    ensures Admit(pools, created, configs, name).0.Ok? ==>
      Admit(Admit(pools, created, configs, name).1, later, configs, name) == Admit(pools, created, configs, name)
    ensures Admit(pools, created, configs, name).0.Err? <==> name !in pools && name !in configs
    ensures Admit(pools, created, configs, name).0.Err? ==>
      Admit(pools, created, configs, name) == (Err(UnknownDatabaseConfig(name)), pools)
    ensures Admit(pools, created, configs, name).0.Ok? ==>
      Admit(pools, created, configs, name).1 == pools[name := Admit(pools, created, configs, name).0.value]
    ensures Admit(pools, created, configs, name).0.Ok? ==>
      Admit(pools, created, configs, name).0.value.config == if name in pools then pools[name].config else configs[name]
  {
  }

  /** The calls a lifecycle broadcast makes: one per cached pool, in the
      cache's insertion order. */
  function LifecycleCalls(op: Driver.LifecycleOp, order: seq<string>, pools: map<string, Driver.Pool>): seq<Driver.Call>
    requires forall i | 0 <= i < |order| :: order[i] in pools
    decreases |order|
  {
    if |order| == 0 then []
    else LifecycleCalls(op, order[..|order| - 1], pools) + [Driver.Lifecycle(op, pools[order[|order| - 1]])]
  }

  lemma LifecycleCallsOfTwo(op: Driver.LifecycleOp, a: string, b: string, pools: map<string, Driver.Pool>)
    requires a in pools && b in pools
    ensures LifecycleCalls(op, [a, b], pools) == [Driver.Lifecycle(op, pools[a]), Driver.Lifecycle(op, pools[b])]
  {
    assert [a, b][..1] == [a];
    assert [a][..0] == [];
    assert LifecycleCalls(op, [a], pools) == [Driver.Lifecycle(op, pools[a])];
  }

  /** With distinct names and distinct pools, a broadcast reaches each pool
      of the cache exactly once and sends nothing else. */
  lemma {:induction false} BroadcastReachesEveryPoolOnce(op: Driver.LifecycleOp, order: seq<string>,
                                                         pools: map<string, Driver.Pool>, k: string)
    requires forall i | 0 <= i < |order| :: order[i] in pools
    requires forall i, j | 0 <= i < j < |order| :: order[i] != order[j]
    requires forall a, b | a in pools && b in pools && a != b :: pools[a] != pools[b]
    requires k in pools
    ensures multiset(LifecycleCalls(op, order, pools))[Driver.Lifecycle(op, pools[k])] == if k in order then 1 else 0
    ensures |LifecycleCalls(op, order, pools)| == |order|
    ensures forall c | c in LifecycleCalls(op, order, pools) :: c.Lifecycle? && c.op == op && c.pool in pools.Values
    decreases |order|
  {
    if |order| > 0 {
      var init := order[..|order| - 1];
      var last := order[|order| - 1];
      BroadcastReachesEveryPoolOnce(op, init, pools, k);
      assert k in order <==> k in init || k == last;
      assert k == last ==> k !in init;
      assert pools[last] == pools[k] <==> last == k;
      assert multiset(LifecycleCalls(op, order, pools)) ==
        multiset(LifecycleCalls(op, init, pools)) + multiset{Driver.Lifecycle(op, pools[last])};
      forall c | c in LifecycleCalls(op, order, pools)
        ensures c.Lifecycle? && c.op == op && c.pool in pools.Values
      {
        if c !in LifecycleCalls(op, init, pools) {
          assert c == Driver.Lifecycle(op, pools[last]);
        }
      }
    }
  }

  /** `ConnectionProxy.shard_pools` (class-wide, shared by every proxy),
      with the order in which names were added, which is the order
      `values.each` visits them. */
  class PoolRegistry {
    var pools: map<string, Driver.Pool>
    var order: seq<string>
    const driver: Driver.Driver

    /** Each cached name once, in order; every pool came from the driver,
        and no two names share a pool. */
    ghost predicate Valid()
      reads this, driver
    {
      (forall i, j | 0 <= i < j < |order| :: order[i] != order[j]) &&
      (forall k :: k in pools <==> k in order) &&
      (forall k | k in pools :: pools[k].serial < driver.created) &&
      (forall a, b | a in pools && b in pools && a != b :: pools[a].serial != pools[b].serial)
    }

    constructor(driver: Driver.Driver)
      ensures this.driver == driver && pools == map[] && order == []
      ensures Valid()
    {
      this.driver := driver;
      pools, order := map[], [];
    }

    /** `ConnectionProxy.shard_pools = {}` */
    method Reset()
      modifies this
      ensures pools == map[] && order == []
      ensures Valid()
    {
      pools, order := map[], [];
    }

    /** `shard_pools[name] ||= begin ... end` in `current_pool`: a cached
        pool, or a new pool for the name's configuration, or the
        ArgumentError for a name with no configuration. */
    method GetOrCreate(name: string, configs: map<string, Driver.Config>) returns (r: Result<Driver.Pool>)
      requires Valid()
      modifies this, driver
      ensures Valid()
      ensures (r, pools) == Admit(old(pools), old(driver.created), configs, name)
      ensures pools == old(pools) ==>
        order == old(order) && driver.created == old(driver.created) && driver.calls == old(driver.calls)
      ensures pools != old(pools) ==>
        order == old(order) + [name] && driver.created == old(driver.created) + 1 &&
        driver.calls == old(driver.calls) + [Driver.Created(r.value)]
    {
      if name in pools {
        return Ok(pools[name]);
      }
      if name !in configs {
        return Err(UnknownDatabaseConfig(name));
      }
      var p := driver.NewPool(configs[name]);
      assert name !in old(pools) && p !in old(pools).Values;
      pools := pools[name := p];
      order := order + [name];
      r := Ok(p);
    }

    /** The loop of the `PoolProxy` lifecycle methods and of
        `clear_active_connections!`: the operation sent to every cached pool. */
    method Broadcast(op: Driver.LifecycleOp)
      requires Valid()
      modifies driver`calls
      ensures driver.calls == old(driver.calls) + LifecycleCalls(op, order, pools)
    {
      for i := 0 to |order|
        invariant driver.calls == old(driver.calls) + LifecycleCalls(op, order[..i], pools)
      {
        assert order[..i + 1][..i] == order[..i];
        driver.Send(op, pools[order[i]]);
      }
      assert order[..|order|] == order;
    }
  }

  /** `ConnectionProxy`: resolves the name for the thread's shard and role,
      then the pool for that name. */
  class ConnectionProxy {
    const options: Options
    const slot: RoleSlot
    const shards: ShardContext.ThreadShards
    const registry: PoolRegistry
    /** `@connection_name_builder`, once built */
    var builder: Option<seq<Clause>>
    /** `@shard_names`, once computed */
    var shardNames: Option<seq<string>>
    /** `attr_accessor :spec`, set whenever this proxy creates a pool */
    var spec: Option<Driver.Config>

    /** The kept clause list and shard names are what they were computed as. */
    ghost predicate Valid()
      reads this
    {
      (builder.Some? ==> builder.value == NameBuilder(options, Environment)) &&
      (shardNames.Some? ==> forall i | 0 <= i < |shardNames.value| ::
         shardNames.value[i] != [] && NoUnderscore(shardNames.value[i]))
    }

    /** `initialize`: a replicated proxy writes its default role into the
        thread's slot; any other leaves the slot alone. */
    constructor(options: Options, slot: RoleSlot, shards: ShardContext.ThreadShards, registry: PoolRegistry)
      modifies slot
      ensures this.options == options && this.slot == slot && this.shards == shards && this.registry == registry
      ensures builder == None && shardNames == None && spec == None
      ensures Valid()
      ensures options.replicated ==> slot.role == Some(DefaultRole(options))
      ensures !options.replicated ==> slot.role == old(slot.role)
    {
      this.options := options;
      this.slot := slot;
      this.shards := shards;
      this.registry := registry;
      builder, shardNames, spec := None, None, None;
      new;
      if options.replicated {
        SetRole(DefaultRole(options));
      }
    }

    /** `current_role`: the thread's role slot when it is set, else the
        proxy's default role. */
    function CurrentRole(): (r: string)
      reads slot
      ensures slot.role.Some? ==> r == slot.role.value
      ensures slot.role.None? ==> r == DefaultRole(options)
    {
      RoleOf(slot.role, options)
    }

    /** `set_role` */
    method SetRole(role: string)
      modifies slot
      ensures slot.role == Some(role)
    {
      slot.role := Some(role);
    }

    /** The entry half of `with_role`: remember the role the thread sees
        now, then set the new one. */
    method EnterRole(role: string) returns (saved: string)
      modifies slot
      ensures saved == old(CurrentRole())
      ensures slot.role == Some(role)
    {
      saved := CurrentRole();
      SetRole(role);
    }

    /** `with_role(role) { block }`: the block runs with the slot set to
        `role`; afterwards the slot holds the role observed before the call,
        whether the block raised and whatever it left in the slot. */
    method WithRole(role: string, block: Option<string> -> RoleExit) returns (raised: bool)
      modifies slot
      ensures slot.role == Some(old(CurrentRole()))
      ensures raised == block(Some(role)).raised
    {
      var saved := EnterRole(role);
      var exit := block(slot.role);
      slot.role := exit.slot;
      raised := exit.raised;
      SetRole(saved);
    }

    /** `with_master` */
    method WithMaster(block: Option<string> -> RoleExit) returns (raised: bool)
      modifies slot
      ensures slot.role == Some(old(CurrentRole()))
      ensures raised == block(Some("master")).raised
    {
      raised := WithRole("master", block);
    }

    /** `with_slave` */
    method WithSlave(block: Option<string> -> RoleExit) returns (raised: bool)
      modifies slot
      ensures slot.role == Some(old(CurrentRole()))
      ensures raised == block(Some("slave")).raised
    {
      raised := WithRole("slave", block);
    }

    /** `connection_name_builder`: built on the first call and kept. */
    method ConnectionNameBuilder() returns (cs: seq<Clause>)
      requires Valid()
      modifies this`builder
      ensures Valid()
      ensures cs == NameBuilder(options, Environment) && builder == Some(cs)
    {
      if builder.None? {
        builder := Some(NameBuilder(options, Environment));
      }
      cs := builder.value;
    }

    /** `connection_name`: the kept clause list joined with the shard map
        and role of this moment. Only the active-shard clause touches the
        shard context, and it may seed it, which does not change what the
        thread sees. */
    method ConnectionName() returns (r: Result<string>)
      requires Valid()
      modifies this`builder, shards
      ensures Valid()
      ensures r == ConnectionNames.ConnectionName(options, Environment, old(shards.Current()), old(CurrentRole()))
      ensures shards.Current() == old(shards.Current())
      ensures options.shardBy.None? ==> unchanged(shards)
    {
      var cs := ConnectionNameBuilder();
      if options.shardBy.Some? {
        shards.EnsureSetup();
      } else {
        ConnectionNameFollowsConvention(options, Environment, shards.shards, CurrentRole());
        ConnectionNameFollowsConvention(options, Environment, shards.Current(), CurrentRole());
      }
      r := match RenderAll(cs, shards.shards, CurrentRole())
        case Err(e) => Err(e)
        case Ok(parts) => Ok(Join(parts));
    }

    /** The pool lookup for `name` did what `Admit` says, with the driver
        and this proxy's `spec` changed exactly when a pool was created;
        a name that could not be built raised before the cache was touched. */
    twostate predicate ResolvedAs(name: Result<string>, configs: map<string, Driver.Config>, new r: Result<Driver.Pool>)
      reads this, registry, registry.driver
    {
      match name
      case Err(e) =>
        r == Err(e) && registry.pools == old(registry.pools) && registry.order == old(registry.order) &&
        registry.driver.created == old(registry.driver.created) &&
        registry.driver.calls == old(registry.driver.calls) && spec == old(spec)
      case Ok(n) =>
        (r, registry.pools) == Admit(old(registry.pools), old(registry.driver.created), configs, n) &&
        if registry.pools == old(registry.pools) then
          registry.order == old(registry.order) && registry.driver.created == old(registry.driver.created) &&
          registry.driver.calls == old(registry.driver.calls) && spec == old(spec)
        else
          registry.order == old(registry.order) + [n] &&
          registry.driver.created == old(registry.driver.created) + 1 &&
          registry.driver.calls == old(registry.driver.calls) + [Driver.Created(r.value)] &&
          spec == Some(configs[n])
    }

    /** `current_pool` (and `connection`, which is its pool's connection). */
    method CurrentPool(configs: map<string, Driver.Config>) returns (r: Result<Driver.Pool>)
      requires Valid() && registry.Valid()
      modifies this, shards, registry, registry.driver
      ensures Valid() && registry.Valid()
      ensures ResolvedAs(ConnectionNames.ConnectionName(options, Environment, old(shards.Current()), old(CurrentRole())), configs, r)
      ensures shards.Current() == old(shards.Current())
      ensures shardNames == old(shardNames)
    {
      var name := ConnectionName();
      if name.Err? {
        return Err(name.error);
      }
      var cached := name.value in registry.pools;
      r := registry.GetOrCreate(name.value, configs);
      if !cached && r.Ok? {
        spec := Some(configs[name.value]);
      }
    }

    /** `master`, the target of every delegated write and schema operation:
        the pool for the master name, with the role put back afterwards. */
    method Master(configs: map<string, Driver.Config>) returns (r: Result<Driver.Pool>)
      requires Valid() && registry.Valid()
      modifies this, slot, shards, registry, registry.driver
      ensures Valid() && registry.Valid()
      ensures ResolvedAs(ConnectionNames.ConnectionName(options, Environment, old(shards.Current()), "master"), configs, r)
      ensures slot.role == Some(old(CurrentRole()))
      ensures shards.Current() == old(shards.Current())
    {
      var saved := EnterRole("master");
      r := CurrentPool(configs);
      SetRole(saved);
    }

    /** `transaction { block }`: the master pool's transaction, the block
        seeing the master role; the role is put back afterwards, and a name
        or configuration that cannot be resolved raises before the block. */
    method Transaction(configs: map<string, Driver.Config>, block: Option<string> -> RoleExit)
      returns (target: Result<Driver.Pool>, raised: bool)
      requires Valid() && registry.Valid()
      modifies this, slot, shards, registry, registry.driver
      ensures Valid() && registry.Valid()
      ensures ResolvedAs(ConnectionNames.ConnectionName(options, Environment, old(shards.Current()), "master"), configs, target)
      ensures raised == (target.Err? || block(Some("master")).raised)
      ensures slot.role == Some(old(CurrentRole()))
      ensures shards.Current() == old(shards.Current())
    {
      var saved := EnterRole("master");
      target := CurrentPool(configs);
      raised := true;
      if target.Ok? {
        var exit := block(slot.role);
        slot.role := exit.slot;
        raised := exit.raised;
      }
      SetRole(saved);
    }

    /** A record's `reload`: a replicated model's reload is
        `reload_with_master`, which reads through the master pool and puts
        the role back; any other reads through the current role's pool. */
    method Reload(configs: map<string, Driver.Config>) returns (r: Result<Driver.Pool>)
      requires Valid() && registry.Valid()
      modifies this, slot, shards, registry, registry.driver
      ensures Valid() && registry.Valid()
      ensures ResolvedAs(ConnectionNames.ConnectionName(options, Environment, old(shards.Current()),
                                                        if options.replicated then "master" else old(CurrentRole())),
                         configs, r)
      ensures slot.role == if options.replicated then Some(old(CurrentRole())) else old(slot.role)
      ensures shards.Current() == old(shards.Current())
    {
      if options.replicated {
        r := Master(configs);
      } else {
        r := CurrentPool(configs);
      }
    }

    /** `shard_names` over the configuration names in key order: computed
        on the first call and kept, so every later call returns the first
        answer. Each value is a non-empty word without underscores. */
    method ShardNames(names: seq<string>) returns (r: seq<string>)
      requires Valid()
      modifies this`shardNames
      ensures Valid()
      ensures old(shardNames).Some? ==> r == old(shardNames).value && shardNames == old(shardNames)
      ensures old(shardNames).None? ==> r == ShardNamesOf(options, Environment, names) && shardNames == Some(r)
      ensures forall i | 0 <= i < |r| :: r[i] != [] && NoUnderscore(r[i])
    {
      if shardNames.None? {
        var found := ShardNamesOf(options, Environment, names);
        forall i | 0 <= i < |found|
          ensures found[i] != [] && NoUnderscore(found[i])
        {
          ShardNamesAreShardValues(options, Environment, names, found[i]);
        }
        shardNames := Some(found);
      }
      r := shardNames.value;
    }
  }

  /** `PoolProxy`: what the connection handler holds for a model. */
  class PoolProxy {
    const proxy: ConnectionProxy

    constructor(proxy: ConnectionProxy)
      ensures this.proxy == proxy
    {
      this.proxy := proxy;
    }

    /** `disconnect!`, `release_connection`, `clear_reloadable_connections!`,
        `clear_stale_cached_connections!`, `verify_active_connections!`:
        sent to every pool in the shared cache, not only this model's. */
    method Lifecycle(op: Driver.LifecycleOp)
      requires proxy.registry.Valid()
      modifies proxy.registry.driver`calls
      ensures proxy.registry.driver.calls ==
        old(proxy.registry.driver.calls) + LifecycleCalls(op, proxy.registry.order, proxy.registry.pools)
    {
      proxy.registry.Broadcast(op);
    }
  }

  /** A fresh thread with no shard defaults, an empty pool cache and an
      empty role slot. */
  method FreshThread() returns (slot: RoleSlot, shards: ShardContext.ThreadShards, registry: PoolRegistry)
    ensures fresh(slot) && fresh(shards) && fresh(registry) && fresh(registry.driver)
    ensures slot.role == None
    ensures shards.defaults == [] && !shards.initialised
    ensures registry.Valid() && registry.pools == map[] && registry.order == []
    ensures registry.driver.created == 0 && registry.driver.calls == []
  {
    var driver := new Driver.Driver();
    registry := new PoolRegistry(driver);
    slot := new RoleSlot();
    shards := new ShardContext.ThreadShards([]);
  }

  /** A model declared with `o` on a fresh thread: its constructor has
      run, the shard map is empty and so is the pool cache. */
  method NewModel(o: Options) returns (model: ConnectionProxy)
    ensures fresh(model) && fresh(model.slot) && fresh(model.shards) && fresh(model.registry) && fresh(model.registry.driver)
    ensures model.options == o && model.Valid() && model.registry.Valid()
    ensures model.shards.Current() == map[]
    ensures model.slot.role == if o.replicated then Some(DefaultRole(o)) else None
    ensures model.registry.pools == map[] && model.registry.order == []
    ensures model.registry.driver.created == 0 && model.registry.driver.calls == []
  {
    var slot, shards, registry := FreshThread();
    model := new ConnectionProxy(o, slot, shards, registry);
  }

  /** `PrefixModel` of test/connection_test.rb. */
  method PrefixScenario() returns (name: Result<string>)
    ensures name == Ok("prefix_test")
  {
    var model := NewModel(Options(false, None, Some(Str("prefix")), None));
    UnshardedNames(Environment, map[], model.CurrentRole(), Str("prefix"));
    assert "prefix" + "_" + "test" == "prefix_test";
    name := model.ConnectionName();
  }

  /** `ShardModel` of test/connection_test.rb: no name before activation,
      the shard's name inside it (activated alongside an unrelated group),
      and no name again once the block has left. */
  method ShardScenario() returns (unset: Result<string>, inside: Result<string>, after: Result<string>)
    ensures unset == Err(NoActiveShard("city"))
    ensures inside == Ok("city_austin_test")
    ensures after == Err(NoActiveShard("city"))
  {
    var o := Options(false, Some(Sym("city")), None, None);
    var model := NewModel(o);
    var shards := model.shards;
    ConnectionNameFollowsConvention(o, Environment, map[], model.CurrentRole());
    unset := model.ConnectionName();
    var pairs := [(Sym("city"), Str("austin")), (Sym("category"), Str("art"))];
    var before := shards.Activate(pairs);
    assert before == map[];
    ShardContext.OverlayAt(before, pairs, 0);
    var active := shards.Current();
    assert "city" in active && active["city"] == "austin";
    ShardedName(Environment, active, model.CurrentRole(), Sym("city"));
    assert ConnectionNames.ConnectionName(o, Environment, active, model.CurrentRole()) == Ok("city_austin_test") by {
      assert "city" + "_" + "austin" == "city_austin";
      assert "city_austin" + "_" + "test" == "city_austin_test";
    }
    inside := model.ConnectionName();
    assert inside == Ok("city_austin_test");
    shards.Restore(before);
    after := model.ConnectionName();
  }

  /** A database.yml entry as test/connection_test.rb sets one up. */
  function TestConfig(name: string): Driver.Config {
    map["adapter" := Driver.Text("mysql2"), "database" := Driver.Text(name), "host" := Driver.Text("localhost")]
  }

  /** The two names of `TheWholeEnchilada` while Dallas is active. */
  lemma EnchiladaNames(m: ShardContext.ShardMap)
    requires "city" in m && m["city"] == "dallas"
    ensures ConnectionNames.ConnectionName(Options(true, Some(Sym("city")), Some(Str("fiveruns")), None), Environment, m, "slave")
      == Ok("fiveruns_city_dallas_test_slave")
    ensures ConnectionNames.ConnectionName(Options(true, Some(Sym("city")), Some(Str("fiveruns")), None), Environment, m, "master")
      == Ok("fiveruns_city_dallas_test_master")
  {
    FullName(Environment, m, "slave", Sym("city"), Str("fiveruns"));
    FullName(Environment, m, "master", Sym("city"), Str("fiveruns"));
    assert "fiveruns" + "_" + "city" + "_" + "dallas" + "_" + "test" + "_" + "slave" == "fiveruns_city_dallas_test_slave" by {
      assert "fiveruns" + "_" + "city" == "fiveruns_city";
      assert "fiveruns_city" + "_" + "dallas" == "fiveruns_city_dallas";
      assert "fiveruns_city_dallas" + "_" + "test" == "fiveruns_city_dallas_test";
      assert "fiveruns_city_dallas_test" + "_" + "slave" == "fiveruns_city_dallas_test_slave";
    }
    assert "fiveruns" + "_" + "city" + "_" + "dallas" + "_" + "test" + "_" + "master" == "fiveruns_city_dallas_test_master" by {
      assert "fiveruns" + "_" + "city" == "fiveruns_city";
      assert "fiveruns_city" + "_" + "dallas" == "fiveruns_city_dallas";
      assert "fiveruns_city_dallas" + "_" + "test" == "fiveruns_city_dallas_test";
      assert "fiveruns_city_dallas_test" + "_" + "master" == "fiveruns_city_dallas_test_master";
    }
  }

  /** The first steps of test_enchilada for any replicated proxy whose
      slave and master names are `slave` and `master`, from an empty
      cache with the slave role set: the name, a read, a reload. */
  method EnchiladaReads(model: ConnectionProxy, configs: map<string, Driver.Config>, slave: string, master: string)
    returns (name: Result<string>, read: Result<Driver.Pool>, reloaded: Result<Driver.Pool>)
    requires model.Valid() && model.registry.Valid() && model.options.replicated && model.slot.role == Some("slave")
    requires ConnectionNames.ConnectionName(model.options, Environment, model.shards.Current(), "slave") == Ok(slave)
    requires ConnectionNames.ConnectionName(model.options, Environment, model.shards.Current(), "master") == Ok(master)
    requires slave != master && slave in configs && master in configs
    requires model.registry.pools == map[] && model.registry.order == []
    requires model.registry.driver.created == 0 && model.registry.driver.calls == []
    modifies model, model.slot, model.shards, model.registry, model.registry.driver
    ensures model.Valid() && model.registry.Valid()
    ensures model.slot.role == Some("slave") && model.shards.Current() == old(model.shards.Current())
    ensures name == Ok(slave)
    ensures read == Ok(Driver.Pool(0, configs[slave]))
    ensures reloaded == Ok(Driver.Pool(1, configs[master]))
    ensures model.registry.pools == map[slave := read.value, master := reloaded.value]
    ensures model.registry.order == [slave, master]
    ensures model.registry.driver.created == 2
    ensures model.registry.driver.calls == [Driver.Created(read.value), Driver.Created(reloaded.value)]
  {
    name := model.ConnectionName();
    read := model.CurrentPool(configs);
    assert read == Ok(Driver.Pool(0, configs[slave]));
    reloaded := EnchiladaReload(model, configs, slave, master, read.value);
  }

  /** The reload of test_enchilada, with the slave's pool `sp` already cached. */
  method EnchiladaReload(model: ConnectionProxy, configs: map<string, Driver.Config>, slave: string, master: string,
                         sp: Driver.Pool)
    returns (reloaded: Result<Driver.Pool>)
    requires model.Valid() && model.registry.Valid() && model.options.replicated && model.slot.role == Some("slave")
    requires ConnectionNames.ConnectionName(model.options, Environment, model.shards.Current(), "master") == Ok(master)
    requires slave != master && master in configs
    requires model.registry.pools == map[slave := sp] && model.registry.order == [slave]
    requires model.registry.driver.created == 1 && model.registry.driver.calls == [Driver.Created(sp)]
    modifies model, model.slot, model.shards, model.registry, model.registry.driver
    ensures model.Valid() && model.registry.Valid()
    ensures model.slot.role == Some("slave") && model.shards.Current() == old(model.shards.Current())
    ensures reloaded == Ok(Driver.Pool(1, configs[master]))
    ensures model.registry.pools == map[slave := sp, master := reloaded.value]
    ensures model.registry.order == [slave, master]
    ensures model.registry.driver.created == 2
    ensures model.registry.driver.calls == [Driver.Created(sp), Driver.Created(reloaded.value)]
  {
    reloaded := model.Reload(configs);
  }

  /** The later steps of test_enchilada: the name is the slave's again, a
      transaction reuses the cached master pool, and
      `verify_active_connections!` reaches both pools in order. */
  method EnchiladaWrites(model: ConnectionProxy, configs: map<string, Driver.Config>, slave: string, master: string,
                         sp: Driver.Pool, mp: Driver.Pool, before: seq<Driver.Call>)
    returns (nameAfter: Result<string>, saved: Result<Driver.Pool>)
    requires model.Valid() && model.registry.Valid() && model.options.replicated && model.slot.role == Some("slave")
    requires ConnectionNames.ConnectionName(model.options, Environment, model.shards.Current(), "slave") == Ok(slave)
    requires ConnectionNames.ConnectionName(model.options, Environment, model.shards.Current(), "master") == Ok(master)
    requires model.registry.order == [slave, master] && slave != master
    requires model.registry.pools == map[slave := sp, master := mp]
    requires model.registry.driver.calls == before
    modifies model, model.slot, model.shards, model.registry, model.registry.driver
    ensures nameAfter == Ok(slave)
    ensures saved == Ok(mp)
    ensures model.registry.driver.calls ==
      before + [Driver.Lifecycle(Driver.VerifyActiveConnections, sp), Driver.Lifecycle(Driver.VerifyActiveConnections, mp)]
  {
    nameAfter := model.ConnectionName();
    var raised;
    saved, raised := model.Transaction(configs, (r: Option<string>) => RoleExit(r, false));
    var op := Driver.VerifyActiveConnections;
    LifecycleCallsOfTwo(op, slave, master, model.registry.pools);
    var handle := new PoolProxy(model);
    handle.Lifecycle(op);
  }

  /** The model of `TheWholeEnchilada` on a fresh thread, inside
      `activate_shard :city => :dallas`. */
  method EnchiladaModel() returns (model: ConnectionProxy)
    ensures fresh(model) && fresh(model.slot) && fresh(model.shards) && fresh(model.registry) && fresh(model.registry.driver)
    ensures model.Valid() && model.registry.Valid() && model.options.replicated && model.slot.role == Some("slave")
    ensures ConnectionNames.ConnectionName(model.options, Environment, model.shards.Current(), "slave")
      == Ok("fiveruns_city_dallas_test_slave")
    ensures ConnectionNames.ConnectionName(model.options, Environment, model.shards.Current(), "master")
      == Ok("fiveruns_city_dallas_test_master")
    ensures model.registry.pools == map[] && model.registry.order == []
    ensures model.registry.driver.created == 0 && model.registry.driver.calls == []
  {
    model := NewModel(Options(true, Some(Sym("city")), Some(Str("fiveruns")), None));
    var shards := model.shards;
    var pairs := [(Sym("city"), Sym("dallas"))];
    var before := shards.Activate(pairs);
    ShardContext.OverlayAt(before, pairs, 0);
    EnchiladaNames(shards.Current());
  }

  /** `TheWholeEnchilada` of test/connection_test.rb, inside
      `activate_shard :city => :dallas`: reads go to the slave pool, a
      reload goes to the master pool and then the name is the slave's
      again, a transaction reuses the cached master pool, and
      `verify_active_connections!` reaches both cached pools in order. */
  method EnchiladaScenario(slaveConfig: Driver.Config, masterConfig: Driver.Config)
    returns (name: Result<string>, read: Result<Driver.Pool>, reloaded: Result<Driver.Pool>,
             nameAfter: Result<string>, saved: Result<Driver.Pool>, calls: seq<Driver.Call>)
    ensures name == Ok("fiveruns_city_dallas_test_slave")
    ensures read == Ok(Driver.Pool(0, slaveConfig))
    ensures reloaded == Ok(Driver.Pool(1, masterConfig))
    ensures nameAfter == name
    ensures saved == reloaded
    ensures calls == [Driver.Created(read.value), Driver.Created(reloaded.value),
                      Driver.Lifecycle(Driver.VerifyActiveConnections, read.value),
                      Driver.Lifecycle(Driver.VerifyActiveConnections, reloaded.value)]
  {
    var slave, master := "fiveruns_city_dallas_test_slave", "fiveruns_city_dallas_test_master";
    assert slave != master by {
      assert slave[26] == 's' && master[26] == 'm';
    }
    var configs := map[slave := slaveConfig, master := masterConfig];
    var model := EnchiladaModel();
    var registry := model.registry;
    name, read, reloaded := EnchiladaReads(model, configs, slave, master);
    var c1, c2 := Driver.Created(read.value), Driver.Created(reloaded.value);
    var v1 := Driver.Lifecycle(Driver.VerifyActiveConnections, read.value);
    var v2 := Driver.Lifecycle(Driver.VerifyActiveConnections, reloaded.value);
    nameAfter, saved := EnchiladaWrites(model, configs, slave, master, read.value, reloaded.value, [c1, c2]);
    calls := registry.driver.calls;
    assert calls == [c1, c2] + [v1, v2];
  }

  /** The steps of test_with_master_can_be_nested for any two proxies on
      one thread whose master names are `m1` and `m2`, with the first
      model's slave name `s1`. */
  method NestedMasterSteps(first: ConnectionProxy, second: ConnectionProxy, m1: string, m2: string, s1: string)
    returns (outer: Result<string>, inner: Result<string>, other: Result<string>, after: Result<string>)
    requires first.Valid() && second.Valid()
    requires first != second && second.slot == first.slot && second.shards == first.shards
    requires first.slot.role == Some("slave")
    requires ConnectionNames.ConnectionName(first.options, Environment, first.shards.Current(), "master") == Ok(m1)
    requires ConnectionNames.ConnectionName(first.options, Environment, first.shards.Current(), "slave") == Ok(s1)
    requires ConnectionNames.ConnectionName(second.options, Environment, first.shards.Current(), "master") == Ok(m2)
    modifies first, second, first.slot, first.shards
    ensures outer == Ok(m1) && inner == Ok(m1) && other == Ok(m2) && after == Ok(s1)
  {
    var m := first.shards.Current();
    var outerSaved := first.EnterRole("master");
    outer := first.ConnectionName();
    assert first.shards.Current() == m && second.Valid();
    var innerSaved := first.EnterRole("master");
    inner := first.ConnectionName();
    assert first.shards.Current() == m && second.Valid();
    first.SetRole(innerSaved);
    var otherSaved := second.EnterRole("master");
    other := second.ConnectionName();
    assert first.shards.Current() == m && first.Valid();
    second.SetRole(otherSaved);
    first.SetRole(outerSaved);
    assert first.slot.role == Some("slave");
    after := first.ConnectionName();
  }

  /** test_with_master_can_be_nested of test/dynamic_switching_test.rb:
      two replicated models share the thread's role slot; a `with_master`
      nested in another, and one for the other model, each leave the
      master role in place for the enclosing block, and once the outer
      block has left the models read from the slave again. */
  method NestedMasterScenario() returns (outer: Result<string>, inner: Result<string>,
                                         other: Result<string>, after: Result<string>)
    ensures outer == Ok("test_master") && inner == outer && other == outer
    ensures after == Ok("test_slave")
  {
    var slot, shards, registry := FreshThread();
    var o := Options(true, None, None, None);
    var replicate := new ConnectionProxy(o, slot, shards, registry);
    var another := new ConnectionProxy(o, slot, shards, registry);
    var m := shards.Current();
    UnshardedNames(Environment, m, "master", Str(""));
    UnshardedNames(Environment, m, "slave", Str(""));
    assert ConnectionNames.ConnectionName(o, Environment, m, "master") == Ok("test_master") by {
      assert "test" + "_" + "master" == "test_master";
    }
    assert ConnectionNames.ConnectionName(o, Environment, m, "slave") == Ok("test_slave") by {
      assert "test" + "_" + "slave" == "test_slave";
    }
    outer, inner, other, after := NestedMasterSteps(replicate, another, "test_master", "test_master", "test_slave");
  }

  /** The steps of the pool-cache scenario for any proxy whose name is
      `name`, from an empty cache. */
  method PoolCacheSteps(model: ConnectionProxy, name: string, config: Driver.Config)
    returns (missing: Result<Driver.Pool>, cachedAfterMiss: nat,
             first: Result<Driver.Pool>, second: Result<Driver.Pool>, created: nat)
    requires model.Valid() && model.registry.Valid()
    requires model.registry.pools == map[] && model.registry.driver.created == 0
    requires ConnectionNames.ConnectionName(model.options, Environment, model.shards.Current(), model.CurrentRole()) == Ok(name)
    modifies model, model.shards, model.registry, model.registry.driver
    ensures missing == Err(UnknownDatabaseConfig(name)) && cachedAfterMiss == 0
    ensures first == Ok(Driver.Pool(0, config)) && second == first
    ensures created == 1
  {
    missing := model.CurrentPool(map[]);
    cachedAfterMiss := |model.registry.pools|;
    var configs := map[name := config];
    first := model.CurrentPool(configs);
    second := model.CurrentPool(configs);
    created := model.registry.driver.created;
  }

  /** The pool cache as `current_pool` fills it: a name without a
      configuration raises and caches nothing; once configured, the first
      lookup creates the pool and the second returns it without creating
      another. */
  method PoolCacheScenario() returns (missing: Result<Driver.Pool>, cachedAfterMiss: nat,
                                      first: Result<Driver.Pool>, second: Result<Driver.Pool>, created: nat)
    ensures missing == Err(UnknownDatabaseConfig("test_slave")) && cachedAfterMiss == 0
    ensures first == Ok(Driver.Pool(0, TestConfig("test_slave"))) && second == first
    ensures created == 1
  {
    var model := NewModel(Options(true, None, None, None));
    UnshardedNames(Environment, map[], "slave", Str(""));
    assert "test" + "_" + "slave" == "test_slave";
    missing, cachedAfterMiss, first, second, created := PoolCacheSteps(model, "test_slave", TestConfig("test_slave"));
  }
}
