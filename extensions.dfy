/** lib/data_fabric/extensions.rb: the connection handler's
    `clear_active_connections!` extended over the shared pool cache, the
    registration of a model's proxy by `data_fabric`, `with_master` on a
    model class, and the older singleton `DataFabricInterval` and
    `DataFabricStatus`, whose lag check connects ActiveRecord::Base itself
    to the slave entry. */
module Extensions {
  import opened Base
  import Driver
  import opened ReplicaLag
  import ShardContext
  import ConnectionNames
  import Routing

  /** `ActiveRecord::ConnectionAdapters::ConnectionHandler` as data_fabric
      sees it: the proxies registered by model class name, the shared pool
      cache, and the thread whose role slot and shard map the proxies use. */
  class ConnectionHandler {
    var connectionPools: map<string, Routing.PoolProxy>
    /** `ConnectionProxy.shard_pools` */
    const registry: Routing.PoolRegistry
    const slot: Routing.RoleSlot
    const shards: ShardContext.ThreadShards

    /** Every registered proxy uses this handler's thread and pool cache. */
    ghost predicate Valid()
      reads this
    {
      forall m | m in connectionPools ::
        connectionPools[m].proxy.slot == slot && connectionPools[m].proxy.shards == shards &&
        connectionPools[m].proxy.registry == registry
    }

    constructor(registry: Routing.PoolRegistry, slot: Routing.RoleSlot, shards: ShardContext.ThreadShards)
      ensures connectionPools == map[] && this.registry == registry && this.slot == slot && this.shards == shards
      ensures Valid()
    {
      connectionPools := map[];
      this.registry := registry;
      this.slot := slot;
      this.shards := shards;
    }

    /** `clear_active_connections_with_data_fabric!`: ActiveRecord's own
        clear first, then `release_connection` on every cached pool, in
        the order the pools were cached. */
    method ClearActiveConnections()
      requires registry.Valid()
      modifies registry.driver`calls
      ensures registry.driver.calls == old(registry.driver.calls) + [Driver.HandlerClearActiveConnections] +
        Routing.LifecycleCalls(Driver.ReleaseConnection, registry.order, registry.pools)
    {
      registry.driver.ClearActiveConnections();
      registry.Broadcast(Driver.ReleaseConnection);
    }

    /** `Extensions.included`: the pool cache starts empty. */
    method Included()
      modifies registry
      ensures registry.pools == map[] && registry.order == [] && registry.Valid()
    {
      registry.Reset();
    }

    /** `data_fabric(options)` on the model class named `model`: a new
        proxy for the class replaces whatever was registered under its name. */
    method DataFabric(model: string, options: ConnectionNames.Options) returns (proxy: Routing.PoolProxy)
      requires Valid()
      modifies this, slot
      ensures Valid()
      ensures fresh(proxy) && fresh(proxy.proxy)
      ensures connectionPools == old(connectionPools)[model := proxy]
      ensures proxy.proxy.options == options && proxy.proxy.Valid()
      ensures proxy.proxy.builder.None? && proxy.proxy.shardNames.None? && proxy.proxy.spec.None?
      ensures options.replicated ==> slot.role == Some(ConnectionNames.DefaultRole(options))
      ensures !options.replicated ==> slot.role == old(slot.role)
    {
      var routing := new Routing.ConnectionProxy(options, slot, shards, registry);
      proxy := new Routing.PoolProxy(routing);
      connectionPools := connectionPools[model := proxy];
    }

    /** `with_master { block }` on the model class named `model`: the
        registered proxy's `with_master`; a class that never called
        `data_fabric` has no proxy, and the call raises. */
    method WithMaster(model: string, block: Option<string> -> Routing.RoleExit) returns (r: Result<bool>)
      requires Valid()
      modifies slot
      ensures model !in connectionPools ==> r == Err(NoProxyFor(model)) && slot.role == old(slot.role)
      ensures model in connectionPools ==>
        r == Ok(block(Some("master")).raised) &&
        slot.role == Some(ConnectionNames.RoleOf(old(slot.role), connectionPools[model].proxy.options))
    {
      if model !in connectionPools {
        return Err(NoProxyFor(model));
      }
      var raised := connectionPools[model].proxy.WithMaster(block);
      r := Ok(raised);
    }
  }

  /** `ActiveRecord::Base`'s own connection: the entry it was last
      connected to with `establish_connection`. */
  class BaseConnection {
    var established: Option<string>

    constructor(established: Option<string>)
      ensures this.established == established
    {
      this.established := established;
    }
  }

  /** The lag this version's `seconds_behind` reports: an unconfigured
      slave entry cannot be connected to, a non-MySQL adapter has no lag,
      and otherwise the query decides. */
  function BaseLag(configs: map<string, Driver.Config>, adapter: string, query: Driver.QueryOutcome): (r: Result<nat>)
    ensures r.Err? <==> SlaveName !in configs || (IsMysqlAdapter(adapter) && query.Raised?)
    ensures SlaveName !in configs ==> r == Err(DatabaseNotConfigured(SlaveName))
    ensures SlaveName in configs && !IsMysqlAdapter(adapter) ==> r == Ok(0)
    ensures r.Ok? ==> r.value <= 9
  {
    if SlaveName !in configs then Err(DatabaseNotConfigured(SlaveName))
    else if !IsMysqlAdapter(adapter) then Ok(0)
    else QueryLag(query)
  }

  /** `DataFabricInterval` of this file, one instance per process. */
  class DataFabricInterval {
    var lastChecked: int
    const checkInterval: Driver.Setting
    const threshold: Driver.Setting
    const base: BaseConnection

    /** `initialize` at time `now` with the parsed database.yml: both
        settings come from the slave entry and default to 5. */
    constructor(settings: map<string, Driver.Config>, now: int, base: BaseConnection)
      ensures lastChecked == now && this.base == base
      ensures checkInterval == SlaveSetting(settings, "check_interval")
      ensures threshold == SlaveSetting(settings, "delay_threshold")
    {
      lastChecked := now;
      this.base := base;
      checkInterval := SlaveSetting(settings, "check_interval");
      threshold := SlaveSetting(settings, "delay_threshold");
    }

    /** `check_server?` at time `now` */
    method CheckServer(now: int) returns (r: Result<bool>)
      modifies this
      ensures r == Due(now, old(lastChecked), checkInterval)
      ensures lastChecked == if r == Ok(true) then now else old(lastChecked)
    {
      r := Due(now, lastChecked, checkInterval);
      if r == Ok(true) {
        lastChecked := now;
      }
    }

    /** `seconds_behind`, with `adapter` the adapter name of the slave
        entry's connections: ActiveRecord::Base is connected to the slave
        entry, and stays connected to it afterwards. */
    method SecondsBehind(configs: map<string, Driver.Config>, adapter: string, query: Driver.QueryOutcome)
      returns (r: Result<nat>)
      modifies base
      ensures r == BaseLag(configs, adapter, query)
      ensures base.established == if SlaveName in configs then Some(SlaveName) else old(base.established)
    {
      if SlaveName !in configs {
        return Err(DatabaseNotConfigured(SlaveName));
      }
      base.established := Some(SlaveName);
      if !IsMysqlAdapter(adapter) {
        return Ok(0);
      }
      r := QueryLag(query);
    }

    /** `behind?` */
    method IsBehind(configs: map<string, Driver.Config>, adapter: string, query: Driver.QueryOutcome)
      returns (r: Result<bool>)
      modifies base
      ensures r == Behind(BaseLag(configs, adapter, query), threshold)
      ensures base.established == if SlaveName in configs then Some(SlaveName) else old(base.established)
    {
      var lag := SecondsBehind(configs, adapter, query);
      r := Behind(lag, threshold);
    }
  }

  /** `DataFabricStatus` of this file. */
  class DataFabricStatus {
    var master: bool
    /** `DataFabricInterval.instance` */
    const interval: DataFabricInterval

    constructor(interval: DataFabricInterval)
      ensures !master && this.interval == interval
    {
      master := false;
      this.interval := interval;
    }

    /** `master?`: the stored decision. */
    function IsMaster(): (r: bool)
      reads this
      ensures r == master
    {
      master
    }

    /** `update_status` at time `now`: inside the interval the decision
        sticks and nothing connects; once it has elapsed the decision
        becomes `behind?`. */
    method UpdateStatus(now: int, configs: map<string, Driver.Config>, adapter: string, query: Driver.QueryOutcome)
      returns (raised: Option<Error>)
      modifies this, interval, interval.base
      ensures interval.lastChecked ==
        if Due(now, old(interval.lastChecked), interval.checkInterval) == Ok(true) then now else old(interval.lastChecked)
      ensures Due(now, old(interval.lastChecked), interval.checkInterval).Err? ==>
        raised == Some(NotANumber) && master == old(master)
      ensures Due(now, old(interval.lastChecked), interval.checkInterval) == Ok(false) ==>
        raised == None && master == old(master)
      ensures Due(now, old(interval.lastChecked), interval.checkInterval) != Ok(true) ==>
        interval.base.established == old(interval.base.established)
      ensures Due(now, old(interval.lastChecked), interval.checkInterval) == Ok(true) ==>
        interval.base.established == if SlaveName in configs then Some(SlaveName) else old(interval.base.established)
      ensures Due(now, old(interval.lastChecked), interval.checkInterval) == Ok(true) ==>
        match Behind(BaseLag(configs, adapter, query), interval.threshold)
        case Err(e) => raised == Some(e) && master == old(master)
        case Ok(b) => raised == None && master == b
    {
      var due := interval.CheckServer(now);
      if due.Err? {
        return Some(due.error);
      }
      if !due.value {
        return None;
      }
      var behind := interval.IsBehind(configs, adapter, query);
      if behind.Err? {
        return Some(behind.error);
      }
      master := behind.value;
      raised := None;
    }
  }

  /** The lag check leaves ActiveRecord::Base on the slave: a class
      connected to the master before a check is connected to the slave
      after it. */
  method BaseConnectionScenario(config: Driver.Config) returns (before: Option<string>, after: Option<string>, lag: Result<nat>)
    ensures before == Some("test_master") && after == Some("test_slave") && lag == Ok(0)
  {
    var base := new BaseConnection(Some("test_master"));
    var checker := new DataFabricInterval(map[], 0, base);
    before := base.established;
    MysqlAdapterNames();
    assert SlaveName == "test_slave";
    lag := checker.SecondsBehind(map["test_slave" := config], "SQLite", Driver.Raised);
    after := base.established;
  }

  /** Registration: `with_master` on a class that never called
      `data_fabric` raises; once registered, the block sees the master
      role, and the thread's role is the slave again afterwards. */
  method RegistrationScenario() returns (unknown: Result<bool>, known: Result<bool>, role: Option<string>)
    ensures unknown == Err(NoProxyFor("ReplicateModel"))
    ensures known == Ok(false) && role == Some("slave")
  {
    var driver := new Driver.Driver();
    var registry := new Routing.PoolRegistry(driver);
    var slot := new Routing.RoleSlot();
    var shards := new ShardContext.ThreadShards([]);
    var handler := new ConnectionHandler(registry, slot, shards);
    handler.Included();
    var block := (r: Option<string>) => Routing.RoleExit(r, r != Some("master"));
    unknown := handler.WithMaster("ReplicateModel", block);
    var proxy := handler.DataFabric("ReplicateModel", ConnectionNames.Options(true, None, None, None));
    known := handler.WithMaster("ReplicateModel", block);
    role := slot.role;
  }
}
