/** lib/data_fabric/interval.rb: the singleton `DataFabricInterval`, which
    rate-limits the lag check, reads its two settings from the slave entry
    of the parsed database.yml, and reads the lag over a connection pool it
    opens anew for every use. */
module Interval {
  import opened Base
  import Driver
  import opened ReplicaLag
  import ConnectionNames
  import ShardContext

  /** `name`: the environment's slave entry. */
  function Name(): (r: string)
    ensures r == Environment + "_slave"
  {
    SlaveName
  }

  /** The entry the checker reads is the one a replicated, unsharded model
      with no prefix resolves to in the slave role, whatever shards are
      active. */
  lemma NameIsReplicatedSlaveName(m: ShardContext.ShardMap)
    ensures ConnectionNames.ConnectionName(ConnectionNames.Options(true, None, None, None), Environment, m, "slave")
      == Ok(Name())
    ensures Name() == "test_slave"
  {
    ConnectionNames.UnshardedNames(Environment, m, "slave", Str(""));
    assert Environment + "_" + "slave" == Environment + "_slave";
  }

  /** The lag `seconds_behind` reports, given the configurations, the
      adapter name of the slave pool's connections and what the status
      query does: an unknown slave entry raises, a non-MySQL adapter has
      no lag, and otherwise the query decides. */
  function SlaveLag(configs: map<string, Driver.Config>, adapter: string, query: Driver.QueryOutcome): (r: Result<nat>)
    ensures r.Err? <==> Name() !in configs || (IsMysqlAdapter(adapter) && query.Raised?)
    ensures Name() !in configs ==> r == Err(UnknownDatabaseConfig(Name()))
    ensures Name() in configs && !IsMysqlAdapter(adapter) ==> r == Ok(0)
    ensures r.Ok? ==> r.value <= 9
  {
    if Name() !in configs then Err(UnknownDatabaseConfig(Name()))
    else if !IsMysqlAdapter(adapter) then Ok(0)
    else QueryLag(query)
  }

  /** The driver calls of one `seconds_behind`, with `created` pools made
      before it: nothing without a slave entry, one new pool on it for a
      non-MySQL adapter, and a second one for the MySQL query. No pool is
      cached or released. */
  function SlavePoolCalls(created: nat, configs: map<string, Driver.Config>, adapter: string): (r: seq<Driver.Call>)
    ensures |r| == if Name() !in configs then 0 else if !IsMysqlAdapter(adapter) then 1 else 2
    ensures forall k | 0 <= k < |r| :: r[k] == Driver.Created(Driver.Pool(created + k, configs[Name()]))
  {
    if Name() !in configs then []
    else if !IsMysqlAdapter(adapter) then [Driver.Created(Driver.Pool(created, configs[Name()]))]
    else [Driver.Created(Driver.Pool(created, configs[Name()])), Driver.Created(Driver.Pool(created + 1, configs[Name()]))]
  }

  /** `DataFabricInterval`, one instance per process. */
  class DataFabricInterval {
    var lastChecked: int
    const checkInterval: Driver.Setting
    const threshold: Driver.Setting
    /** `ConnectionPool.new`, through which every slave pool is opened */
    const driver: Driver.Driver

    /** `initialize` at time `now` with the parsed database.yml: both
        settings come from the slave entry and default to 5. */
    constructor(settings: map<string, Driver.Config>, now: int, driver: Driver.Driver)
      ensures lastChecked == now && this.driver == driver
      ensures checkInterval == SlaveSetting(settings, "check_interval")
      ensures threshold == SlaveSetting(settings, "delay_threshold")
    {
      lastChecked := now;
      this.driver := driver;
      checkInterval := SlaveSetting(settings, "check_interval");
      threshold := SlaveSetting(settings, "delay_threshold");
    }

    /** `check_server?` at time `now` */
    method CheckServer(now: int) returns (r: Result<bool>)
      modifies this
      ensures r == Due(now, old(lastChecked), checkInterval)
      ensures lastChecked == if r == Ok(true) then now else old(lastChecked)
    {
      r := Due(now, lastChecked, checkInterval);
      if r == Ok(true) {
        lastChecked := now;
      }
    }

    /** `slave_pool`: an unknown slave entry raises ArgumentError; otherwise
        a new pool, distinct from every pool before it, on every call. */
    method SlavePool(configs: map<string, Driver.Config>) returns (r: Result<Driver.Pool>)
      modifies driver
      ensures Name() !in configs ==>
        r == Err(UnknownDatabaseConfig(Name())) && driver.created == old(driver.created) && driver.calls == old(driver.calls)
      ensures Name() in configs ==>
        r == Ok(Driver.Pool(old(driver.created), configs[Name()])) && driver.created == old(driver.created) + 1 &&
        driver.calls == old(driver.calls) + [Driver.Created(r.value)]
    {
      if Name() !in configs {
        return Err(UnknownDatabaseConfig(Name()));
      }
      var p := driver.NewPool(configs[Name()]);
      r := Ok(p);
    }

    /** `seconds_behind`, with `adapter` the adapter name of the slave
        pool's connections: one pool is opened to read the adapter name,
        and a second one for the query. */
    method SecondsBehind(configs: map<string, Driver.Config>, adapter: string, query: Driver.QueryOutcome)
      returns (r: Result<nat>)
      modifies driver
      ensures r == SlaveLag(configs, adapter, query)
      ensures driver.created == old(driver.created) + |SlavePoolCalls(old(driver.created), configs, adapter)|
      ensures driver.calls == old(driver.calls) + SlavePoolCalls(old(driver.created), configs, adapter)
    {
      var first := SlavePool(configs);
      if first.Err? {
        return Err(first.error);
      }
      if !IsMysqlAdapter(adapter) {
        return Ok(0);
      }
      var second := SlavePool(configs);
      r := QueryLag(query);
    }

    /** `behind?`: the lag compared strictly with the threshold. */
    method IsBehind(configs: map<string, Driver.Config>, adapter: string, query: Driver.QueryOutcome)
      returns (r: Result<bool>)
      modifies driver
      ensures r == Behind(SlaveLag(configs, adapter, query), threshold)
      ensures driver.created == old(driver.created) + |SlavePoolCalls(old(driver.created), configs, adapter)|
      ensures driver.calls == old(driver.calls) + SlavePoolCalls(old(driver.created), configs, adapter)
    {
      var lag := SecondsBehind(configs, adapter, query);
      r := Behind(lag, threshold);
    }
  }

  /** The settings the tests put in the slave entry are the ones read; an
      entry without them, or no entry, gives 5 and 5. */
  method SettingsScenario()
    returns (interval: Driver.Setting, threshold: Driver.Setting, bareInterval: Driver.Setting, bareThreshold: Driver.Setting)
    ensures interval == Driver.Number(10) && threshold == Driver.Number(3)
    ensures bareInterval == Driver.Number(5) && bareThreshold == Driver.Number(5)
  {
    NameIsReplicatedSlaveName(map[]);
    var driver := new Driver.Driver();
    var read := new DataFabricInterval(map["test_slave" := map["check_interval" := Driver.Number(10),
                                                              "delay_threshold" := Driver.Number(3)]], 0, driver);
    interval, threshold := read.checkInterval, read.threshold;
    var bare := new DataFabricInterval(map["test_master" := map[]], 0, driver);
    bareInterval, bareThreshold := bare.checkInterval, bare.threshold;
  }

  /** `slave_pool` keeps nothing: two calls open two different pools, and
      without a slave entry it raises. */
  method SlavePoolScenario(config: Driver.Config) returns (missing: Result<Driver.Pool>,
                                                           first: Result<Driver.Pool>, second: Result<Driver.Pool>)
    ensures missing == Err(UnknownDatabaseConfig("test_slave"))
    ensures first.Ok? && second.Ok? && first.value != second.value
    ensures first.value.config == config && second.value.config == config
  {
    NameIsReplicatedSlaveName(map[]);
    var driver := new Driver.Driver();
    var checker := new DataFabricInterval(map[], 0, driver);
    missing := checker.SlavePool(map[]);
    first := checker.SlavePool(map["test_slave" := config]);
    second := checker.SlavePool(map["test_slave" := config]);
  }
}
