/** lib/data_fabric/status.rb: the singleton `DataFabricStatus`, the
    decision whether reads go to the master, refreshed through the
    `DataFabricInterval` of lib/data_fabric/interval.rb. */
module Status {
  import opened Base
  import Driver
  import opened ReplicaLag
  import Interval

  class DataFabricStatus {
    var master: bool
    /** `DataFabricInterval.instance` */
    const interval: Interval.DataFabricInterval

    /** `initialize`: reads start on the slave. */
    constructor(interval: Interval.DataFabricInterval)
      ensures !master && this.interval == interval
    {
      master := false;
      this.interval := interval;
    }

    /** `master?`: the stored decision. */
    function IsMaster(): (r: bool)
      reads this
      ensures r == master
    {
      master
    }

    /** `update_status` at time `now`: inside the interval nothing is read
        and the last decision sticks; once it has elapsed the decision
        becomes `behind?`. An exception out of the gate or the lag check
        leaves the decision as it was. */
    method UpdateStatus(now: int, configs: map<string, Driver.Config>, adapter: string, query: Driver.QueryOutcome)
      returns (raised: Option<Error>)
      modifies this, interval, interval.driver
      ensures interval.lastChecked ==
        if Due(now, old(interval.lastChecked), interval.checkInterval) == Ok(true) then now else old(interval.lastChecked)
      ensures Due(now, old(interval.lastChecked), interval.checkInterval).Err? ==>
        raised == Some(NotANumber) && master == old(master)
      ensures Due(now, old(interval.lastChecked), interval.checkInterval) == Ok(false) ==>
        raised == None && master == old(master)
      ensures Due(now, old(interval.lastChecked), interval.checkInterval) != Ok(true) ==>
        interval.driver.created == old(interval.driver.created) && interval.driver.calls == old(interval.driver.calls)
      ensures Due(now, old(interval.lastChecked), interval.checkInterval) == Ok(true) ==>
        var made := Interval.SlavePoolCalls(old(interval.driver.created), configs, adapter);
        interval.driver.created == old(interval.driver.created) + |made| &&
        interval.driver.calls == old(interval.driver.calls) + made
      ensures Due(now, old(interval.lastChecked), interval.checkInterval) == Ok(true) ==>
        match Behind(Interval.SlaveLag(configs, adapter, query), interval.threshold)
        case Err(e) => raised == Some(e) && master == old(master)
        case Ok(b) => raised == None && master == b
    {
      var due := interval.CheckServer(now);
      if due.Err? {
        return Some(due.error);
      }
      if !due.value {
        return None;
      }
      var behind := interval.IsBehind(configs, adapter, query);
      if behind.Err? {
        return Some(behind.error);
      }
      master := behind.value;
      raised := None;
    }
  }

  /** A fresh status reads from the slave; a check inside the interval
      leaves the decision alone even when the replica lags; once the
      interval has elapsed a lag above the threshold moves reads to the
      master. */
  method StatusScenario(config: Driver.Config) returns (initially: bool, inside: bool, after: bool)
    ensures !initially && !inside && after
  {
    Interval.NameIsReplicatedSlaveName(map[]);
    MysqlAdapterNames();
    var driver := new Driver.Driver();
    var interval := new Interval.DataFabricInterval(map["test_slave" := map["delay_threshold" := Driver.Number(1)]], 0, driver);
    var status := new DataFabricStatus(interval);
    initially := status.IsMaster();
    var configs := map["test_slave" := config];
    var lagging := Driver.Rows([[Driver.TextField("4")]]);
    var raised := status.UpdateStatus(3, configs, "mysql2", lagging);
    inside := status.IsMaster();
    raised := status.UpdateStatus(6, configs, "mysql2", lagging);
    after := status.IsMaster();
  }
}
