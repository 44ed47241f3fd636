/** lib/data_fabric/dynamic_switching.rb: one `Status` per slave
    configuration, each with a `Poller` that rate-limits the lag check and
    an `SQLSlaveChecker` that reads the lag over the slave's connection,
    and the registry of statuses by configuration name. */
module DynamicSwitching {
  import opened Base
  import opened Driver
  import opened ReplicaLag

  /** One entry of `configs_from_yml`: the entry's name (its `:name` key)
      and its settings reduced to the ones the poller may read. */
  datatype PollerConfig = PollerConfig(name: string, settings: Config)

  /** The `delete_if` test: a key stays when its name contains one of these. */
  predicate KeptKey(k: string) {
    Contains(k, "check_interval") || Contains(k, "delay_threshold") || Contains(k, "name")
  }

  /** A configuration with every other key deleted. */
  function Kept(c: Config): (r: Config)
    ensures forall k :: k in r <==> k in c && KeptKey(k)
    ensures forall k | k in r :: r[k] == c[k]
  {
    map k | k in c && KeptKey(k) :: c[k]
  }

  /** `configs_from_yml` on the parsed file, entries in file order: the
      entries whose name contains `slave`, each reduced by `Kept`. */
  function ConfigsFromYml(settings: seq<(string, Config)>): (r: seq<PollerConfig>)
    ensures |r| <= |settings|
    decreases |settings|
  {
    if |settings| == 0 then []
    else
      var rest := ConfigsFromYml(settings[1..]);
      if Contains(settings[0].0, "slave") then [PollerConfig(settings[0].0, Kept(settings[0].1))] + rest
      else rest
  }

  /** Every slave entry of the file is selected. */
  lemma {:induction false} ConfigsFromYmlKeepsSlaves(settings: seq<(string, Config)>, i: nat)
    requires i < |settings| && Contains(settings[i].0, "slave")
    ensures PollerConfig(settings[i].0, Kept(settings[i].1)) in ConfigsFromYml(settings)
    decreases |settings|
  {
    if i > 0 {
      ConfigsFromYmlKeepsSlaves(settings[1..], i - 1);
    }
  }

  /** Only slave entries are selected, each reduced from an entry of the file. */
  lemma {:induction false} ConfigsFromYmlOnlySlaves(settings: seq<(string, Config)>, x: PollerConfig)
    requires x in ConfigsFromYml(settings)
    ensures Contains(x.name, "slave")
    ensures exists i :: 0 <= i < |settings| && x == PollerConfig(settings[i].0, Kept(settings[i].1))
    decreases |settings|
  {
    if x == PollerConfig(settings[0].0, Kept(settings[0].1)) && Contains(settings[0].0, "slave") {
      assert 0 < |settings|;
    } else {
      ConfigsFromYmlOnlySlaves(settings[1..], x);
      var i :| 0 <= i < |settings[1..]| && x == PollerConfig(settings[1..][i].0, Kept(settings[1..][i].1));
      assert settings[i + 1] == settings[1..][i];
    }
  }

  /** The names `load_configurations` registers. */
  function NamesOf(cs: seq<PollerConfig>): set<string> {
    set i | 0 <= i < |cs| :: cs[i].name
  }

  /** The entry with name `n` that a later entry does not overwrite. */
  function LastConfig(cs: seq<PollerConfig>, n: string): (r: Option<PollerConfig>)
    ensures r.Some? <==> n in NamesOf(cs)
    ensures r.Some? ==> r.value.name == n && r.value in cs
    decreases |cs|
  {
    if |cs| == 0 then None
    else if cs[|cs| - 1].name == n then Some(cs[|cs| - 1])
    else
      var r := LastConfig(cs[..|cs| - 1], n);
      assert n in NamesOf(cs) ==> n in NamesOf(cs[..|cs| - 1]) by {
        if n in NamesOf(cs) {
          var i :| 0 <= i < |cs| && cs[i].name == n;
          assert cs[..|cs| - 1][i] == cs[i];
        }
      }
      assert r.Some? ==> n in NamesOf(cs) by {
        if r.Some? {
          var i :| 0 <= i < |cs| - 1 && cs[..|cs| - 1][i].name == n;
          assert cs[i] == cs[..|cs| - 1][i];
        }
      }
      r
  }

  /** One more entry adds its name and becomes the last entry of that name. */
  lemma PrefixSnoc(cs: seq<PollerConfig>, i: nat)
    requires i < |cs|
    ensures NamesOf(cs[..i + 1]) == NamesOf(cs[..i]) + {cs[i].name}
    ensures LastConfig(cs[..i + 1], cs[i].name) == Some(cs[i])
    ensures forall n | n != cs[i].name :: LastConfig(cs[..i + 1], n) == LastConfig(cs[..i], n)
  {
    var longer := cs[..i + 1];
    assert longer[..i] == cs[..i];
    assert longer[i] == cs[i];
    forall j | 0 <= j < i
      ensures longer[j] == cs[..i][j]
    {
    }
  }

  /** `Thread.current` as the statuses use it: truth values stored under
      `"#{name}_status"`. One thread's storage is the whole state. */
  class ThreadFlags {
    var flags: map<string, bool>

    constructor()
      ensures flags == map[]
    {
      flags := map[];
    }
  }

  function FlagKey(name: string): string {
    name + "_status"
  }

  lemma FlagKeyInjective(a: string, b: string)
    requires FlagKey(a) == FlagKey(b)
    ensures a == b
  {
    assert |a| == |b|;
    assert a == FlagKey(a)[..|a|];
    assert b == FlagKey(b)[..|b|];
  }

  /** `master?` for `name`: the stored truth value; nil reads as false. */
  function FlagOf(flags: map<string, bool>, name: string): bool {
    FlagKey(name) in flags && flags[FlagKey(name)]
  }

  /** The flags after `Status#initialize` as written: `self.master = false`
      runs before `@name` is assigned, so it writes under `"#{nil}_status"`,
      that is `"_status"`, and leaves the status's own flag as it was. */
  function InitialFlagsAsWritten(flags: map<string, bool>, name: string): (r: map<string, bool>)
    ensures !FlagOf(r, "")
    ensures forall other | other != "" :: FlagOf(r, other) == FlagOf(flags, other)
  {
    var r := flags[FlagKey("") := false];
    assert forall other | other != "" :: FlagKey(other) != FlagKey("") by {
      forall other | other != ""
        ensures FlagKey(other) != FlagKey("")
      {
        if FlagKey(other) == FlagKey("") {
          FlagKeyInjective(other, "");
        }
      }
    }
    r
  }

  /** A second `load_configurations` after a status was switched to master:
      the new status of the same name reports master at once. */
  lemma StaleMasterAsWritten()
    ensures FlagOf(InitialFlagsAsWritten(map[FlagKey("test_slave") := true], "test_slave"), "test_slave")
  {
    assert |FlagKey("")| != |FlagKey("test_slave")|;
  }

  /** The flags after `Status#initialize` with the name assigned first: the
      new status reports `master? == false`, and every other status's flag
      is left alone. */
  function InitialFlags(flags: map<string, bool>, name: string): (r: map<string, bool>)
    ensures !FlagOf(r, name)
    ensures forall other | other != name :: FlagOf(r, other) == FlagOf(flags, other)
  {
    var r := flags[FlagKey(name) := false];
    assert forall other | other != name :: FlagKey(other) != FlagKey(name) by {
      forall other | other != name
        ensures FlagKey(other) != FlagKey(name)
      {
        if FlagKey(other) == FlagKey(name) {
          FlagKeyInjective(other, name);
        }
      }
    }
    r
  }

  /** `SQLSlaveChecker` */
  class SQLSlaveChecker {
    const name: string
    var connection: Option<Connection>

    constructor(name: string)
      ensures this.name == name && connection == None
    {
      this.name := name;
      connection := None;
    }

    /** `slave_connection=`: `@connection ||= connection`, so only the
        first connection given sticks. */
    method SetSlaveConnection(c: Option<Connection>)
      modifies this
      ensures connection == if old(connection).Some? then old(connection) else c
    {
      if connection.None? {
        connection := c;
      }
    }

    /** `seconds_behind`: 0 without a connection or with an adapter that is
        not MySQL; otherwise what the status query yields. */
    function SecondsBehind(query: QueryOutcome): (r: Result<nat>)
      reads this
      ensures connection.None? || !IsMysqlAdapter(connection.value.adapterName) ==> r == Ok(0)
      ensures connection.Some? && IsMysqlAdapter(connection.value.adapterName) ==> r == QueryLag(query)
      ensures r.Ok? ==> r.value <= 9
    {
      if connection.Some? && IsMysqlAdapter(connection.value.adapterName) then QueryLag(query) else Ok(0)
    }

    /** `behind?(threshold)`: the lag compared strictly with the threshold;
        as the lag is one digit, a threshold of 9 or more never reports the
        replica behind. */
    function IsBehind(threshold: Setting, query: QueryOutcome): (r: Result<bool>)
      reads this
      ensures r.Ok? <==> SecondsBehind(query).Ok? && threshold.Number?
      ensures r.Ok? ==> (r.value <==> SecondsBehind(query).value > threshold.n)
      ensures threshold.Number? && threshold.n >= 9 ==> r != Ok(true)
    {
      Behind(SecondsBehind(query), threshold)
    }
  }

  /** `Poller` */
  class Poller {
    var lastChecked: int
    const checkInterval: Setting
    const threshold: Setting
    const checker: SQLSlaveChecker

    /** `initialize` at time `now`: both settings default to 5. */
    constructor(config: PollerConfig, now: int)
      ensures lastChecked == now
      ensures checkInterval == SettingOr(config.settings, "check_interval")
      ensures threshold == SettingOr(config.settings, "delay_threshold")
      ensures fresh(checker) && checker.name == config.name && checker.connection == None
    {
      lastChecked := now;
      checker := new SQLSlaveChecker(config.name);
      checkInterval := SettingOr(config.settings, "check_interval");
      threshold := SettingOr(config.settings, "delay_threshold");
    }

    /** `check_server?` at time `now`: true exactly when the interval has
        elapsed since the last check that answered true, which then moves
        to `now`; false changes nothing. */
    method CheckServer(now: int) returns (r: Result<bool>)
      modifies this
      ensures r == Due(now, old(lastChecked), checkInterval)
      ensures lastChecked == if r == Ok(true) then now else old(lastChecked)
    {
      r := Due(now, lastChecked, checkInterval);
      if r == Ok(true) {
        lastChecked := now;
      }
    }

    /** Successive `check_server?` calls at `times`: the answers and the
        last-checked time they leave are those of `Poll`, so the gate
        lemmas of `Poll` hold for this poller. */
    method CheckServerAt(times: seq<int>) returns (answers: seq<bool>)
      requires checkInterval.Number?
      modifies this
      ensures (answers, lastChecked) == Poll(old(lastChecked), checkInterval.n, times)
    {
      answers := [];
      for i := 0 to |times|
        invariant answers + Poll(lastChecked, checkInterval.n, times[i..]).0 == Poll(old(lastChecked), checkInterval.n, times).0
        invariant Poll(lastChecked, checkInterval.n, times[i..]).1 == Poll(old(lastChecked), checkInterval.n, times).1
      {
        assert times[i..][1..] == times[i + 1..];
        var r := CheckServer(times[i]);
        answers := answers + [r.value];
      }
      assert times[|times|..] == [];
      assert answers + [] == answers;
    }

    /** `behind?`: the checker's lag against this poller's threshold. */
    function IsBehind(query: QueryOutcome): (r: Result<bool>)
      reads this, checker
      ensures r.Ok? <==> checker.SecondsBehind(query).Ok? && threshold.Number?
      ensures r.Ok? ==> (r.value <==> checker.SecondsBehind(query).value > threshold.n)
    {
      checker.IsBehind(threshold, query)
    }

    /** `slave_connection=` */
    method SetSlaveConnection(c: Option<Connection>)
      modifies checker
      ensures checker.connection == if old(checker.connection).Some? then old(checker.connection) else c
    {
      checker.SetSlaveConnection(c);
    }
  }

  /** `Status`: whether reads of this configuration go to the master. */
  class Status {
    const name: string
    const poller: Poller
    const flags: ThreadFlags

    /** `initialize` at time `now` (the name assigned before the flag is cleared). */
    constructor(config: PollerConfig, now: int, flags: ThreadFlags)
      modifies flags
      ensures this.name == config.name && this.flags == flags
      ensures fresh(poller) && fresh(poller.checker) && poller.lastChecked == now
      ensures poller.checkInterval == SettingOr(config.settings, "check_interval")
      ensures poller.threshold == SettingOr(config.settings, "delay_threshold")
      ensures poller.checker.name == config.name && poller.checker.connection == None
      ensures flags.flags == InitialFlags(old(flags.flags), config.name)
    {
      name := config.name;
      this.flags := flags;
      poller := new Poller(config, now);
      new;
      flags.flags := InitialFlags(flags.flags, name);
    }

    /** `master?`: the thread's `"#{name}_status"` flag, an absent one
        reading as false. */
    function IsMaster(): (r: bool)
      reads flags
      ensures r <==> FlagKey(name) in flags.flags && flags.flags[FlagKey(name)]
    {
      FlagOf(flags.flags, name)
    }

    /** `update_status` at time `now`: nothing happens inside the interval,
        so the last decision sticks; once it has elapsed the decision
        becomes `behind?`. An exception out of the gate or the lag check
        leaves the flag as it was. */
    method UpdateStatus(now: int, query: QueryOutcome) returns (raised: Option<Error>)
      modifies poller, flags
      ensures poller.lastChecked ==
        if Due(now, old(poller.lastChecked), poller.checkInterval) == Ok(true) then now else old(poller.lastChecked)
      ensures Due(now, old(poller.lastChecked), poller.checkInterval).Err? ==>
        raised == Some(NotANumber) && flags.flags == old(flags.flags)
      ensures Due(now, old(poller.lastChecked), poller.checkInterval) == Ok(false) ==>
        raised == None && flags.flags == old(flags.flags)
      ensures Due(now, old(poller.lastChecked), poller.checkInterval) == Ok(true) ==>
        match poller.IsBehind(query)
        case Err(e) => raised == Some(e) && flags.flags == old(flags.flags)
        case Ok(b) => raised == None && flags.flags == old(flags.flags)[FlagKey(name) := b]
    {
      var due := poller.CheckServer(now);
      if due.Err? {
        return Some(due.error);
      }
      if !due.value {
        return None;
      }
      var behind := poller.IsBehind(query);
      if behind.Err? {
        return Some(behind.error);
      }
      flags.flags := flags.flags[FlagKey(name) := behind.value];
      raised := None;
    }

    /** `slave_connection=` */
    method SetSlaveConnection(c: Option<Connection>)
      modifies poller.checker
      ensures poller.checker.connection ==
        if old(poller.checker.connection).Some? then old(poller.checker.connection) else c
    {
      poller.SetSlaveConnection(c);
    }
  }

  /** `DynamicSwitching.statuses`: nil until configurations are loaded. */
  class StatusRegistry {
    var statuses: Option<map<string, Status>>

    constructor()
      ensures statuses == None
    {
      statuses := None;
    }

    /** `status_for`: the registered status; an unregistered name raises
        ArgumentError, and before any load the nil registry raises. */
    function StatusFor(name: string): (r: Result<Status>)
      reads this
      ensures statuses.None? ==> r == Err(StatusesNotLoaded)
      ensures statuses.Some? && name in statuses.value ==> r == Ok(statuses.value[name])
      ensures statuses.Some? && name !in statuses.value ==> r == Err(BadDbConfiguration(name))
    {
      match statuses
      case None => Err(StatusesNotLoaded)
      case Some(m) => if name in m then Ok(m[name]) else Err(BadDbConfiguration(name))
    }

    /** `load_configurations` at time `now` on the parsed file: the registry
        is replaced by exactly one new status per selected name, built from
        the last entry of that name, each reporting `master? == false`; the
        flags of other names are left as they were. The statuses are built
        in the corrected order of `Status`; `ReloadKeepsFlagsAsWritten`
        states what the code as written leaves in the flags. */
    method LoadConfigurations(settings: seq<(string, Config)>, now: int, flags: ThreadFlags)
      modifies this, flags
      ensures statuses.Some?
      ensures statuses.value.Keys == NamesOf(ConfigsFromYml(settings))
      ensures forall n | n in statuses.value ::
        Loaded(statuses.value[n], LastConfig(ConfigsFromYml(settings), n).value, now) && statuses.value[n].flags == flags
      ensures forall n | n in statuses.value :: !statuses.value[n].IsMaster()
      ensures forall n | n !in statuses.value :: FlagOf(flags.flags, n) == FlagOf(old(flags.flags), n)
      ensures forall n | n in statuses.value :: fresh(statuses.value[n]) && fresh(statuses.value[n].poller)
    {
      var loaded := NewStatuses(ConfigsFromYml(settings), now, flags);
      statuses := Some(loaded);
    }
  }

  /** The loop of `load_configurations`: one new status per entry of `cs`,
      a later entry replacing an earlier one of the same name (each built
      in the corrected order of `Status`). */
  method NewStatuses(cs: seq<PollerConfig>, now: int, flags: ThreadFlags) returns (loaded: map<string, Status>)
    modifies flags
    ensures loaded.Keys == NamesOf(cs)
    ensures forall n | n in loaded :: Loaded(loaded[n], LastConfig(cs, n).value, now) && loaded[n].flags == flags
    ensures forall n | n in loaded :: !loaded[n].IsMaster()
    ensures forall n | n !in loaded :: FlagOf(flags.flags, n) == FlagOf(old(flags.flags), n)
    ensures forall n | n in loaded :: fresh(loaded[n]) && fresh(loaded[n].poller)
  {
    loaded := map[];
    ghost var chosen: map<string, PollerConfig> := map[];
    for i := 0 to |cs|
      invariant chosen == Selected(cs[..i]) && loaded.Keys == chosen.Keys
      invariant forall n | n in loaded :: Loaded(loaded[n], chosen[n], now)
      invariant forall n | n in loaded :: loaded[n].flags == flags
      invariant flags.flags == Cleared(old(flags.flags), cs[..i])
      invariant forall n | n in loaded :: fresh(loaded[n]) && fresh(loaded[n].poller)
    {
      SelectedSnoc(cs, i);
      ClearedSnoc(old(flags.flags), cs, i);
      var status := new Status(cs[i], now, flags);
      loaded := loaded[cs[i].name := status];
      chosen := chosen[cs[i].name := cs[i]];
    }
    assert cs[..|cs|] == cs;
    SelectedIsLast(cs);
    ClearedNames(old(flags.flags), cs);
  }

  /** The statuses' configurations by name, each name's later entry
      replacing the earlier one. */
  function Selected(cs: seq<PollerConfig>): map<string, PollerConfig>
    decreases |cs|
  {
    if |cs| == 0 then map[] else Selected(cs[..|cs| - 1])[cs[|cs| - 1].name := cs[|cs| - 1]]
  }

  lemma SelectedSnoc(cs: seq<PollerConfig>, i: nat)
    requires i < |cs|
    ensures Selected(cs[..i + 1]) == Selected(cs[..i])[cs[i].name := cs[i]]
  {
    assert cs[..i + 1][..i] == cs[..i];
  }

  /** The selection holds every name of `cs` and, for each, the entry no
      later entry overwrites. */
  lemma {:induction false} SelectedIsLast(cs: seq<PollerConfig>)
    ensures Selected(cs).Keys == NamesOf(cs)
    ensures forall n | n in Selected(cs) :: LastConfig(cs, n) == Some(Selected(cs)[n])
    decreases |cs|
  {
    if |cs| > 0 {
      var i := |cs| - 1;
      SelectedIsLast(cs[..i]);
      PrefixSnoc(cs, i);
      assert cs[..i + 1] == cs;
    }
  }

  /** The thread flags after one status per entry of `cs` was built from
      `flags`, in order. */
  function Cleared(flags: map<string, bool>, cs: seq<PollerConfig>): map<string, bool>
    decreases |cs|
  {
    if |cs| == 0 then flags else InitialFlags(Cleared(flags, cs[..|cs| - 1]), cs[|cs| - 1].name)
  }

  lemma ClearedSnoc(flags: map<string, bool>, cs: seq<PollerConfig>, i: nat)
    requires i < |cs|
    ensures Cleared(flags, cs[..i + 1]) == InitialFlags(Cleared(flags, cs[..i]), cs[i].name)
  {
    assert cs[..i + 1][..i] == cs[..i];
  }

  /** After the statuses are built in the corrected order, the flag of
      every name of `cs` is cleared and every other flag is as it was. */
  lemma {:induction false} ClearedNames(flags: map<string, bool>, cs: seq<PollerConfig>)
    ensures forall n :: FlagOf(Cleared(flags, cs), n) == (n !in NamesOf(cs) && FlagOf(flags, n))
    decreases |cs|
  {
    if |cs| > 0 {
      var i := |cs| - 1;
      ClearedNames(flags, cs[..i]);
      PrefixSnoc(cs, i);
      assert cs[..i + 1] == cs;
    }
  }

  /** The thread flags after `load_configurations` as written built one
      status per entry of `cs` from `flags`, in order. */
  function ClearedAsWritten(flags: map<string, bool>, cs: seq<PollerConfig>): map<string, bool>
    decreases |cs|
  {
    if |cs| == 0 then flags else InitialFlagsAsWritten(ClearedAsWritten(flags, cs[..|cs| - 1]), cs[|cs| - 1].name)
  }

  /** As written, a reload clears no status's flag: every named status
      reports what its thread flag said before the load, so a status that
      had switched to master is master again the moment it is rebuilt. */
  lemma {:induction false} ReloadKeepsFlagsAsWritten(flags: map<string, bool>, cs: seq<PollerConfig>)
    ensures forall n | n != "" :: FlagOf(ClearedAsWritten(flags, cs), n) == FlagOf(flags, n)
    decreases |cs|
  {
    if |cs| > 0 {
      ReloadKeepsFlagsAsWritten(flags, cs[..|cs| - 1]);
    }
  }

  /** A status as `load_configurations` leaves it, built at `now` from `config`. */
  ghost predicate Loaded(s: Status, config: PollerConfig, now: int)
    reads s, s.poller, s.poller.checker
  {
    s.name == config.name &&
    s.poller.lastChecked == now &&
    s.poller.checkInterval == SettingOr(config.settings, "check_interval") &&
    s.poller.threshold == SettingOr(config.settings, "delay_threshold") &&
    s.poller.checker.name == config.name && s.poller.checker.connection == None
  }

  /** Any run of `check_server?` calls on a poller with the default
      interval of 5, started at time 0: two calls answered true are more
      than 5 seconds apart. */
  method GateRunScenario(times: seq<int>) returns (answers: seq<bool>)
    ensures |answers| == |times|
    ensures forall i, j | 0 <= i < j < |times| && answers[i] && answers[j] :: times[j] > times[i] + 5
  {
    var poller := new Poller(PollerConfig("test_slave", map[]), 0);
    assert poller.checkInterval == Number(5);
    answers := poller.CheckServerAt(times);
    forall i, j | 0 <= i < j < |times| && answers[i] && answers[j]
      ensures times[j] > times[i] + 5
    {
      AtMostOncePerInterval(0, 5, times, i, j);
    }
  }

  /** Two checks inside one interval answer true, then false; a check once
      the interval has elapsed answers true again. A poller whose entry
      lacks both settings uses 5 for each. */
  method GateScenario() returns (first: Result<bool>, inside: Result<bool>, later: Result<bool>,
                                 defaultInterval: Setting, defaultThreshold: Setting)
    ensures first == Ok(true) && inside == Ok(false) && later == Ok(true)
    ensures defaultInterval == Number(5) && defaultThreshold == Number(5)
  {
    var poller := new Poller(PollerConfig("test_slave", map["check_interval" := Number(5)]), 0);
    first := poller.CheckServer(6);
    inside := poller.CheckServer(8);
    later := poller.CheckServer(12);
    var bare := new Poller(PollerConfig("test_slave", map[]), 0);
    defaultInterval, defaultThreshold := bare.checkInterval, bare.threshold;
  }

  /** test/sql_slave_checker_test.rb and the threshold tests: no lag
      without a connection; the first connection given sticks; a lag of 4
      is not behind a threshold of 5 but is behind a threshold of 1. */
  method CheckerScenario() returns (unconnected: Result<nat>, adapter: string, lag: Result<nat>,
                                    belowFive: Result<bool>, aboveOne: Result<bool>)
    ensures unconnected == Ok(0)
    ensures adapter == "mysql2"
    ensures lag == Ok(4) && belowFive == Ok(false) && aboveOne == Ok(true)
  {
    var checker := new SQLSlaveChecker("test_slave");
    unconnected := checker.SecondsBehind(Raised);
    checker.SetSlaveConnection(Some(Connection("mysql2")));
    checker.SetSlaveConnection(Some(Connection("SQLite")));
    adapter := checker.connection.value.adapterName;
    MysqlAdapterNames();
    var status := Rows([[TextField("4")]]);
    lag := checker.SecondsBehind(status);
    belowFive := checker.IsBehind(Number(5), status);
    aboveOne := checker.IsBehind(Number(1), status);
  }

  /** A slave entry checked every 5 seconds with a threshold of 1. */
  function SlaveEntry(): Config {
    map["check_interval" := Number(5), "delay_threshold" := Number(1)]
  }

  lemma SlaveEntrySelected()
    ensures ConfigsFromYml([("test_master", map[]), ("test_slave", SlaveEntry())]) ==
      [PollerConfig("test_slave", Kept(SlaveEntry()))]
    ensures SettingOr(Kept(SlaveEntry()), "check_interval") == Number(5)
    ensures SettingOr(Kept(SlaveEntry()), "delay_threshold") == Number(1)
  {
    var master, slave := "test_master", "test_slave";
    assert OccursAt(slave, "slave", 5) by {
      assert slave[5..10] == "slave";
    }
    assert !Contains(master, "slave") by {
      forall start: nat | start <= |master|
        ensures !OccursAt(master, "slave", start)
      {
        if start + 5 <= |master| {
          assert master[start + 1] != 'l';
          assert master[start..start + 5][1] == master[start + 1];
        }
      }
    }
    var settings := [("test_master", map[]), ("test_slave", SlaveEntry())];
    assert settings[1..][1..] == [];
    assert OccursAt("check_interval", "check_interval", 0);
    assert OccursAt("delay_threshold", "delay_threshold", 0);
  }

  /** The registry before and after `load_configurations`: nil before,
      then the slave entry only, its status not yet on the master. */
  method RegistryScenario() returns (before: Result<Status>, master: Result<Status>, slave: Result<Status>)
    ensures before == Err(StatusesNotLoaded)
    ensures master == Err(BadDbConfiguration("test_master"))
    ensures slave.Ok? && slave.value.name == "test_slave"
    ensures slave.Ok? ==> !slave.value.IsMaster()
  {
    var registry := new StatusRegistry();
    var flags := new ThreadFlags();
    before := registry.StatusFor("test_slave");
    var settings := [("test_master", map[]), ("test_slave", SlaveEntry())];
    SlaveEntrySelected();
    var cs := ConfigsFromYml(settings);
    assert NamesOf(cs) == {"test_slave"} by {
      assert cs[0].name == "test_slave";
    }
    registry.LoadConfigurations(settings, 0, flags);
    master := registry.StatusFor("test_master");
    slave := registry.StatusFor("test_slave");
  }

  /** `update_status` over time for a status checked every 5 seconds with
      a threshold of 1 and a MySQL connection: a lag of 4 at second 10
      switches it to the master; a lag of 0 two seconds later is not even
      read, so the decision sticks; at second 16 the lag of 0 switches it
      back. */
  method StickySteps(s: Status) returns (switched: bool, stuck: bool, back: bool)
    requires s.poller.lastChecked == 0 && s.poller.checkInterval == Number(5) && s.poller.threshold == Number(1)
    requires s.poller.checker.connection == Some(Connection("mysql2"))
    modifies s.poller, s.flags
    ensures switched && stuck && !back
  {
    MysqlAdapterNames();
    var caughtUp := Rows([[TextField("0")]]);
    var raised := s.UpdateStatus(10, Rows([[TextField("4")]]));
    switched := s.IsMaster();
    raised := s.UpdateStatus(12, caughtUp);
    stuck := s.IsMaster();
    raised := s.UpdateStatus(16, caughtUp);
    back := s.IsMaster();
  }

  method StickyScenario() returns (switched: bool, stuck: bool, back: bool)
    ensures switched && stuck && !back
  {
    var flags := new ThreadFlags();
    var s := new Status(PollerConfig("test_slave", SlaveEntry()), 0, flags);
    s.SetSlaveConnection(Some(Connection("mysql2")));
    switched, stuck, back := StickySteps(s);
  }
}
