# data_fabric, modelled in Dafny

data_fabric is an ActiveRecord plugin. It routes each model's database
connection by a naming convention, chosen from four inputs:

- an optional prefix;
- an optional shard group, with the thread's active shard for it;
- the environment;
- the replication role ("master" or "slave").

This project models that routing:

- the thread's shard context (`lib/data_fabric.rb`);
- the connection proxy:
  - the clause list of the name, built once and re-read at every join;
  - the role slot, with nested `with_role` blocks;
  - the class-wide pool cache, where a pool is created at most once per name;
  - the lifecycle broadcasts over the cache;
  - the `shard_names` scan of the configuration names (`lib/data_fabric/connection_proxy.rb`);
- the handler extensions that register proxies and clear connections (`lib/data_fabric/extensions.rb`).

The project also models three replica-lag checkers:

- the `DynamicSwitching` statuses, pollers and SQL slave checkers;
- the singletons `DataFabricInterval` and `DataFabricStatus`, in both of their versions:
  - `interval.rb` with `status.rb`, which opens slave pools;
  - `extensions.rb`, which reconnects `ActiveRecord::Base` to the slave.

The three checkers share one rule, in `replica_lag.dfy`. A check reads the
lag only when the check interval has elapsed. The lag is taken from the
last character of the replication-status rows. The replica counts as behind
when that lag is strictly above the threshold.

Files:

- `base.dfy`:
  - `Option`, `Result` and the errors the code raises;
  - Ruby's `to_s` on shard tokens;
  - `join('_')` and its inverse;
  - literal substring search.
- `driver.dfy`: the database layer as the plugin sees it:
  - configuration entries;
  - pools as tokens with a serial number;
  - query outcomes;
  - a record of the calls made into the driver.
- `shard_context.dfy`: `Thread.current[:shards]` and the shard API of `DataFabric`.
- `connection_names.dfy`: naming, on values:
  - the clause builder and its rendering;
  - the documented convention;
  - the `shard_names` matcher.
- `connection_proxy.dfy`: the role slot, the pool registry, `ConnectionProxy` and `PoolProxy`.
- `replica_lag.dfy`: the shared lag rule.
- `dynamic_switching.dfy`, `interval.dfy`, `status.dfy`, `extensions.dfy`: the files of the same names.

Modelling choices:

- State that Ruby keeps in objects, class variables or `Thread.current` becomes Dafny classes, with `modifies` and `reads` frames.
- Naming, parsing and the gate are functions.
- A Ruby block is a function from the state it starts in to what it leaves behind and whether it raised.
- Times are integers passed in by the caller.
- The environment is the constant `"test"`.

Where the code and the documented behaviour of the library disagree, the
model follows the code, with one exception. `Status#initialize` clears its
flag before it knows its name (see "## Findings"). That exception is
modelled both as written and corrected. The statuses that
`load_configurations` builds use the corrected order, and "## Left out"
names each member this affects. The other disagreements:

- `seconds_behind` rescues only the parsing line. An exception from
  `execute "SHOW SLAVE STATUS;"` therefore propagates to the status update
  (`Err(QueryRaised)`). It is not taken as a lag of 0.
- The lag is read as one digit: the last character of the first field of
  the last row. A reported lag of 14 reads as 4, and a threshold of 9 or
  more can never declare the replica behind (`ReplicaLag.NeverBehindAtNine`).

## Model

| member | source | states |
|---|---|---|
| Base.SplitJoin | lib/data_fabric/connection_proxy.rb:83-85 | joining non-empty lists of underscore-free parts with `_` loses nothing: splitting at `_` gives the parts back |
| Base.JoinInjective | lib/data_fabric/connection_proxy.rb:83-85 | two lists of underscore-free parts that join to the same name are equal |
| Base.JoinInfix | lib/data_fabric/connection_proxy.rb:83-85 | a piece of a joined name sits between text fixed by the pieces before it and text fixed by the pieces after it |
| ShardContext.Lookup | lib/data_fabric.rb:82-88 | the active shard of a group is the stored value of its `to_s` key; a group with no value raises NoActiveShard naming the group |
| ShardContext.OverlayKeys | lib/data_fabric.rb:60-62 | activation adds exactly the stringified keys of the pairs to the map |
| ShardContext.OverlayAt | lib/data_fabric.rb:60-62 | a group's stringified key maps to the stringified value of its last occurrence in the pairs |
| ShardContext.OverlayElsewhere | lib/data_fabric.rb:60-62 | groups not in the pairs keep their prior value, or stay absent |
| ShardContext.ActivateThenDeactivate | lib/data_fabric.rb:54-80 | activating pairs and then deactivating the same keys leaves the map of the other groups as it was |
| ShardContext.ThreadShards.constructor | lib/data_fabric.rb:96-101 | a new thread has no shard map yet and remembers the defaults it will be seeded from |
| ShardContext.ThreadShards.EnsureSetup | lib/data_fabric.rb:96-101 | the first call seeds the map from the stringified defaults; a later call changes nothing |
| ShardContext.ThreadShards.Activate | lib/data_fabric.rb:54-62 | returns the map as it was (the snapshot) and installs that map overlaid by the pairs |
| ShardContext.ThreadShards.Restore | lib/data_fabric.rb:63-69 | the snapshot is put back whole |
| ShardContext.ThreadShards.ActivateShard | lib/data_fabric.rb:54-70 | without a block the overlay stays; with a block, the block sees the overlay, its exception is reported, and the prior map is restored |
| ShardContext.ThreadShards.DeactivateShard | lib/data_fabric.rb:75-80 | every given key is removed, whatever its value, and nothing else changes |
| ShardContext.ThreadShards.ActiveShard | lib/data_fabric.rb:82-88 | set up, then `Lookup` on the current map, which is left unchanged |
| ShardContext.ThreadShards.ShardActiveFor | lib/data_fabric.rb:90-94 | nil is always active and touches nothing; any other group is active exactly when its `to_s` key is in the map |
| ShardContext.NestedActivationScenario | lib/data_fabric.rb:54-70 | nested activations: the inner value wins inside, the outer value returns after it, and the group is unset after both |
| ShardContext.SeedScenario | lib/data_fabric.rb:96-101 | a thread's first lookup sees the stringified default; deactivating the key removes it |
| Driver.Driver.NewPool | lib/data_fabric/connection_proxy.rb:147 | a new pool is never handed out before, bound to its configuration, and its creation is recorded |
| Driver.Driver.Send | lib/data_fabric/connection_proxy.rb:45 | one lifecycle call on one pool is recorded, and nothing else is |
| Driver.Driver.ClearActiveConnections | lib/data_fabric/extensions.rb:6 | ActiveRecord's own clear is recorded as one call |
| ConnectionNames.RenderAllAppend | lib/data_fabric/connection_proxy.rb:83-85 | rendering a concatenated clause list renders each half in order, and the first raising clause wins |
| ConnectionNames.ConnectionNameFollowsConvention | lib/data_fabric/connection_proxy.rb:173-183 | the kept clause list joined with the current shard map and role is exactly prefix_group_shard_env_role (each part present as configured); a sharded proxy with no active shard raises NoActiveShard for its group |
| ConnectionNames.ConnectionNameTracksShard | lib/data_fabric/connection_proxy.rb:178 | with the role fixed, a sharded proxy's names under two active shards are equal exactly when the shard values are equal |
| ConnectionNames.ConnectionNameTracksRole | lib/data_fabric/connection_proxy.rb:180 | a replicated proxy's name changes exactly with the role; an unreplicated proxy's name ignores the role |
| ConnectionNames.PatternTail | lib/data_fabric/connection_proxy.rb:125-127 | the part of the `shard_names` pattern after the capture starts with an underscore |
| ConnectionNames.RunEnd | lib/data_fabric/connection_proxy.rb:125 | the `([^_]+)` run stops at the first underscore or at the end, and contains no underscore |
| ConnectionNames.FirstMatchFound | lib/data_fabric/connection_proxy.rb:128-131 | a capture is a non-empty, underscore-free word, and the whole pattern with it occurs in the name |
| ConnectionNames.ShardNamesAreShardValues | lib/data_fabric/connection_proxy.rb:120-134 | every value `shard_names` reports is a non-empty word without underscores, captured from a listed configuration name that contains the pattern around it |
| ConnectionNames.ShardNamesListsCaptures | lib/data_fabric/connection_proxy.rb:129-132 | conversely, every capture from a listed name is reported |
| ConnectionNames.MasterNameCapturesShard | lib/data_fabric/connection_proxy.rb:120-134 | the master name a sharded proxy resolves for shard v is matched by `shard_names`' pattern, and the capture is v |
| ConnectionNames.MatchAtFront | lib/data_fabric/connection_proxy.rb:128-131 | a word flanked by the pattern's head and its underscore-led tail is captured at the front |
| ConnectionNames.ShardNamesListsMasters | lib/data_fabric/connection_proxy.rb:120-134 | when the master name of shard v is configured, `shard_names` lists v |
| ConnectionNames.UnshardedNames | lib/data_fabric.rb:16-20 | without shards the name is the environment, env_role when replicated, and prefix_env with a prefix |
| ConnectionNames.ShardedName | lib/data_fabric.rb:22-23 | sharding without replication names group_shard_env |
| ConnectionNames.FullName | lib/data_fabric.rb:25-26 | prefix, sharding and replication together name prefix_group_shard_env_role; with no active shard the name raises |
| Routing.RoleSlot.constructor | lib/data_fabric/connection_proxy.rb:189-191 | a new thread's role slot is empty |
| Routing.AdmitCaches | lib/data_fabric/connection_proxy.rb:142-149 | a cached name returns its pool and changes nothing; an unknown name with no configuration raises UnknownDatabaseConfig and caches nothing; otherwise exactly one new pool is cached under the name |
| Routing.BroadcastReachesEveryPoolOnce | lib/data_fabric/connection_proxy.rb:42-48 | a lifecycle broadcast makes one call per cached pool, each pool reached exactly once, and every call is that operation on a cached pool |
| Routing.PoolRegistry.constructor | lib/data_fabric/connection_proxy.rb:52 | the class-wide pool cache starts empty |
| Routing.PoolRegistry.Reset | lib/data_fabric/extensions.rb:84 | `shard_pools = {}` empties the cache |
| Routing.PoolRegistry.GetOrCreate | lib/data_fabric/connection_proxy.rb:144-148 | the cache and result are as `Admit` says, and the driver is called only when a pool is created |
| Routing.PoolRegistry.Broadcast | lib/data_fabric/connection_proxy.rb:44-46 | the driver receives the operation once for every cached pool, in cache order |
| Routing.ConnectionProxy.constructor | lib/data_fabric/connection_proxy.rb:55-64 | a replicated proxy writes its default role into the thread's slot; an unreplicated one leaves it alone |
| Routing.ConnectionProxy.SetRole | lib/data_fabric/connection_proxy.rb:185-187 | the thread's role is the given one |
| Routing.ConnectionProxy.CurrentRole | lib/data_fabric/connection_proxy.rb:189-191 | the thread's role slot when it is set, otherwise the proxy's default role |
| Routing.ConnectionProxy.EnterRole | lib/data_fabric/connection_proxy.rb:95-98 | the role the thread saw is saved, and the new role is set |
| Routing.ConnectionProxy.WithRole | lib/data_fabric/connection_proxy.rb:95-102 | the block runs under the given role; afterwards the role it replaced is back, whether or not the block raised |
| Routing.ConnectionProxy.WithMaster | lib/data_fabric/connection_proxy.rb:87-89 | `with_role('master')` |
| Routing.ConnectionProxy.WithSlave | lib/data_fabric/connection_proxy.rb:91-93 | `with_role('slave')` |
| Routing.ConnectionProxy.ConnectionNameBuilder | lib/data_fabric/connection_proxy.rb:173-183 | the clause list is built on the first call and the same list is returned afterwards |
| Routing.ConnectionProxy.ConnectionName | lib/data_fabric/connection_proxy.rb:83-85 | the name for the thread's shard map and role at the moment of the call; the shard map is unchanged |
| Routing.ConnectionProxy.CurrentPool | lib/data_fabric/connection_proxy.rb:142-149 | the name of the moment is resolved through the cache as `Admit` says; a name that cannot be built raises before the cache is touched |
| Routing.ConnectionProxy.Master | lib/data_fabric/connection_proxy.rb:193-195 | the pool of the master name, with the thread's role put back afterwards |
| Routing.ConnectionProxy.Transaction | lib/data_fabric/connection_proxy.rb:72-76 | the transaction runs on the master pool with the block under the master role; the role is put back |
| Routing.ConnectionProxy.Reload | lib/data_fabric/connection_proxy.rb:7-9 | a replicated model reloads from the master pool and returns to its role; an unreplicated one uses its current pool |
| Routing.ConnectionProxy.ShardNames | lib/data_fabric/connection_proxy.rb:120-134 | computed on the first call and kept, so every later call returns the first answer; each value is a non-empty word without underscores |
| Routing.PoolProxy.constructor | lib/data_fabric/connection_proxy.rb:22-24 | wraps the given proxy, which `connection` returns |
| Routing.PoolProxy.Lifecycle | lib/data_fabric/connection_proxy.rb:42-48 | each lifecycle method reaches every pool of the class-wide cache in order |
| Routing.PrefixScenario | test/connection_test.rb:70-73 | a model with prefix `prefix` is named `prefix_test` |
| Routing.ShardScenario | test/connection_test.rb:75-88 | the name raises before activation, is `city_austin_test` inside it, and raises again after it |
| Routing.EnchiladaNames | test/connection_test.rb:107-112 | with Dallas active, the slave and master names are `fiveruns_city_dallas_test_slave` and `fiveruns_city_dallas_test_master` |
| Routing.EnchiladaReads | test/connection_test.rb:111-124 | the name is the slave's, a read creates and caches the slave pool, and a reload creates and caches the master pool |
| Routing.EnchiladaReload | test/connection_test.rb:119-124 | the reload goes to the master pool, and the role is the slave again |
| Routing.EnchiladaWrites | test/connection_test.rb:125-132 | after the reload the name is the slave's again, a transaction reuses the cached master pool, and one PoolProxy's `verify_active_connections!` broadcast on this fresh cache reaches both pools in order |
| Routing.EnchiladaScenario | test/connection_test.rb:107-132 | the test up to the first `verify_active_connections!`: two pools created (slave, then master), the master pool reused for the save, then one PoolProxy's broadcast on a fresh cache verifies both, in that order |
| Routing.NestedMasterSteps | test/dynamic_switching_test.rb:48-56 | nested `with_master` blocks of two models on one thread all resolve master names, and the slave name is back afterwards |
| Routing.NestedMasterScenario | test/dynamic_switching_test.rb:48-56 | the three names inside are `test_master`, and the name afterwards is `test_slave` |
| Routing.PoolCacheSteps | lib/data_fabric/connection_proxy.rb:142-149 | a missing entry raises and caches nothing; once configured, two lookups return one pool, created once |
| Routing.PoolCacheScenario | lib/data_fabric/connection_proxy.rb:142-149 | the same, for a replicated model in the slave role: `test_slave` |
| ReplicaLag.SettingOr | lib/data_fabric/dynamic_switching.rb:81-82 | nil, false or an absent key give 5; any other value, 0 included, is kept |
| ReplicaLag.SlaveSetting | lib/data_fabric/interval.rb:19-20 | the setting of the slave entry, or 5 when there is no slave entry or no value |
| ReplicaLag.Due | lib/data_fabric/dynamic_switching.rb:87 | true exactly when now is past the last check plus the interval; an interval that is not a number raises |
| ReplicaLag.Poll | lib/data_fabric/dynamic_switching.rb:85-92 | one answer per call |
| ReplicaLag.PollStep | lib/data_fabric/dynamic_switching.rb:85-92 | each answer is the gate applied to the last-checked time the earlier calls left |
| ReplicaLag.PollAdvances | lib/data_fabric/dynamic_switching.rb:85-92 | the last-checked time never moves back, and a call answered true moves it to at least that call's time |
| ReplicaLag.AtMostOncePerInterval | lib/data_fabric/dynamic_switching.rb:85-92 | two calls answered true are more than one interval apart |
| ReplicaLag.DigitValue | lib/data_fabric/dynamic_switching.rb:115 | `to_i` of one character: its digit value, or 0 |
| ReplicaLag.ParseLag | lib/data_fabric/dynamic_switching.rb:115 | the parsed lag is at most 9 (missing rows, fields or characters give 0) |
| ReplicaLag.ParseLagLastRow | lib/data_fabric/dynamic_switching.rb:115 | only the last row counts |
| ReplicaLag.ParseLagReadsLastDigit | lib/data_fabric/dynamic_switching.rb:115 | a decimal lag n in the last row reads as n mod 10 |
| ReplicaLag.Lower | lib/data_fabric/dynamic_switching.rb:113 | ASCII lower case, character by character, of the same length |
| ReplicaLag.IsMysqlAdapter | lib/data_fabric/dynamic_switching.rb:113 | `adapter_name =~ /mysql/i`: `mysql` anywhere in the lower-cased name, so a match needs at least five characters |
| ReplicaLag.MysqlIgnoresCase | lib/data_fabric/dynamic_switching.rb:113 | names that agree up to case agree on the `/mysql/i` test |
| ReplicaLag.MysqlAdapterNames | test/connection_test.rb:30-31 | `mysql2` and `MySQL` match `/mysql/i`; `SQLite` does not |
| ReplicaLag.QueryLag | lib/data_fabric/dynamic_switching.rb:114-115 | the status query's exception propagates; otherwise the lag is the parse of its rows |
| ReplicaLag.Behind | lib/data_fabric/dynamic_switching.rb:118-120 | the lag's error propagates; a threshold that is not a number raises; otherwise behind exactly when the lag is strictly above the threshold |
| ReplicaLag.NeverBehindAtNine | lib/data_fabric/dynamic_switching.rb:115-120 | a threshold of 9 or more never reports the replica behind |
| DynamicSwitching.Kept | lib/data_fabric/dynamic_switching.rb:30 | exactly the keys whose name contains check_interval, delay_threshold or name stay, with their values |
| DynamicSwitching.ConfigsFromYml | lib/data_fabric/dynamic_switching.rb:26-31 | at most one selected entry per file entry |
| DynamicSwitching.ConfigsFromYmlKeepsSlaves | lib/data_fabric/dynamic_switching.rb:28-30 | every entry whose name contains `slave` is selected, reduced |
| DynamicSwitching.ConfigsFromYmlOnlySlaves | lib/data_fabric/dynamic_switching.rb:28-30 | only such entries are selected, each the reduction of a file entry |
| DynamicSwitching.LastConfig | lib/data_fabric/dynamic_switching.rb:37-40 | a name has a last entry exactly when it is selected, and that entry carries the name |
| DynamicSwitching.FlagKeyInjective | lib/data_fabric/dynamic_switching.rb:57-61 | different statuses' names use different `Thread.current` keys |
| DynamicSwitching.StaleMasterAsWritten | lib/data_fabric/dynamic_switching.rb:46-50 | as written, a new status whose thread flag is already true reports master |
| DynamicSwitching.ReloadKeepsFlagsAsWritten | lib/data_fabric/dynamic_switching.rb:37-50 | as written, a load over any list of entries leaves the flag of every named status as it was before the load |
| DynamicSwitching.InitialFlags | lib/data_fabric/dynamic_switching.rb:46-50 | with the name assigned first, the new status reports not-master and every other status's flag is unchanged |
| DynamicSwitching.SQLSlaveChecker.constructor | lib/data_fabric/dynamic_switching.rb:104-106 | a checker starts with its name and no connection |
| DynamicSwitching.SQLSlaveChecker.SetSlaveConnection | lib/data_fabric/dynamic_switching.rb:108-110 | only the first connection given sticks |
| DynamicSwitching.SQLSlaveChecker.SecondsBehind | lib/data_fabric/dynamic_switching.rb:112-116 | 0 without a connection or with an adapter that is not MySQL; otherwise what the query yields, at most 9 |
| DynamicSwitching.SQLSlaveChecker.IsBehind | lib/data_fabric/dynamic_switching.rb:118-120 | behind exactly when the lag is strictly above the threshold; never behind a threshold of 9 or more |
| DynamicSwitching.Poller.constructor | lib/data_fabric/dynamic_switching.rb:77-83 | last check at construction time, a new unconnected checker for the entry, both settings defaulting to 5 |
| DynamicSwitching.Poller.CheckServer | lib/data_fabric/dynamic_switching.rb:85-92 | answers `Due`, and moves the last check to now only when it answers true |
| DynamicSwitching.Poller.CheckServerAt | lib/data_fabric/dynamic_switching.rb:85-92 | successive calls answer as `Poll` says and leave its last-checked time, so the gate lemmas hold for the class |
| DynamicSwitching.Poller.IsBehind | lib/data_fabric/dynamic_switching.rb:94-96 | the checker's lag compared strictly with this poller's threshold |
| DynamicSwitching.Poller.SetSlaveConnection | lib/data_fabric/dynamic_switching.rb:98-100 | forwards to the checker, whose first connection sticks |
| DynamicSwitching.Status.constructor | lib/data_fabric/dynamic_switching.rb:46-50 | a status with a fresh poller for its entry, and its own flag cleared (corrected order) |
| DynamicSwitching.Status.IsMaster | lib/data_fabric/dynamic_switching.rb:52-58 | `master?` is the thread's `"#{name}_status"` flag, an absent flag reading as false; a function, so it changes nothing |
| DynamicSwitching.Status.UpdateStatus | lib/data_fabric/dynamic_switching.rb:64-67 | inside the interval nothing changes; once it has elapsed the flag becomes `behind?`; an exception leaves the flag as it was |
| DynamicSwitching.Status.SetSlaveConnection | lib/data_fabric/dynamic_switching.rb:69-71 | forwards to the poller's checker |
| DynamicSwitching.StatusRegistry.constructor | lib/data_fabric/dynamic_switching.rb:6-8 | the registry is nil before any load |
| DynamicSwitching.StatusRegistry.StatusFor | lib/data_fabric/dynamic_switching.rb:14-20 | the registered status; an unregistered name raises BadDbConfiguration; before any load the call raises |
| DynamicSwitching.StatusRegistry.LoadConfigurations | lib/data_fabric/dynamic_switching.rb:33-41 | the registry becomes exactly one new status per selected name, built from that name's last entry and reporting not-master (corrected order of `Status`); other flags are unchanged |
| DynamicSwitching.NewStatuses | lib/data_fabric/dynamic_switching.rb:37-40 | the loop: one new status per name of the list, a later entry replacing an earlier one, each status built in the corrected order |
| DynamicSwitching.SelectedIsLast | lib/data_fabric/dynamic_switching.rb:37-40 | the statuses' configurations are keyed by exactly the listed names, each the last entry of its name |
| DynamicSwitching.ClearedNames | lib/data_fabric/dynamic_switching.rb:37-40 | after the loop in the corrected order, every listed name's flag is cleared and every other flag is as it was |
| DynamicSwitching.GateRunScenario | lib/data_fabric/dynamic_switching.rb:85-92 | any run of calls on a poller with the default interval: two calls answered true are more than 5 seconds apart |
| DynamicSwitching.GateScenario | lib/data_fabric/dynamic_switching.rb:85-92 | with interval 5 from time 0: true at 6, false at 8, true at 12; an entry without settings uses 5 and 5 |
| DynamicSwitching.CheckerScenario | test/sql_slave_checker_test.rb:6-8 | no lag without a connection; the first connection sticks; a lag of 4 is behind a threshold of 1 but not of 5 |
| DynamicSwitching.SlaveEntrySelected | lib/data_fabric/dynamic_switching.rb:26-31 | of `test_master` and `test_slave`, only the slave entry is selected, with its settings kept |
| DynamicSwitching.RegistryScenario | lib/data_fabric/dynamic_switching.rb:14-41 | the registry raises before loading; after loading, `test_master` raises BadDbConfiguration and `test_slave` has a not-master status |
| DynamicSwitching.StickySteps | lib/data_fabric/dynamic_switching.rb:64-67 | a lag of 4 at second 10 switches to master; a caught-up replica at second 12 is not read, so the decision sticks; at second 16 it switches back |
| DynamicSwitching.StickyScenario | lib/data_fabric/dynamic_switching.rb:64-67 | the same run from a newly built status |
| Interval.NameIsReplicatedSlaveName | lib/data_fabric/interval.rb:46-48 | the checker's entry `test_slave` is the slave name of a replicated, unsharded model with no prefix |
| Interval.Name | lib/data_fabric/interval.rb:46-48 | `"#{environment}_slave"` |
| Interval.SlaveLag | lib/data_fabric/interval.rb:36-40 | an unknown slave entry raises; a non-MySQL adapter has no lag; otherwise the query decides, at most 9 |
| Interval.DataFabricInterval.constructor | lib/data_fabric/interval.rb:6-21 | last check at construction time; interval and threshold from the slave entry, defaulting to 5 |
| Interval.DataFabricInterval.CheckServer | lib/data_fabric/interval.rb:23-30 | answers `Due`, and moves the last check only on true |
| Interval.DataFabricInterval.SlavePool | lib/data_fabric/interval.rb:50-54 | an unknown slave entry raises ArgumentError; otherwise a new pool on every call |
| Interval.SlavePoolCalls | lib/data_fabric/interval.rb:36-40 | the pools one `seconds_behind` opens: 0, 1 or 2 new pools on the slave entry, numbered on from the pools made before |
| Interval.DataFabricInterval.SecondsBehind | lib/data_fabric/interval.rb:36-40 | the lag is `SlaveLag`; the driver's record gains exactly the pool creations of `SlavePoolCalls` (none without the entry, one for a non-MySQL adapter, two for MySQL) and nothing else: no pool is cached or released |
| Interval.DataFabricInterval.IsBehind | lib/data_fabric/interval.rb:42-44 | the lag compared strictly with the threshold, with exactly the driver calls of `seconds_behind` |
| Interval.SettingsScenario | test/interval_test.rb:6-12 | the interval and threshold in the slave entry are the ones read; without them 5 and 5 |
| Interval.SlavePoolScenario | lib/data_fabric/interval.rb:50-54 | two calls give two different pools on the same entry; without the entry the call raises |
| Status.DataFabricStatus.constructor | lib/data_fabric/status.rb:6-8 | reads start on the slave |
| Status.DataFabricStatus.IsMaster | lib/data_fabric/status.rb:10-12 | `master?` is the stored decision; a function, so it changes nothing |
| Status.DataFabricStatus.UpdateStatus | lib/data_fabric/status.rb:14-17 | inside the interval, or when the gate raises, the driver is untouched; inside the interval the decision also stays. Once the interval has elapsed, the decision is `behind?` and the driver gains exactly the `SlavePoolCalls` pool creations. An exception leaves the decision as it was |
| Status.StatusScenario | test/connection_test.rb:150-156 | a new status reads from the slave; a lag of 4 over a threshold of 1 moves reads to the master only once the interval has elapsed |
| Extensions.ConnectionHandler.ClearActiveConnections | lib/data_fabric/extensions.rb:5-8 | ActiveRecord's own clear first, then `release_connection` on every cached pool in order |
| Extensions.ConnectionHandler.Included | lib/data_fabric/extensions.rb:79-85 | the class-wide pool cache starts empty |
| Extensions.ConnectionHandler.DataFabric | lib/data_fabric/extensions.rb:89-92 | a new proxy for the model replaces any earlier one, with the options given; a replicated model sets its default role |
| Extensions.ConnectionHandler.WithMaster | lib/data_fabric/extensions.rb:94-96 | a model without a proxy raises; otherwise the proxy's `with_master` |
| Extensions.BaseLag | lib/data_fabric/extensions.rb:46-52 | an unconfigured slave entry raises; a non-MySQL adapter has no lag; otherwise the query decides, at most 9 |
| Extensions.DataFabricInterval.constructor | lib/data_fabric/extensions.rb:16-31 | last check at construction time; interval and threshold from the slave entry, defaulting to 5 |
| Extensions.DataFabricInterval.CheckServer | lib/data_fabric/extensions.rb:33-40 | answers `Due`, and moves the last check only on true |
| Extensions.DataFabricInterval.SecondsBehind | lib/data_fabric/extensions.rb:46-52 | the lag is `BaseLag`, and `ActiveRecord::Base` is left connected to the slave entry |
| Extensions.DataFabricInterval.IsBehind | lib/data_fabric/extensions.rb:54-56 | the lag compared strictly with the threshold |
| Extensions.DataFabricStatus.constructor | lib/data_fabric/extensions.rb:62-64 | reads start on the slave |
| Extensions.DataFabricStatus.IsMaster | lib/data_fabric/extensions.rb:66-68 | `master?` is the stored decision; a function, so it changes nothing |
| Extensions.DataFabricStatus.UpdateStatus | lib/data_fabric/extensions.rb:70-73 | inside the interval, or when the gate raises, nothing reconnects; inside the interval the decision also stays. Once the interval has elapsed, the decision is `behind?`, and `ActiveRecord::Base` is left on the slave entry when it is configured |
| Extensions.BaseConnectionScenario | lib/data_fabric/extensions.rb:46-52 | `ActiveRecord::Base`, connected to `test_master`, is on `test_slave` after a lag check |
| Extensions.RegistrationScenario | lib/data_fabric/extensions.rb:89-96 | `with_master` on an unregistered model raises; once registered its block runs as master, and the role is the slave again afterwards |

Some pure functions have no row of their own. Each is the specification function of the methods and lemmas named next to it, and the rows of those members state what it means:

- `ConnectionNames.NameBuilder` (lib/data_fabric/connection_proxy.rb:173-183): the clause list, built by `Routing.ConnectionProxy.ConnectionNameBuilder` and described by `ConnectionNames.ConnectionNameFollowsConvention`.
- `ConnectionNames.ConnectionName` (lib/data_fabric/connection_proxy.rb:83-85): the name that `Routing.ConnectionProxy.ConnectionName` returns, described by `ConnectionNameFollowsConvention`, `ConnectionNameTracksShard` and `ConnectionNameTracksRole`.
- `ConnectionNames.ShardNamesOf` (lib/data_fabric/connection_proxy.rb:120-134): the list that `Routing.ConnectionProxy.ShardNames` memoises. `ShardNamesAreShardValues`, `ShardNamesListsCaptures` and `ShardNamesListsMasters` describe it.
- `Routing.Admit` (lib/data_fabric/connection_proxy.rb:142-149): the cache step of `PoolRegistry.GetOrCreate` and `ConnectionProxy.CurrentPool`, described by `Routing.AdmitCaches`.
- `ShardContext.Overlay` (lib/data_fabric.rb:60-62): the map that `ThreadShards.Activate` and `EnsureSetup` install, described by `OverlayKeys`, `OverlayAt` and `OverlayElsewhere`.

## Left out

- Reading and ERB-expanding `database.yml`: the parsed entries are parameters.
- Reading `Rails.env` and `RAILS_ENV`: the environment is the constant `"test"`.
- `Time.now`: times are integer parameters.
- Floating-point time arithmetic is not modelled.
- Singleton mechanics (`include Singleton`, `instance`): instances are constructed explicitly.
- Ruby reopens `DataFabricInterval` in both `interval.rb` and `extensions.rb`. Which definition wins depends on load order, so each version is modelled in its own module.
- Delegation to the master: `method_missing`, `delegate ... :to => :master` and the `respond_to?` behaviour are left out. Only the master pool they reach is modelled (`Master`).
- `connected?`, `spec`, `with_connection`, `pk_and_sequence_for` and `primary_key` are one-line forwarders. They are not modelled separately.
- `spec_for` and `initialize_adapter`: adapter gems are loaded and connection specifications built at run time. A pool is a token bound to its configuration, and a failure to load an adapter is not modelled.
- Logging (`DataFabric.logger` and its calls) is not modelled.
- Concurrency: each thread's `Thread.current` slots are one object per thread. Races on the class-wide `shard_pools` are not modelled.
- `shard_names` builds a regular expression from the prefix and group. The pattern is `head([^_]+)tail` with the prefix, group and environment treated literally. Regex metacharacters in them are not interpreted.
- `/mysql/i` is checked with ASCII case folding only.
- ActiveRecord's own `clear_active_connections!` is one recorded call. Its effect on ActiveRecord's pools is not modelled.
- The `:dynamic_toggle` option and the `status_checker` the dynamic-switching tests attach to a connection. That wiring is not part of the modelled sources, so the statuses are not connected to the proxy's reads.
- The role slot: after the first `with_role` or `set_role` it always holds a role. The model keeps nil only for a thread that has never set one; it does not model clearing it.
- `Thread.current["#{name}_status"]` may be nil. `master?` then returns nil, which the model reads as false.
- Routing.EnchiladaScenario: stops at the first `verify_active_connections!` (test/connection_test.rb:132). The `clear_active_connections!`/`clear_all_connections!` calls (133-134) and the three calls after the block (137-139) are not modelled.
- Routing.EnchiladaWrites: the model's `verify_active_connections!` is one PoolProxy broadcasting over the class-wide cache. In Ruby the model class's call goes through the connection handler to every registered PoolProxy, and each of them broadcasts over the whole shared cache, so a pool gets one call per registered proxy. That handler-wide fan-out is not modelled.
- DynamicSwitching.Status.constructor: clears its own flag `"#{name}_status"`, which is the corrected order. As written, lines 47-49 of lib/data_fabric/dynamic_switching.rb write `"_status"` and leave the status's own flag alone (`InitialFlagsAsWritten`).
- DynamicSwitching.StatusRegistry.LoadConfigurations: its promise that every new status reports not-master holds for the corrected constructor only. As written, a status whose thread flag was true reports master right after the reload (`ReloadKeepsFlagsAsWritten`, `StaleMasterAsWritten`).
- DynamicSwitching.NewStatuses: the not-master promise and the cleared flags assume the corrected constructor, for the same reason. As written, it sets only `"_status"`.
- DynamicSwitching.ClearedNames: describes the flags after a load in the corrected order. The order as written is `ClearedAsWritten`, described by `ReloadKeepsFlagsAsWritten`.
- ShardContext.ThreadShards.constructor: the defaults are fixed when the thread object is made. Ruby reads `DataFabric.default_for_new_threads` at the thread's first `ensure_setup` (lib/data_fabric.rb:98-100). A change to the defaults between thread start and first use is not modelled.
- `ReplicaLag.Poll`: its contract only gives the number of answers. The gate's meaning is stated by `PollStep`, `PollAdvances` and `AtMostOncePerInterval`.

## Findings

| source | as written | input that shows it | evidently intended | confidence | as-written member | corrected member |
|---|---|---|---|---|---|---|
| lib/data_fabric/dynamic_switching.rb:46-50 | `Status#initialize` runs `self.master = false` before `@name = config[:name]`. The flag is written under `"_status"`, and the status's own flag `"#{name}_status"` is left as it was | a second `load_configurations` on a thread where `test_slave_status` is true: the new `test_slave` status reports master at once | a new status starts on the slave (reports not-master) and leaves other statuses' flags alone | not executed | DynamicSwitching.StaleMasterAsWritten | DynamicSwitching.InitialFlags |
