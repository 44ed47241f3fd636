/** How lib/data_fabric/connection_proxy.rb names a connection
    configuration: the clause list of `connection_name_builder` (memoised,
    with the active shard and the role left as `StringProxy` clauses that
    are read again at every `join`), and the `shard_names` scan of the
    configuration names. */
module ConnectionNames {
  import opened Base
  import ShardContext

  /** The options of `data_fabric(options)` that the proxy reads. */
  datatype Options = Options(
    replicated: bool,              // options[:replicated]
    shardBy: Option<Token>,        // options[:shard_by]
    prefix: Option<Token>,         // options[:prefix]
    defaultRole: Option<string>)   // options[:default_role]

  /** `options[:default_role] || 'slave'` */
  function DefaultRole(o: Options): string {
    o.defaultRole.GetOr("slave")
  }

  /** The role a proxy resolves: the thread's role slot if set, else its default. */
  function RoleOf(slot: Option<string>, o: Options): string {
    slot.GetOr(DefaultRole(o))
  }

  /** One element of the clause list: fixed text, or a `StringProxy` that
      yields the group's active shard or the current role when joined. */
  datatype Clause = Literal(text: string) | ActiveShardOf(group: Token) | CurrentRole

  /** `connection_name_builder`: prefix, group, active shard, environment,
      role, each only when configured. */
  function NameBuilder(o: Options, env: string): seq<Clause> {
    (if o.prefix.Some? then [Literal(ToS(o.prefix.value))] else [])
    + (if o.shardBy.Some? then [Literal(ToS(o.shardBy.value)), ActiveShardOf(o.shardBy.value)] else [])
    + [Literal(env)]
    + (if o.replicated then [CurrentRole] else [])
  }

  /** `to_s` of one clause at join time. */
  function Render(c: Clause, shards: ShardContext.ShardMap, role: string): Result<string> {
    match c
    case Literal(t) => Ok(t)
    case ActiveShardOf(g) => ShardContext.Lookup(shards, g)
    case CurrentRole => Ok(role)
  }

  /** Every clause rendered in order; the first raising clause aborts the join. */
  function RenderAll(cs: seq<Clause>, shards: ShardContext.ShardMap, role: string): Result<seq<string>>
    decreases |cs|
  {
    if |cs| == 0 then Ok([])
    else
      match Render(cs[0], shards, role)
      case Err(e) => Err(e)
      case Ok(x) =>
        match RenderAll(cs[1..], shards, role)
        case Err(e) => Err(e)
        case Ok(rest) => Ok([x] + rest)
  }

  /** `connection_name`: `connection_name_builder.join('_')`. */
  function ConnectionName(o: Options, env: string, shards: ShardContext.ShardMap, role: string): Result<string> {
    match RenderAll(NameBuilder(o, env), shards, role)
    case Err(e) => Err(e)
    case Ok(parts) => Ok(Join(parts))
  }

  /** The naming convention documented in lib/data_fabric.rb: prefix,
      shard group and shard, environment, role, absent ones left out. */
  function Convention(o: Options, env: string, shard: string, role: string): seq<string> {
    (if o.prefix.Some? then [ToS(o.prefix.value)] else [])
    + (if o.shardBy.Some? then [ToS(o.shardBy.value), shard] else [])
    + [env]
    + (if o.replicated then [role] else [])
  }

  /** A proxy with a shard group whose group has no active shard. */
  predicate ShardMissing(o: Options, shards: ShardContext.ShardMap) {
    o.shardBy.Some? && ToS(o.shardBy.value) !in shards
  }

  /** The shard value the name uses (meaningful only when sharded and active). */
  function ShardOf(o: Options, shards: ShardContext.ShardMap): string {
    if o.shardBy.Some? && ToS(o.shardBy.value) in shards then shards[ToS(o.shardBy.value)] else ""
  }

  /** Sequential composition of two renderings, first error winning. */
  function Then(a: Result<seq<string>>, b: Result<seq<string>>): Result<seq<string>> {
    match a
    case Err(e) => Err(e)
    case Ok(p) =>
      match b
      case Err(e) => Err(e)
      case Ok(q) => Ok(p + q)
  }

  lemma {:induction false} RenderAllAppend(a: seq<Clause>, b: seq<Clause>, shards: ShardContext.ShardMap, role: string)
    ensures RenderAll(a + b, shards, role) == Then(RenderAll(a, shards, role), RenderAll(b, shards, role))
    decreases |a|
  {
    if |a| == 0 {
      assert a + b == b;
      match RenderAll(b, shards, role) {
        case Err(_) =>
        case Ok(q) => assert [] + q == q;
      }
    } else {
      assert (a + b)[0] == a[0];
      assert (a + b)[1..] == a[1..] + b;
      RenderAllAppend(a[1..], b, shards, role);
      match Render(a[0], shards, role) {
        case Err(_) =>
        case Ok(x) =>
          match RenderAll(a[1..], shards, role) {
            case Err(_) =>
            case Ok(p) =>
              match RenderAll(b, shards, role) {
                case Err(_) =>
                case Ok(q) => assert [x] + (p + q) == ([x] + p) + q;
              }
          }
      }
    }
  }

  lemma RenderSingle(c: Clause, shards: ShardContext.ShardMap, role: string)
    ensures RenderAll([c], shards, role) ==
      match Render(c, shards, role) case Err(e) => Err(e) case Ok(x) => Ok([x])
  {
    assert [c][1..] == [];
    match Render(c, shards, role) {
      case Err(_) =>
      case Ok(x) => assert [x] + [] == [x];
    }
  }

  /** The memoised clause list, joined with the shard map and role of the
      moment, gives exactly the documented name; with a shard group and no
      active shard for it, the join raises NoActiveShard. */
  lemma ConnectionNameFollowsConvention(o: Options, env: string, shards: ShardContext.ShardMap, role: string)
    ensures ShardMissing(o, shards) ==>
      ConnectionName(o, env, shards, role) == Err(NoActiveShard(ToS(o.shardBy.value)))
    ensures !ShardMissing(o, shards) ==>
      ConnectionName(o, env, shards, role) == Ok(Join(Convention(o, env, ShardOf(o, shards), role)))
  {
    var pre := if o.prefix.Some? then [Literal(ToS(o.prefix.value))] else [];
    var sh := if o.shardBy.Some? then [Literal(ToS(o.shardBy.value)), ActiveShardOf(o.shardBy.value)] else [];
    var mid := [Literal(env)];
    var ro := if o.replicated then [CurrentRole] else [];
    assert NameBuilder(o, env) == pre + sh + mid + ro;
    RenderAllAppend(pre + sh + mid, ro, shards, role);
    RenderAllAppend(pre + sh, mid, shards, role);
    RenderAllAppend(pre, sh, shards, role);
    RenderSingle(Literal(env), shards, role);
    if o.prefix.Some? {
      RenderSingle(Literal(ToS(o.prefix.value)), shards, role);
    }
    if o.replicated {
      RenderSingle(CurrentRole, shards, role);
    }
    if o.shardBy.Some? {
      var g := o.shardBy.value;
      assert sh == [Literal(ToS(g))] + [ActiveShardOf(g)];
      RenderAllAppend([Literal(ToS(g))], [ActiveShardOf(g)], shards, role);
      RenderSingle(Literal(ToS(g)), shards, role);
      RenderSingle(ActiveShardOf(g), shards, role);
      if ToS(g) in shards {
        assert Render(ActiveShardOf(g), shards, role) == Ok(shards[ToS(g)]);
        assert [ToS(g)] + [shards[ToS(g)]] == [ToS(g), shards[ToS(g)]];
        assert RenderAll(sh, shards, role) == Ok([ToS(g), shards[ToS(g)]]);
      }
    }
  }

  /** The pieces of a name before the shard value: prefix and group. */
  function HeadParts(o: Options): seq<string> {
    (if o.prefix.Some? then [ToS(o.prefix.value)] else [])
    + (if o.shardBy.Some? then [ToS(o.shardBy.value)] else [])
  }

  /** The pieces of a master name after the shard value. */
  function TailParts(o: Options, env: string): seq<string> {
    [env] + (if o.replicated then ["master"] else [])
  }

  /** Text around a piece that is the same on both sides pins the piece. */
  lemma Cancel(a: string, x: string, y: string, c: string)
    requires a + x + c == a + y + c
    ensures x == y
  {
    var w := a + x + c;
    assert |x| == |y|;
    assert x == w[|a|..|a| + |x|];
    assert y == (a + y + c)[|a|..|a| + |y|];
  }

  /** Under one role, different shard values give different names. */
  lemma ConnectionNameTracksShard(o: Options, env: string, m1: ShardContext.ShardMap,
                                  m2: ShardContext.ShardMap, role: string)
    requires o.shardBy.Some? && !ShardMissing(o, m1) && !ShardMissing(o, m2)
    ensures ConnectionName(o, env, m1, role) == ConnectionName(o, env, m2, role)
        <==> ShardOf(o, m1) == ShardOf(o, m2)
  {
    ConnectionNameFollowsConvention(o, env, m1, role);
    ConnectionNameFollowsConvention(o, env, m2, role);
    var v1, v2 := ShardOf(o, m1), ShardOf(o, m2);
    var after := [env] + (if o.replicated then [role] else []);
    assert Convention(o, env, v1, role) == HeadParts(o) + [v1] + after;
    assert Convention(o, env, v2, role) == HeadParts(o) + [v2] + after;
    JoinInfix(HeadParts(o), v1, after);
    JoinInfix(HeadParts(o), v2, after);
    if Join(Convention(o, env, v1, role)) == Join(Convention(o, env, v2, role)) {
      Cancel(Lead(HeadParts(o)), v1, v2, Trail(after));
    }
  }

  /** Under one shard map, a replicated proxy's name changes with the role
      and an unreplicated proxy's name does not. */
  lemma ConnectionNameTracksRole(o: Options, env: string, m: ShardContext.ShardMap, r1: string, r2: string)
    requires !ShardMissing(o, m)
    ensures o.replicated ==>
      (ConnectionName(o, env, m, r1) == ConnectionName(o, env, m, r2) <==> r1 == r2)
    ensures !o.replicated ==> ConnectionName(o, env, m, r1) == ConnectionName(o, env, m, r2)
  {
    ConnectionNameFollowsConvention(o, env, m, r1);
    ConnectionNameFollowsConvention(o, env, m, r2);
    var v := ShardOf(o, m);
    var c1, c2 := Convention(o, env, v, r1), Convention(o, env, v, r2);
    if o.replicated {
      var before := c1[..|c1| - 1];
      assert c1 == before + [r1] + [];
      assert c2 == before + [r2] + [];
      JoinInfix(before, r1, []);
      JoinInfix(before, r2, []);
      if Join(c1) == Join(c2) {
        Cancel(Lead(before), r1, r2, "");
      }
    } else {
      assert c1 == c2;
    }
  }

  // ---- shard_names: scanning configuration names for shard values ----

  /** The regular expression of `shard_names` is `head([^_]+)tail`, with the
      prefix and group as literal text before the capture and the
      environment (and `master` when replicated) after it. */
  function PatternHead(o: Options): string {
    Lead(HeadParts(o))
  }

  function PatternTail(o: Options, env: string): (t: string)
    ensures |t| > 0 && t[0] == '_'
  {
    Trail(TailParts(o, env))
  }

  /** Where a run of non-underscore characters starting at `from` stops. */
  function RunEnd(s: string, from: nat): (e: nat)
    requires from <= |s|
    ensures from <= e <= |s|
    ensures NoUnderscore(s[from..e])
    ensures e < |s| ==> s[e] == '_'
    decreases |s| - from
  {
    if from == |s| || s[from] == '_' then from else RunEnd(s, from + 1)
  }

  /** The pattern matches at `start`: the head is there, a non-empty
      underscore-free run follows it, and the tail follows the run. The
      capture group cannot stop earlier, since the tail starts with an
      underscore, so the longest run is the only candidate. */
  predicate MatchAt(s: string, head: string, tail: string, start: nat) {
    start <= |s| && OccursAt(s, head, start) &&
    var b := start + |head|;
    var e := RunEnd(s, b);
    b < e && OccursAt(s, tail, e)
  }

  /** `regex.match(s)` from position `i` on: the capture at the leftmost
      position where the pattern matches, if any. */
  function FirstMatch(s: string, head: string, tail: string, i: nat): Option<string>
    decreases |s| + 1 - i
  {
    if i > |s| then None
    else if MatchAt(s, head, tail, i) then Some(s[i + |head|..RunEnd(s, i + |head|)])
    else FirstMatch(s, head, tail, i + 1)
  }

  /** `md && md[1]` for one configuration name. */
  function Capture(o: Options, env: string, name: string): Option<string> {
    FirstMatch(name, PatternHead(o), PatternTail(o, env), 0)
  }

  /** `configurations.keys.map { ... }.compact`, in key order. */
  function ShardNamesOf(o: Options, env: string, names: seq<string>): seq<string>
    decreases |names|
  {
    if |names| == 0 then []
    else
      var rest := ShardNamesOf(o, env, names[1..]);
      match Capture(o, env, names[0])
      case None => rest
      case Some(v) => [v] + rest
  }

  lemma {:induction false} FirstMatchFound(s: string, head: string, tail: string, i: nat, v: string)
    requires FirstMatch(s, head, tail, i) == Some(v)
    ensures v != [] && NoUnderscore(v)
    ensures exists start: nat | i <= start <= |s| :: OccursAt(s, head + v + tail, start)
    decreases |s| + 1 - i
  {
    if MatchAt(s, head, tail, i) {
      var b := i + |head|;
      var e := RunEnd(s, b);
      assert s[i..e + |tail|] == head + v + tail by {
        assert s[i..b] == head;
        assert s[b..e] == v;
        assert s[e..e + |tail|] == tail;
        assert s[i..e + |tail|] == s[i..b] + s[b..e] + s[e..e + |tail|];
      }
      assert OccursAt(s, head + v + tail, i);
    } else {
      FirstMatchFound(s, head, tail, i + 1, v);
    }
  }

  /** Every value `shard_names` reports is a non-empty, underscore-free
      word that some configuration name holds between the pattern's head
      and tail, and each comes from a name in the list. */
  lemma {:induction false} ShardNamesAreShardValues(o: Options, env: string, names: seq<string>, v: string)
    requires v in ShardNamesOf(o, env, names)
    ensures v != [] && NoUnderscore(v)
    ensures exists k :: k in names && Capture(o, env, k) == Some(v)
    ensures exists k :: k in names && Contains(k, PatternHead(o) + v + PatternTail(o, env))
    decreases |names|
  {
    if Capture(o, env, names[0]) == Some(v) {
      FirstMatchFound(names[0], PatternHead(o), PatternTail(o, env), 0, v);
      assert names[0] in names;
    } else {
      ShardNamesAreShardValues(o, env, names[1..], v);
      var k :| k in names[1..] && Capture(o, env, k) == Some(v);
      assert k in names;
    }
  }

  /** The converse: a name with a capture contributes it. */
  lemma {:induction false} ShardNamesListsCaptures(o: Options, env: string, names: seq<string>, k: string, v: string)
    requires k in names && Capture(o, env, k) == Some(v)
    ensures v in ShardNamesOf(o, env, names)
    decreases |names|
  {
    if names[0] != k {
      ShardNamesListsCaptures(o, env, names[1..], k, v);
    }
  }

  /** The name a sharded proxy uses for the master of shard `v` is one that
      `shard_names` reads `v` back from, when `v` is a non-empty word
      without underscores (the prefix and group may hold anything). */
  lemma MasterNameCapturesShard(o: Options, env: string, m: ShardContext.ShardMap, v: string)
    requires o.shardBy.Some? && ToS(o.shardBy.value) in m && m[ToS(o.shardBy.value)] == v
    requires v != [] && NoUnderscore(v)
    ensures ConnectionName(o, env, m, "master").Ok?
    ensures Capture(o, env, ConnectionName(o, env, m, "master").value) == Some(v)
  {
    ConnectionNameFollowsConvention(o, env, m, "master");
    var head, tail := PatternHead(o), PatternTail(o, env);
    assert Convention(o, env, v, "master") == HeadParts(o) + [v] + TailParts(o, env);
    JoinInfix(HeadParts(o), v, TailParts(o, env));
    assert ConnectionName(o, env, m, "master").value == head + v + tail;
    MatchAtFront(head, v, tail);
  }

  /** A word with a head before it and an underscore-led tail after it is
      captured at the very first position. */
  lemma MatchAtFront(head: string, v: string, tail: string)
    requires v != [] && NoUnderscore(v) && |tail| > 0 && tail[0] == '_'
    ensures FirstMatch(head + v + tail, head, tail, 0) == Some(v)
  {
    var s := head + v + tail;
    var b := |head|;
    assert s[b..b + |v|] == v;
    assert s[b + |v|] == '_';
    RunOver(s, b, v);
    assert s[..|head|] == head;
    assert s[b + |v|..b + |v| + |tail|] == tail;
    assert MatchAt(s, head, tail, 0);
  }

  /** A run that starts on `v` and meets an underscore right after it ends there. */
  lemma {:induction false} RunOver(s: string, b: nat, v: string)
    requires b + |v| < |s| && s[b..b + |v|] == v && NoUnderscore(v) && s[b + |v|] == '_'
    ensures RunEnd(s, b) == b + |v|
    decreases |v|
  {
    if |v| > 0 {
      assert s[b] == v[0];
      assert s[b + 1..b + 1 + |v[1..]|] == v[1..];
      RunOver(s, b + 1, v[1..]);
    }
  }

  /** With the configuration names listed, every configured shard master
      of a sharded proxy shows up in `shard_names`. */
  lemma ShardNamesListsMasters(o: Options, env: string, m: ShardContext.ShardMap, v: string, names: seq<string>)
    requires o.shardBy.Some? && ToS(o.shardBy.value) in m && m[ToS(o.shardBy.value)] == v
    requires v != [] && NoUnderscore(v)
    requires ConnectionName(o, env, m, "master").Ok?
    requires ConnectionName(o, env, m, "master").value in names
    ensures v in ShardNamesOf(o, env, names)
  {
    MasterNameCapturesShard(o, env, m, v);
    ShardNamesListsCaptures(o, env, names, ConnectionName(o, env, m, "master").value, v);
  }

  /** The unsharded topologies documented in lib/data_fabric.rb, for any
      environment, shard map and role: plain (`production`), replicated
      (`production_master`), and with a prefix. */
  lemma UnshardedNames(env: string, m: ShardContext.ShardMap, role: string, prefix: Token)
    ensures ConnectionName(Options(false, None, None, None), env, m, role) == Ok(env)
    ensures ConnectionName(Options(true, None, None, None), env, m, role) == Ok(env + "_" + role)
    ensures ConnectionName(Options(false, None, Some(prefix), None), env, m, role) == Ok(ToS(prefix) + "_" + env)
  {
    ConnectionNameFollowsConvention(Options(false, None, None, None), env, m, role);
    ConnectionNameFollowsConvention(Options(true, None, None, None), env, m, role);
    ConnectionNameFollowsConvention(Options(false, None, Some(prefix), None), env, m, role);
    JoinOne(env);
    JoinCons([env, role]);
    JoinOne(role);
    assert [env, role][1..] == [role];
    JoinCons([ToS(prefix), env]);
    assert [ToS(prefix), env][1..] == [env];
  }

  /** Sharding without replication (`city_austin_production`). */
  lemma ShardedName(env: string, m: ShardContext.ShardMap, role: string, group: Token)
    requires ToS(group) in m
    ensures ConnectionName(Options(false, Some(group), None, None), env, m, role)
      == Ok(ToS(group) + "_" + m[ToS(group)] + "_" + env)
  {
    var o := Options(false, Some(group), None, None);
    var g := ToS(group);
    var v := m[g];
    ConnectionNameFollowsConvention(o, env, m, role);
    assert ShardOf(o, m) == v;
    assert Convention(o, env, v, role) == [g, v, env];
    JoinCons([g, v, env]);
    assert [g, v, env][1..] == [v, env];
    JoinCons([v, env]);
    assert [v, env][1..] == [env];
    JoinOne(env);
    assert Join([g, v, env]) == g + "_" + (v + "_" + env);
    assert g + "_" + (v + "_" + env) == g + "_" + v + "_" + env;
  }

  /** Prefix, sharding and replication together
      (`fiveruns_city_dallas_test_slave`), and the error when the group
      has no active shard. */
  lemma FullName(env: string, m: ShardContext.ShardMap, role: string, group: Token, prefix: Token)
    ensures ToS(group) in m ==>
      ConnectionName(Options(true, Some(group), Some(prefix), None), env, m, role)
        == Ok(ToS(prefix) + "_" + ToS(group) + "_" + m[ToS(group)] + "_" + env + "_" + role)
    ensures ToS(group) !in m ==>
      ConnectionName(Options(true, Some(group), Some(prefix), None), env, m, role) == Err(NoActiveShard(ToS(group)))
  {
    var o := Options(true, Some(group), Some(prefix), None);
    ConnectionNameFollowsConvention(o, env, m, role);
    var g, p := ToS(group), ToS(prefix);
    if g in m {
      var v := m[g];
      assert ShardOf(o, m) == v;
      assert Convention(o, env, v, role) == [p, g, v, env, role];
      var r1 := env + "_" + role;
      JoinCons([env, role]);
      assert [env, role][1..] == [role];
      JoinOne(role);
      assert Join([env, role]) == r1;
      var r2 := v + "_" + r1;
      JoinCons([v, env, role]);
      assert [v, env, role][1..] == [env, role];
      assert Join([v, env, role]) == r2;
      var r3 := g + "_" + r2;
      JoinCons([g, v, env, role]);
      assert [g, v, env, role][1..] == [v, env, role];
      assert Join([g, v, env, role]) == r3;
      JoinCons([p, g, v, env, role]);
      assert [p, g, v, env, role][1..] == [g, v, env, role];
      assert Join([p, g, v, env, role]) == p + "_" + r3;
      assert p + "_" + r3 == p + "_" + g + "_" + v + "_" + env + "_" + role;
    }
  }
}
