/** The shard context of lib/data_fabric.rb: for one thread, the map from
    shard group to the active shard value (`Thread.current[:shards]`),
    seeded lazily from `default_for_new_threads`, overlaid by
    `activate_shard` and pruned by `deactivate_shard`. Each thread owns its
    map, so one thread's map is the whole state. */
module ShardContext {
  import opened Base

  /** Shard group name (a key after `to_s`) to active shard value (after `to_s`). */
  type ShardMap = map<string, string>

  /** The hash passed to activate_shard / deactivate_shard, in iteration order. */
  type Pairs = seq<(Token, Token)>

  /** The map after `pairs.each_pair { |k, v| map[k.to_s] = v.to_s }`:
      a later pair overwrites an earlier one with the same `to_s` key. */
  function Overlay(m: ShardMap, pairs: Pairs): ShardMap
    decreases |pairs|
  {
    if |pairs| == 0 then m
    else
      var last := pairs[|pairs| - 1];
      Overlay(m, pairs[..|pairs| - 1])[ToS(last.0) := ToS(last.1)]
  }

  /** The keys of `pairs` after `to_s`. */
  function KeysOf(pairs: Pairs): set<string> {
    set i | 0 <= i < |pairs| :: ToS(pairs[i].0)
  }

  /** `active_shard(group)` against a map: the stored value, or the
      ArgumentError for an absent key. Its contract is the source's
      definition itself, case by case. */
  function Lookup(m: ShardMap, group: Token): (r: Result<string>)
    ensures r.Ok? <==> ToS(group) in m
    ensures r.Ok? ==> r.value == m[ToS(group)]
    ensures r.Err? ==> r.error == NoActiveShard(ToS(group))
  {
    if ToS(group) in m then Ok(m[ToS(group)]) else Err(NoActiveShard(ToS(group)))
  }

  lemma KeysOfSnoc(pairs: Pairs)
    requires |pairs| > 0
    ensures KeysOf(pairs) == KeysOf(pairs[..|pairs| - 1]) + {ToS(pairs[|pairs| - 1].0)}
  {
    var init := pairs[..|pairs| - 1];
    forall k | k in KeysOf(pairs)
      ensures k in KeysOf(init) + {ToS(pairs[|pairs| - 1].0)}
    {
      var i :| 0 <= i < |pairs| && ToS(pairs[i].0) == k;
      if i < |pairs| - 1 {
        assert init[i] == pairs[i];
      }
    }
    forall k | k in KeysOf(init)
      ensures k in KeysOf(pairs)
    {
      var i :| 0 <= i < |init| && ToS(init[i].0) == k;
      assert pairs[i] == init[i];
    }
  }

  /** Activation adds exactly the stringified keys of the pairs. */
  lemma {:induction false} OverlayKeys(m: ShardMap, pairs: Pairs)
    ensures Overlay(m, pairs).Keys == m.Keys + KeysOf(pairs)
    decreases |pairs|
  {
    if |pairs| > 0 {
      OverlayKeys(m, pairs[..|pairs| - 1]);
      KeysOfSnoc(pairs);
    }
  }

  /** Inside the activation, a group passed in the pairs reads as the
      `to_s` of the last value given for it. */
  lemma {:induction false} OverlayAt(m: ShardMap, pairs: Pairs, i: nat)
    requires i < |pairs|
    requires forall j :: i < j < |pairs| ==> ToS(pairs[j].0) != ToS(pairs[i].0)
    ensures ToS(pairs[i].0) in Overlay(m, pairs)
    ensures Overlay(m, pairs)[ToS(pairs[i].0)] == ToS(pairs[i].1)
    decreases |pairs|
  {
    if i < |pairs| - 1 {
      var init := pairs[..|pairs| - 1];
      assert init[i] == pairs[i];
      OverlayAt(m, init, i);
    }
  }

  /** Groups not passed keep their prior value, or stay absent. */
  lemma {:induction false} OverlayElsewhere(m: ShardMap, pairs: Pairs, k: string)
    requires k !in KeysOf(pairs)
    ensures k in Overlay(m, pairs) <==> k in m
    ensures k in m ==> Overlay(m, pairs)[k] == m[k]
    decreases |pairs|
  {
    if |pairs| > 0 {
      KeysOfSnoc(pairs);
      OverlayElsewhere(m, pairs[..|pairs| - 1], k);
    }
  }

  /** The non-block cleanup path: deactivating the same keys after a
      non-block activation leaves what deactivating alone would leave, so
      it undoes the activation exactly for groups that were not set before. */
  lemma ActivateThenDeactivate(m: ShardMap, pairs: Pairs)
    ensures Overlay(m, pairs) - KeysOf(pairs) == m - KeysOf(pairs)
  {
    var lhs := Overlay(m, pairs) - KeysOf(pairs);
    var rhs := m - KeysOf(pairs);
    OverlayKeys(m, pairs);
    forall k | k in rhs
      ensures k in lhs && lhs[k] == rhs[k]
    {
      OverlayElsewhere(m, pairs, k);
    }
    assert lhs.Keys == rhs.Keys;
  }

  /** What a block does to the shard map: the map it leaves behind and
      whether it raised. */
  datatype BlockExit = BlockExit(shards: ShardMap, raised: bool)

  /** One thread's `Thread.current[:shards]`. */
  class ThreadShards {
    /** `DataFabric.default_for_new_threads` as the thread first sees it. */
    const defaults: Pairs
    /** `Thread.current.key?(:shards)` */
    var initialised: bool
    /** `Thread.current[:shards]` once initialised */
    var shards: ShardMap

    constructor(defaults: Pairs)
      ensures this.defaults == defaults
      ensures !initialised && shards == map[]
    {
      this.defaults := defaults;
      initialised := false;
      shards := map[];
    }

    /** The map every operation works on: the stored one, or the seed that
        the first operation will install. */
    ghost function Current(): ShardMap
      reads this
    {
      if initialised then shards else Overlay(map[], defaults)
    }

    /** `ensure_setup`: seeds the map once from the stringified defaults;
        any later call changes nothing. */
    method EnsureSetup()
      modifies this
      ensures initialised && shards == old(Current())
      ensures old(initialised) ==> shards == old(shards)
    {
      if initialised {
        return;
      }
      var seeded: ShardMap := map[];
      for i := 0 to |defaults|
        invariant seeded == Overlay(map[], defaults[..i])
      {
        assert defaults[..i + 1][..i] == defaults[..i];
        seeded := seeded[ToS(defaults[i].0) := ToS(defaults[i].1)];
      }
      assert defaults[..|defaults|] == defaults;
      shards := seeded;
      initialised := true;
    }

    /** The first half of `activate_shard`: set up, take the snapshot and
        write every pair. Alone, it is the non-block form. */
    method Activate(pairs: Pairs) returns (saved: ShardMap)
      modifies this
      ensures saved == old(Current())
      ensures initialised && shards == Overlay(saved, pairs)
    {
      EnsureSetup();
      saved := shards;
      for i := 0 to |pairs|
        invariant initialised && shards == Overlay(saved, pairs[..i])
      {
        assert pairs[..i + 1][..i] == pairs[..i];
        shards := shards[ToS(pairs[i].0) := ToS(pairs[i].1)];
      }
      assert pairs[..|pairs|] == pairs;
    }

    /** The `ensure` of `activate_shard`: puts the snapshot back whole. */
    method Restore(saved: ShardMap)
      modifies this
      ensures initialised && shards == saved
    {
      shards := saved;
      initialised := true;
    }

    /** `activate_shard(shards, &block)`. Without a block the pairs stay
        active; with one, the block runs on the overlaid map and afterwards
        the map is exactly the snapshot, whether the block raised or not
        and whatever it did to the map. */
    method ActivateShard(pairs: Pairs, block: Option<ShardMap -> BlockExit>) returns (raised: bool)
      modifies this
      ensures initialised
      ensures block.None? ==> shards == Overlay(old(Current()), pairs) && !raised
      ensures block.Some? ==> shards == old(Current())
      ensures block.Some? ==> raised == block.value(Overlay(old(Current()), pairs)).raised
    {
      var saved := Activate(pairs);
      raised := false;
      if block.Some? {
        var exit := block.value(shards);
        shards := exit.shards;
        raised := exit.raised;
        Restore(saved);
      }
    }

    /** `deactivate_shard(shards)`: deletes every given key, whatever its
        value, and nothing else. */
    method DeactivateShard(pairs: Pairs)
      modifies this
      ensures initialised && shards == old(Current()) - KeysOf(pairs)
    {
      EnsureSetup();
      ghost var start := shards;
      for i := 0 to |pairs|
        invariant initialised && shards == start - KeysOf(pairs[..i])
      {
        KeysOfSnoc(pairs[..i + 1]);
        assert pairs[..i + 1][..i] == pairs[..i];
        shards := shards - {ToS(pairs[i].0)};
      }
      assert pairs[..|pairs|] == pairs;
    }

    /** `active_shard(group)` */
    method ActiveShard(group: Token) returns (r: Result<string>)
      modifies this
      ensures initialised && shards == old(Current())
      ensures r == Lookup(shards, group)
    {
      EnsureSetup();
      r := Lookup(shards, group);
    }

    /** `shard_active_for?(group)`: nil is always active and touches
        nothing; a group is active iff its key is present. */
    method ShardActiveFor(group: Option<Token>) returns (active: bool)
      modifies this
      ensures group.None? ==> active && initialised == old(initialised) && shards == old(shards)
      ensures group.Some? ==> initialised && shards == old(Current())
      ensures group.Some? ==> (active <==> ToS(group.value) in shards)
    {
      if group.None? {
        return true;
      }
      EnsureSetup();
      active := ToS(group.value) in shards;
    }
  }

  /** Nested block activations of the same group, each restoring the
      snapshot it took (lib/data_fabric.rb): the inner value wins inside, leaving the
      inner block brings the outer value back (the key is normalised, so
      `:city` and `'city'` are one group), and leaving the outer block
      leaves the group unset again. */
  method NestedActivationScenario() returns (inner: Result<string>, between: Result<string>, after: Result<string>)
    ensures inner == Ok("dallas")
    ensures between == Ok("austin")
    ensures after == Err(NoActiveShard("city"))
  {
    var t := new ThreadShards([]);
    var outer := t.Activate([(Sym("city"), Str("austin")), (Sym("category"), Str("art"))]);
    var saved := t.Activate([(Str("city"), Sym("dallas"))]);
    inner := t.ActiveShard(Sym("city"));
    t.Restore(saved);
    between := t.ActiveShard(Str("city"));
    t.Restore(outer);
    after := t.ActiveShard(Sym("city"));
  }

  /** Lazy seeding: a thread's first touch installs the stringified
      defaults, and a later deactivation removes a seeded key. */
  method SeedScenario() returns (seeded: Result<string>, removed: Result<string>)
    ensures seeded == Ok("7")
    ensures removed == Err(NoActiveShard("region"))
  {
    var t := new ThreadShards([(Sym("region"), Int(7))]);
    seeded := t.ActiveShard(Str("region"));
    var gone := [(Sym("region"), Str("ignored"))];
    assert ToS(gone[0].0) in KeysOf(gone);
    t.DeactivateShard(gone);
    removed := t.ActiveShard(Sym("region"));
  }
}
