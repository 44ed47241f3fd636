/** Values shared by every part of the model: optional values, the errors
    the router raises, Ruby values normalised by `to_s`, and the
    underscore-joined names that connection configurations are keyed by. */
module Base {

  /** The process environment (`RAILS_ENV`, `Rails.env`); one constant for
      the whole model. */
  const Environment: string := "test"

  datatype Option<T> = None | Some(value: T) {
    /** Ruby's `x || d` for a value that is either present or nil. */
    function GetOr(d: T): T {
      if Some? then value else d
    }
  }

  /** The exceptions the modelled code raises (or lets escape). */
  datatype Error =
    | NoActiveShard(group: string)          // ArgumentError from DataFabric.active_shard
    | UnknownDatabaseConfig(name: string)   // ArgumentError when a resolved name has no configuration
    | BadDbConfiguration(name: string)      // ArgumentError from DynamicSwitching.status_for
    | StatusesNotLoaded                     // NoMethodError: status_for before load_configurations
    | DatabaseNotConfigured(name: string)   // establish_connection of a name with no configuration
    | QueryRaised                           // an exception out of `execute "SHOW SLAVE STATUS;"`
    | NoProxyFor(model: string)             // with_master on a model that never called data_fabric
    | NotANumber                            // a time or lag combined with a setting that is not a number

  datatype Result<T> = Ok(value: T) | Err(error: Error)

  /** A Ruby object used as a hash key, shard value, prefix or group:
      a symbol, a string or an integer. */
  datatype Token = Sym(name: string) | Str(text: string) | Int(number: int)

  /** Ruby's `to_s` on a token. */
  function ToS(t: Token): string {
    match t
    case Sym(n) => n
    case Str(s) => s
    case Int(i) => if i < 0 then "-" + NatToS(-i) else NatToS(i)
  }

  function DigitChar(d: nat): char
    requires d < 10
  {
    ('0' as int + d) as char
  }

  /** Decimal digits of a natural number, as `Integer#to_s` writes them. */
  function NatToS(n: nat): string
    decreases n
  {
    if n < 10 then [DigitChar(n)] else NatToS(n / 10) + [DigitChar(n % 10)]
  }

  predicate NoUnderscore(s: string) {
    forall i :: 0 <= i < |s| ==> s[i] != '_'
  }

  /** Every element of `parts`, each preceded by an underscore. */
  function Trail(parts: seq<string>): string
    decreases |parts|
  {
    if |parts| == 0 then "" else "_" + parts[0] + Trail(parts[1..])
  }

  /** Ruby's `Array#join('_')`. */
  function Join(parts: seq<string>): string {
    if |parts| == 0 then "" else parts[0] + Trail(parts[1..])
  }

  /** Cuts a string at every underscore, keeping empty pieces. */
  function Split(s: string): (r: seq<string>)
    ensures |r| >= 1
    decreases |s|
  {
    if |s| == 0 then [""]
    else
      var rest := Split(s[1..]);
      if s[0] == '_' then [""] + rest else [[s[0]] + rest[0]] + rest[1..]
  }

  lemma JoinOne(x: string)
    ensures Join([x]) == x
  {
    assert [x][1..] == [];
  }

  lemma JoinCons(parts: seq<string>)
    requires |parts| >= 2
    ensures Join(parts) == parts[0] + "_" + Join(parts[1..])
  {
    assert parts[1..][1..] == parts[2..];
  }

  lemma {:induction false} SplitWord(a: string, t: string)
    requires NoUnderscore(a)
    ensures Split(a) == [a]
    ensures Split(a + "_" + t) == [a] + Split(t)
  {
    if |a| == 0 {
      assert ("_" + t)[1..] == t;
    } else {
      SplitWord(a[1..], t);
      assert (a + "_" + t)[1..] == a[1..] + "_" + t;
      assert [a[0]] + a[1..] == a;
    }
  }

  /** Joining underscore-free pieces with `_` loses nothing: splitting the
      result at its underscores gives the pieces back, so two different
      clause lists never produce the same name. */
  lemma {:induction false} SplitJoin(parts: seq<string>)
    requires |parts| >= 1
    requires forall i :: 0 <= i < |parts| ==> NoUnderscore(parts[i])
    ensures Split(Join(parts)) == parts
  {
    if |parts| == 1 {
      SplitWord(parts[0], "");
      assert Join(parts) == parts[0];
    } else {
      JoinCons(parts);
      SplitWord(parts[0], Join(parts[1..]));
      SplitJoin(parts[1..]);
      assert [parts[0]] + parts[1..] == parts;
    }
  }

  lemma JoinInjective(p: seq<string>, q: seq<string>)
    requires |p| >= 1 && |q| >= 1
    requires forall i :: 0 <= i < |p| ==> NoUnderscore(p[i])
    requires forall i :: 0 <= i < |q| ==> NoUnderscore(q[i])
    requires Join(p) == Join(q)
    ensures p == q
  {
    SplitJoin(p);
    SplitJoin(q);
  }

  lemma {:induction false} TrailAppend(a: seq<string>, b: seq<string>)
    ensures Trail(a + b) == Trail(a) + Trail(b)
    decreases |a|
  {
    if |a| == 0 {
      assert a + b == b;
    } else {
      TrailAppend(a[1..], b);
      assert (a + b)[1..] == a[1..] + b;
    }
  }

  /** What comes before a piece in a joined name: the pieces before it,
      joined, and one more underscore (nothing when it comes first). */
  function Lead(before: seq<string>): string {
    if |before| == 0 then "" else Join(before) + "_"
  }

  /** A piece of a joined name sits between text that depends only on the
      pieces before it and text that depends only on the pieces after it. */
  lemma JoinInfix(before: seq<string>, x: string, after: seq<string>)
    ensures Join(before + [x] + after) == Lead(before) + x + Trail(after)
  {
    var all := before + [x] + after;
    var rest := [x] + after;
    assert rest[0] == x && rest[1..] == after;
    assert Trail(rest) == "_" + x + Trail(after);
    if |before| == 0 {
      assert all == rest;
    } else {
      var b1 := before[1..];
      assert all[0] == before[0];
      assert all[1..] == b1 + rest;
      TrailAppend(b1, rest);
      var h, t := before[0], Trail(b1);
      assert Join(all) == h + (t + ("_" + x + Trail(after)));
      assert Lead(before) == h + t + "_";
    }
  }

  /** `start + |sub| <= |s|` and `sub` is found in `s` at `start`. */
  predicate OccursAt(s: string, sub: string, start: nat) {
    start + |sub| <= |s| && s[start..start + |sub|] == sub
  }

  /** An unanchored, literal regular expression match (`s =~ /sub/`). */
  predicate Contains(s: string, sub: string) {
    exists start: nat | start <= |s| :: OccursAt(s, sub, start)
  }
}
