/** The rule the three replica-lag checkers share
    (lib/data_fabric/dynamic_switching.rb, lib/data_fabric/extensions.rb,
    lib/data_fabric/interval.rb): a rate-limit gate on the time of the last
    check, the defaults of the two settings, the reading of the replication
    lag from the rows of `SHOW SLAVE STATUS`, and the strict comparison of
    the lag with the threshold. Times are integers given by the caller. */
module ReplicaLag {
  import opened Base
  import opened Driver

  /** The configuration entry the singleton checkers read: `"#{environment}_slave"`. */
  const SlaveName: string := Environment + "_slave"

  /** `config[key] || 5`: nil, false or an absent key fall back to 5; any
      other value, 0 included, is kept as it is. The contract is this
      definition itself, case by case. */
  function SettingOr(c: Config, key: string): (s: Setting)
    ensures key !in c || c[key] == Null ==> s == Number(5)
    ensures key in c && c[key] != Null ==> s == c[key]
  {
    if key in c && c[key] != Null then c[key] else Number(5)
  }

  /** `(settings[SlaveName] && settings[SlaveName][key]) || 5` */
  function SlaveSetting(settings: map<string, Config>, key: string): (s: Setting)
    ensures SlaveName !in settings ==> s == Number(5)
    ensures SlaveName in settings ==> s == SettingOr(settings[SlaveName], key)
  {
    if SlaveName in settings then SettingOr(settings[SlaveName], key) else Number(5)
  }

  /** `time > @last_checked + @check_interval`. An interval that is not a
      number cannot be added to a time, and the gate raises. The contract
      is this definition itself, case by case. */
  function Due(now: int, last: int, interval: Setting): (r: Result<bool>)
    ensures r.Err? <==> !interval.Number?
    ensures r.Err? ==> r.error == NotANumber
    ensures r.Ok? ==> (r.value <==> now > last + interval.n)
  {
    match interval
    case Number(n) => Ok(now > last + n)
    case _ => Err(NotANumber)
  }

  /** The answers of successive `check_server?` calls at `times` with a
      numeric interval, starting from last-checked time `last`, and the
      last-checked time they leave behind. */
  function Poll(last: int, interval: int, times: seq<int>): (r: (seq<bool>, int))
    ensures |r.0| == |times|
    decreases |times|
  {
    if |times| == 0 then ([], last)
    else
      var due := times[0] > last + interval;
      var rest := Poll(if due then times[0] else last, interval, times[1..]);
      ([due] + rest.0, rest.1)
  }

  /** Each answer is the gate applied to the last-checked time that the
      earlier calls left: true exactly when the interval has elapsed since
      then. */
  lemma {:induction false} PollStep(last: int, interval: int, times: seq<int>, j: nat)
    requires j < |times|
    ensures Poll(last, interval, times).0[j] == (times[j] > Poll(last, interval, times[..j]).1 + interval)
    decreases |times|
  {
    if j > 0 {
      var next := if times[0] > last + interval then times[0] else last;
      PollStep(next, interval, times[1..], j - 1);
      assert times[..j][0] == times[0];
      assert times[..j][1..] == times[1..][..j - 1];
    }
  }

  /** A call answered true moves the last-checked time to its own time, and
      with a non-negative interval that time never moves back. */
  lemma {:induction false} PollAdvances(last: int, interval: int, times: seq<int>, i: nat)
    requires interval >= 0 && i < |times|
    ensures Poll(last, interval, times).1 >= last
    ensures Poll(last, interval, times).0[i] ==> Poll(last, interval, times).1 >= times[i]
    decreases |times|
  {
    var next := if times[0] > last + interval then times[0] else last;
    if i > 0 {
      PollAdvances(next, interval, times[1..], i - 1);
    } else if |times| > 1 {
      PollAdvances(next, interval, times[1..], 0);
    }
  }

  /** The gate opens at most once per interval: two calls answered true are
      more than `interval` apart. */
  lemma AtMostOncePerInterval(last: int, interval: int, times: seq<int>, i: nat, j: nat)
    requires interval >= 0 && i < j < |times|
    requires Poll(last, interval, times).0[i] && Poll(last, interval, times).0[j]
    ensures times[j] > times[i] + interval
  {
    PollStep(last, interval, times, j);
    PollStep(last, interval, times, i);
    PollStep(last, interval, times[..j], i);
    assert times[..j][..i] == times[..i];
    assert times[..j][i] == times[i];
    PollAdvances(last, interval, times[..j], i);
  }

  /** `String#to_i` on one character: its digit value, and 0 for anything
      else. The contract is this definition itself. */
  function DigitValue(c: char): (d: nat)
    ensures d <= 9
    ensures '0' <= c <= '9' ==> d as int == c as int - '0' as int
    ensures !('0' <= c <= '9') ==> d == 0
  {
    if '0' <= c <= '9' then c as int - '0' as int else 0
  }

  /** `result.to_a.last.first.split(//).last.to_i rescue 0`: the digit of
      the last character of the first field of the last row. No rows, an
      empty row or a field that is not a string raise and are rescued as 0;
      an empty string has no last character, and `nil.to_i` is 0. */
  function ParseLag(rows: seq<Row>): (lag: nat)
    ensures lag <= 9
  {
    if |rows| == 0 then 0
    else
      var row := rows[|rows| - 1];
      if |row| == 0 then 0
      else match row[0]
        case OtherField => 0
        case TextField(s) => if |s| == 0 then 0 else DigitValue(s[|s| - 1])
  }

  /** Only the last row counts. */
  lemma ParseLagLastRow(rows: seq<Row>, row: Row)
    ensures ParseLag(rows + [row]) == ParseLag([row])
  {
    assert (rows + [row])[|rows + [row]| - 1] == row;
  }

  lemma NatToSLastDigit(n: nat)
    ensures |NatToS(n)| > 0 && NatToS(n)[|NatToS(n)| - 1] == DigitChar(n % 10)
  {
  }

  /** A last row whose first field is a decimal number reads as that
      number's last digit: a reported lag of 14 seconds reads as 4. */
  lemma ParseLagReadsLastDigit(rows: seq<Row>, n: nat)
    requires |rows| > 0 && |rows[|rows| - 1]| > 0 && rows[|rows| - 1][0] == TextField(NatToS(n))
    ensures ParseLag(rows) == n % 10
  {
    NatToSLastDigit(n);
  }

  function LowerChar(c: char): char {
    if 'A' <= c <= 'Z' then (c as int + 32) as char else c
  }

  /** ASCII lower case. */
  function Lower(s: string): (r: string)
    ensures |r| == |s| && forall i :: 0 <= i < |s| ==> r[i] == LowerChar(s[i])
  {
    seq(|s|, i requires 0 <= i < |s| => LowerChar(s[i]))
  }

  /** `adapter_name =~ /mysql/i`: `mysql` anywhere, in any case. */
  predicate IsMysqlAdapter(name: string): (r: bool)
    ensures r ==> |name| >= 5
  {
    Contains(Lower(name), "mysql")
  }

  /** The match ignores case: names that agree up to case agree on it. */
  lemma MysqlIgnoresCase(a: string, b: string)
    requires |a| == |b| && forall i :: 0 <= i < |a| ==> LowerChar(a[i]) == LowerChar(b[i])
    ensures IsMysqlAdapter(a) <==> IsMysqlAdapter(b)
  {
    assert Lower(a) == Lower(b);
  }

  /** `mysql2`, the adapter name the tests' adapter mock reports, and
      `MySQL` match; `SQLite` does not. */
  lemma MysqlAdapterNames()
    ensures IsMysqlAdapter("mysql2") && IsMysqlAdapter("MySQL")
    ensures !IsMysqlAdapter("SQLite")
  {
    assert Lower("MySQL") == "mysql";
    assert OccursAt(Lower("MySQL"), "mysql", 0);
    assert Lower("mysql2")[..5] == "mysql";
    assert OccursAt(Lower("mysql2"), "mysql", 0);
    var s := Lower("SQLite");
    forall start: nat | start <= |s|
      ensures !OccursAt(s, "mysql", start)
    {
      if start + 5 <= |s| {
        assert s[start] != 'm';
        assert s[start..start + 5][0] == s[start];
      }
    }
  }

  /** What `execute "SHOW SLAVE STATUS;"` yields to a checker with a MySQL
      connection: the parsed lag, or the query's own exception, which the
      `rescue 0` of the parse line does not cover. The contract is this
      definition itself, case by case. */
  function QueryLag(query: QueryOutcome): (r: Result<nat>)
    ensures r.Err? <==> query.Raised?
    ensures r.Err? ==> r.error == QueryRaised
    ensures r.Ok? ==> r.value == ParseLag(query.rows) && r.value <= 9
  {
    match query
    case Raised => Err(QueryRaised)
    case Rows(rows) => Ok(ParseLag(rows))
  }

  /** `seconds_behind > threshold`: the lag is read first (its exception
      propagates), then compared strictly; a threshold that is not a number
      cannot be compared. The contract is this definition itself, case
      by case. */
  function Behind(lag: Result<nat>, threshold: Setting): (r: Result<bool>)
    ensures lag.Err? ==> r == Err(lag.error)
    ensures lag.Ok? && !threshold.Number? ==> r == Err(NotANumber)
    ensures r.Ok? <==> lag.Ok? && threshold.Number?
    ensures r.Ok? ==> (r.value <==> lag.value > threshold.n)
  {
    match lag
    case Err(e) => Err(e)
    case Ok(l) =>
      match threshold
      case Number(t) => Ok(l > t)
      case _ => Err(NotANumber)
  }

  /** Because the parse reads one digit, a threshold of 9 or more can never
      declare the replica behind. */
  lemma NeverBehindAtNine(query: QueryOutcome, t: int)
    requires t >= 9
    ensures Behind(QueryLag(query), Number(t)) != Ok(true)
  {
  }
}
