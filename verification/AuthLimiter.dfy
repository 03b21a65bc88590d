/**
 * The sliding-window counter of failed logins, per address and per username. An attempt is checked
 * first and recorded later if it fails; in between, other attempts run.
 */
module AuthLimiters {
  import opened Options

  type Time = real

  const WINDOW: Time := 60.0
  const IP_LIMIT := 5
  const USERNAME_LIMIT := 10

  /** The failures still inside the window. */
  function Recent(v: seq<Time>, now: Time): (r: seq<Time>)
    ensures forall t :: t in r <==> t in v && now - t < 60.0
  {
    if v == [] then []
    else
      var rest := Recent(v[..|v| - 1], now);
      if now - v[|v| - 1] < WINDOW then rest + [v[|v| - 1]] else rest
  }

  function Failures<K>(m: map<K, seq<Time>>, k: K): seq<Time> {
    if k in m then m[k] else []
  }

  /** A check prunes the entry of its key and allows fewer than `limit` recent failures. */
  function Checked<K>(m: map<K, seq<Time>>, k: K, limit: nat, now: Time): (map<K, seq<Time>>, bool) {
    if k in m then (m[k := Recent(m[k], now)], |Recent(m[k], now)| < limit) else (m, true)
  }

  function Recorded<K>(m: map<K, seq<Time>>, k: K, now: Time): map<K, seq<Time>> {
    m[k := Failures(m, k) + [now]]
  }

  function Cleaned<K>(m: map<K, seq<Time>>, now: Time): map<K, seq<Time>> {
    map k | k in m && Recent(m[k], now) != [] :: Recent(m[k], now)
  }

  class AuthRateLimiter {
    var ipFailures: map<string, seq<Time>>
    var usernameFailures: map<string, seq<Time>>

    constructor ()
      ensures ipFailures == map[] && usernameFailures == map[]
    {
      ipFailures, usernameFailures := map[], map[];
    }

    /** retain on one entry: drops what has left the window, in place and in order. */
    static method Prune(v: seq<Time>, now: Time) returns (kept: seq<Time>)
      ensures kept == Recent(v, now)
      ensures forall t :: t in kept <==> t in v && now - t < 60.0
    {
      kept := [];
      for i := 0 to |v|
        invariant kept == Recent(v[..i], now)
      {
        assert v[..i + 1][..i] == v[..i];
        if now - v[i] < WINDOW { kept := kept + [v[i]]; }
      }
      assert v[..|v|] == v;
    }

    method CheckIp(ip: string, now: Time) returns (ok: bool)
      modifies this
      ensures (ipFailures, ok) == Checked(old(ipFailures), ip, IP_LIMIT, now)
      ensures usernameFailures == old(usernameFailures)
    {
      if ip in ipFailures {
        var entry := Prune(ipFailures[ip], now);
        ipFailures := ipFailures[ip := entry];
        return |entry| < IP_LIMIT;
      }
      return true;
    }

    method CheckUsername(username: string, now: Time) returns (ok: bool)
      modifies this
      ensures (usernameFailures, ok) == Checked(old(usernameFailures), username, USERNAME_LIMIT, now)
      ensures ipFailures == old(ipFailures)
    {
      if username in usernameFailures {
        var entry := Prune(usernameFailures[username], now);
        usernameFailures := usernameFailures[username := entry];
        return |entry| < USERNAME_LIMIT;
      }
      return true;
    }

    /** The part of handle_authenticate before the credentials are looked at. Each check reads the clock itself. */
    method Admit(ip: string, username: string, ipAt: Time, nameAt: Time) returns (ok: bool)
      modifies this
      ensures
        var (ips, ipOk) := Checked(old(ipFailures), ip, IP_LIMIT, ipAt);
        var (names, nameOk) := Checked(old(usernameFailures), username, USERNAME_LIMIT, nameAt);
        && ipFailures == ips
        && usernameFailures == (if ipOk && username != "" then names else old(usernameFailures))
        && ok == (ipOk && (username == "" || nameOk))
    {
      ok := CheckIp(ip, ipAt);
      if !ok { return false; }
      if username != "" {
        ok := CheckUsername(username, nameAt);
      }
    }

    /** The failure branch of handle_authenticate. */
    method RecordFailure(ip: string, username: string, ipAt: Time, nameAt: Time)
      modifies this
      ensures ipFailures == Recorded(old(ipFailures), ip, ipAt)
      ensures ip in ipFailures && ipFailures[ip] == (if ip in old(ipFailures) then old(ipFailures)[ip] else []) + [ipAt]
      ensures usernameFailures == if username != "" then Recorded(old(usernameFailures), username, nameAt)
                                  else old(usernameFailures)
    {
      ipFailures := ipFailures[ip := Failures(ipFailures, ip) + [ipAt]];
      if username != "" {
        usernameFailures := usernameFailures[username := Failures(usernameFailures, username) + [nameAt]];
      }
    }

    method Cleanup(now: Time)
      modifies this
      ensures ipFailures == Cleaned(old(ipFailures), now)
      ensures usernameFailures == Cleaned(old(usernameFailures), now)
      ensures forall k :: k in ipFailures <==> k in old(ipFailures) && exists t :: t in old(ipFailures)[k] && now - t < 60.0
      ensures forall k :: k in usernameFailures <==>
                k in old(usernameFailures) && exists t :: t in old(usernameFailures)[k] && now - t < 60.0
    {
      forall v ensures Recent(v, now) != [] <==> exists t :: t in v && now - t < 60.0 { NoneRecentIff(v, now); }
      ipFailures := map k | k in ipFailures && Recent(ipFailures[k], now) != [] :: Recent(ipFailures[k], now);
      usernameFailures :=
        map k | k in usernameFailures && Recent(usernameFailures[k], now) != [] :: Recent(usernameFailures[k], now);
    }
  }

  // ---- Pruning and the window ----

  lemma {:induction false} RecentAppend(v: seq<Time>, t: Time, now: Time)
    ensures Recent(v + [t], now) == if now - t < WINDOW then Recent(v, now) + [t] else Recent(v, now)
  {
    assert (v + [t])[..|v|] == v;
  }

  /** What has been pruned would be pruned later anyway. */
  lemma {:induction false} RecentOfRecent(v: seq<Time>, t: Time, now: Time)
    requires t <= now
    ensures Recent(Recent(v, t), now) == Recent(v, now)
  {
    if v != [] {
      var init, last := v[..|v| - 1], v[|v| - 1];
      assert v == init + [last];
      RecentOfRecent(init, t, now);
      if t - last < WINDOW { RecentAppend(Recent(init, t), last, now); }
    }
  }

  lemma NoneRecentIff(v: seq<Time>, now: Time)
    ensures Recent(v, now) == [] <==> !exists t :: t in v && now - t < 60.0
  {
    if Recent(v, now) != [] { assert Recent(v, now)[0] in Recent(v, now); }
  }

  /** Of a log in order, the window is the end: everything from the first recent failure on. */
  lemma {:induction false} RecentIsSuffix(v: seq<Time>, now: Time) returns (first: nat)
    requires SortedUpTo(v, now)
    ensures first <= |v| && Recent(v, now) == v[first..]
    ensures (forall j :: 0 <= j < first ==> now - v[j] >= 60.0) && forall j :: first <= j < |v| ==> now - v[j] < 60.0
  {
    first := 0;
    if v != [] {
      var init, last := v[..|v| - 1], v[|v| - 1];
      first := RecentIsSuffix(init, now);
      assert v == init + [last];
      if now - last >= WINDOW {
        assert forall j :: 0 <= j < |init| ==> init[j] <= last;
        first := |v|;
      }
    }
  }

  lemma {:induction false} RecentShrinks(v: seq<Time>, t: Time, now: Time)
    requires t <= now
    ensures |Recent(v, now)| <= |Recent(v, t)|
  {
    if v != [] { RecentShrinks(v[..|v| - 1], t, now); }
  }

  // ---- Runs ----

  /**
   * The attempts on one limiter map. Check starts an attempt if it is allowed; Fail records one that
   * is under way; Drop ends one without a record (it succeeded, or was refused for another reason).
   */
  datatype Op<K> = Check(key: K, at: Time) | Fail(key: K, at: Time) | Drop(key: K, at: Time) | Cleanup(at: Time)

  /** `log` and `underWay` record all failures of k and its attempts between check and record. */
  datatype State<K> = State(entries: map<K, seq<Time>>, log: seq<Time>, underWay: int)

  function Start<K>(): State<K> {
    State(map[], [], 0)
  }

  function Next<K(==)>(s: State<K>, k: K, limit: nat, op: Op<K>): State<K> {
    match op
    case Check(key, at) =>
      var (entries, ok) := Checked(s.entries, key, limit, at);
      State(entries, s.log, if key == k && ok then s.underWay + 1 else s.underWay)
    case Fail(key, at) =>
      State(Recorded(s.entries, key, at),
            if key == k then s.log + [at] else s.log, if key == k then s.underWay - 1 else s.underWay)
    case Drop(key, at) => s.(underWay := if key == k then s.underWay - 1 else s.underWay)
    case Cleanup(at) => s.(entries := Cleaned(s.entries, at))
  }

  function Run<K(==)>(k: K, limit: nat, ops: seq<Op<K>>): State<K> {
    if ops == [] then Start() else Next(Run(k, limit, ops[..|ops| - 1]), k, limit, ops[|ops| - 1])
  }

  /** Only attempts under way end, and at most `atOnce` of k's are ever under way together. */
  ghost predicate Legal<K>(k: K, limit: nat, atOnce: nat, ops: seq<Op<K>>) {
    ops != [] ==>
      && Legal(k, limit, atOnce, ops[..|ops| - 1])
      && 0 <= Run(k, limit, ops).underWay <= atOnce
  }

  ghost predicate Monotone<K>(ops: seq<Op<K>>, now: Time) {
    && (forall i :: 0 <= i < |ops| ==> ops[i].at <= now)
    && (forall i, j :: 0 <= i < j < |ops| ==> ops[i].at <= ops[j].at)
  }

  /** The pruned entry of k shows the same recent failures as the full log. */
  lemma {:induction false} EntryShowsRecentLog<K>(k: K, limit: nat, ops: seq<Op<K>>, now: Time)
    requires Monotone(ops, now)
    ensures Recent(Failures(Run(k, limit, ops).entries, k), now) == Recent(Run(k, limit, ops).log, now)
  {
    if ops != [] {
      var n := |ops| - 1;
      var before, op := ops[..n], ops[n];
      var s := Run(k, limit, before);
      var v := Failures(s.entries, k);
      EntryShowsRecentLog(k, limit, before, op.at);
      RecentOfRecent(v, op.at, now);
      RecentOfRecent(s.log, op.at, now);
      match op
      case Check(_, _) =>
      case Fail(key, at) =>
        if key == k {
          RecentAppend(v, at, now);
          RecentAppend(s.log, at, now);
        }
      case Drop(_, _) =>
      case Cleanup(_) =>
    }
  }

  /** A check counts exactly the failures recorded in the last 60 seconds. */
  lemma CheckCountsTheWindow<K>(k: K, limit: nat, ops: seq<Op<K>>, now: Time)
    requires limit > 0 && Monotone(ops, now)
    ensures Checked(Run(k, limit, ops).entries, k, limit, now).1
         <==> |Recent(Run(k, limit, ops).log, now)| < limit
  {
    EntryShowsRecentLog(k, limit, ops, now);
  }

  /**
   * In terms of the times alone: a check is allowed exactly when fewer than `limit` failures were ever
   * recorded, or the limit-th last of them is at least 60 seconds old.
   */
  lemma AllowedIff<K>(k: K, limit: nat, ops: seq<Op<K>>, now: Time)
    requires limit > 0 && Monotone(ops, now)
    ensures
      var log := Run(k, limit, ops).log;
      Checked(Run(k, limit, ops).entries, k, limit, now).1 <==> |log| < limit || now - log[|log| - limit] >= 60.0
  {
    CheckCountsTheWindow(k, limit, ops, now);
    LogIsSorted(k, limit, ops, now);
    var first := RecentIsSuffix(Run(k, limit, ops).log, now);
  }

  /** The two limits: the fifth failure of an address and the tenth of a username close the door for a minute. */
  lemma LimitsInForce(key: string, ops: seq<Op<string>>, now: Time)
    requires Monotone(ops, now)
    ensures
      var log := Run(key, IP_LIMIT, ops).log;
      Checked(Run(key, IP_LIMIT, ops).entries, key, IP_LIMIT, now).1 <==> |log| < 5 || now - log[|log| - 5] >= 60.0
    ensures
      var log := Run(key, USERNAME_LIMIT, ops).log;
      Checked(Run(key, USERNAME_LIMIT, ops).entries, key, USERNAME_LIMIT, now).1 <==> |log| < 10 || now - log[|log| - 10] >= 60.0
  {
    AllowedIff(key, IP_LIMIT, ops, now);
    AllowedIff(key, USERNAME_LIMIT, ops, now);
  }

  /** Recent failures plus attempts under way never exceed limit - 1 + atOnce. */
  lemma {:induction false} FailuresAndAttempts<K>(k: K, limit: nat, atOnce: nat, ops: seq<Op<K>>, now: Time)
    requires limit > 0 && Monotone(ops, now) && Legal(k, limit, atOnce, ops)
    ensures
      var s := Run(k, limit, ops);
      |Recent(s.log, now)| + s.underWay <= limit - 1 + atOnce
  {
    if ops != [] {
      var n := |ops| - 1;
      var before, op := ops[..n], ops[n];
      var s := Run(k, limit, before);
      FailuresAndAttempts(k, limit, atOnce, before, op.at);
      RecentShrinks(s.log, op.at, now);
      match op
      case Check(key, at) =>
        if key == k { CheckCountsTheWindow(k, limit, before, at); }
      case Fail(key, at) =>
        if key == k { RecentAppend(s.log, at, now); }
      case Drop(_, _) =>
      case Cleanup(_) =>
    }
  }

  ghost predicate SortedUpTo(v: seq<Time>, now: Time) {
    && (forall i :: 0 <= i < |v| ==> v[i] <= now)
    && (forall i, j :: 0 <= i < j < |v| ==> v[i] <= v[j])
  }

  lemma {:induction false} LogIsSorted<K>(k: K, limit: nat, ops: seq<Op<K>>, now: Time)
    requires Monotone(ops, now)
    ensures SortedUpTo(Run(k, limit, ops).log, now)
  {
    if ops != [] {
      var n := |ops| - 1;
      LogIsSorted(k, limit, ops[..n], ops[n].at);
      var before := Run(k, limit, ops[..n]).log;
      assert SortedUpTo(before, now) && SortedUpTo(before + [ops[n].at], now);
      assert Run(k, limit, ops).log == before || Run(k, limit, ops).log == before + [ops[n].at];
    }
  }

  /** A suffix of a sorted log that starts within the window is all recent. */
  lemma {:induction false} SuffixIsRecent(v: seq<Time>, i: nat, now: Time)
    requires i <= |v| && forall j :: i <= j < |v| ==> now - v[j] < WINDOW
    ensures |Recent(v, now)| >= |v| - i
  {
    if i < |v| { SuffixIsRecent(v[..|v| - 1], i, now); }
  }

  /**
   * With at most atOnce attempts on a key between check and record at once, any 60 seconds hold at
   * most limit - 1 + atOnce recorded failures of that key: here those from number i to number j.
   */
  lemma {:induction false} WindowHoldsFewFailures<K>(
    k: K, limit: nat, atOnce: nat, ops: seq<Op<K>>, now: Time, i: nat, j: nat)
    requires limit > 0 && Monotone(ops, now) && Legal(k, limit, atOnce, ops)
    requires i <= j < |Run(k, limit, ops).log|
    requires Run(k, limit, ops).log[j] - Run(k, limit, ops).log[i] < WINDOW
    ensures j - i + 1 <= limit - 1 + atOnce
    decreases |ops|
  {
    var n := |ops| - 1;
    var before, op := ops[..n], ops[n];
    var log := Run(k, limit, ops).log;
    LogIsSorted(k, limit, ops, now);
    if j < |Run(k, limit, before).log| {
      WindowHoldsFewFailures(k, limit, atOnce, before, op.at, i, j);
    } else {
      assert op.Fail? && log[j] == op.at;
      FailuresAndAttempts(k, limit, atOnce, ops, op.at);
      SuffixIsRecent(log, i, op.at);
    }
  }

  /** Attempts made one after another: never more than `limit` failures in 60 seconds. */
  lemma SequentialAttempts<K>(k: K, limit: nat, ops: seq<Op<K>>, now: Time, i: nat, j: nat)
    requires limit > 0 && Monotone(ops, now) && Legal(k, limit, 1, ops)
    requires i <= j < |Run(k, limit, ops).log|
    requires Run(k, limit, ops).log[j] - Run(k, limit, ops).log[i] < WINDOW
    ensures j - i + 1 <= limit
  {
    WindowHoldsFewFailures(k, limit, 1, ops, now, i, j);
  }

  // ---- Cleanup ----

  function WithoutCleanups<K>(ops: seq<Op<K>>): seq<Op<K>> {
    if ops == [] then []
    else WithoutCleanups(ops[..|ops| - 1]) + if ops[|ops| - 1].Cleanup? then [] else [ops[|ops| - 1]]
  }

  lemma {:induction false} WithoutCleanupsIsMonotone<K>(ops: seq<Op<K>>, now: Time)
    requires Monotone(ops, now)
    ensures Monotone(WithoutCleanups(ops), now)
  {
    if ops != [] {
      var n := |ops| - 1;
      WithoutCleanupsIsMonotone(ops[..n], ops[n].at);
      if ops[n].Cleanup? { assert WithoutCleanups(ops) == WithoutCleanups(ops[..n]); }
    }
  }

  lemma SameAnswerSameLog<K>(s: State<K>, t: State<K>, k: K, limit: nat, op: Op<K>)
    requires s.log == t.log && s.underWay == t.underWay
    requires op.Check? && op.key == k ==>
               Checked(s.entries, k, limit, op.at).1 == Checked(t.entries, k, limit, op.at).1
    ensures Next(s, k, limit, op).log == Next(t, k, limit, op).log
    ensures Next(s, k, limit, op).underWay == Next(t, k, limit, op).underWay
  {
  }

  lemma RunOfLonger<K>(k: K, limit: nat, ops: seq<Op<K>>, op: Op<K>)
    ensures Run(k, limit, ops + [op]) == Next(Run(k, limit, ops), k, limit, op)
  {
    assert (ops + [op])[..|ops|] == ops;
  }

  /** Inserting cleanups anywhere changes neither what is recorded nor what is under way. */
  lemma {:induction false} CleanupKeepsTheLog<K>(k: K, limit: nat, ops: seq<Op<K>>, now: Time)
    requires limit > 0 && Monotone(ops, now)
    ensures
      var s, t := Run(k, limit, ops), Run(k, limit, WithoutCleanups(ops));
      s.log == t.log && s.underWay == t.underWay
  {
    if ops != [] {
      var n := |ops| - 1;
      var before, op := ops[..n], ops[n];
      var plain := WithoutCleanups(before);
      CleanupKeepsTheLog(k, limit, before, op.at);
      if op.Cleanup? {
        assert WithoutCleanups(ops) == plain;
      } else {
        WithoutCleanupsIsMonotone(before, op.at);
        CheckCountsTheWindow(k, limit, before, op.at);
        CheckCountsTheWindow(k, limit, plain, op.at);
        SameAnswerSameLog(Run(k, limit, before), Run(k, limit, plain), k, limit, op);
        RunOfLonger(k, limit, plain, op);
      }
    }
  }

  /** ... and so every later check gets the same answer. */
  lemma CleanupIsInvisible<K>(k: K, limit: nat, ops: seq<Op<K>>, now: Time)
    requires limit > 0 && Monotone(ops, now)
    ensures Checked(Run(k, limit, ops).entries, k, limit, now).1
         == Checked(Run(k, limit, WithoutCleanups(ops)).entries, k, limit, now).1
  {
    WithoutCleanupsIsMonotone(ops, now);
    CleanupKeepsTheLog(k, limit, ops, now);
    CheckCountsTheWindow(k, limit, ops, now);
    CheckCountsTheWindow(k, limit, WithoutCleanups(ops), now);
  }
}
