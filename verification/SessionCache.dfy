/**
 * The session-revocation cache in front of the session table. A check looks at the cache, reads the
 * table some time after a miss, and fills the cache some time after that; revocations update the table
 * first and the cache later. Other tasks run in between.
 */
module SessionCaches {
  import opened Options
  import opened Runs

  type Time = real

  /** Session ids (UUIDs), as numbers. */
  datatype Jti = Jti(number: nat)

  /** A check under way. */
  datatype CheckId = CheckId(number: nat)

  const TTL: Time := 5.0

  /** A missing row counts as revoked (sessions.rs). */
  datatype Row = Active | Revoked

  datatype Cached = Cached(isRevoked: bool, at: Time)

  function IsRevoked(table: map<Jti, Row>, jti: Jti): bool {
    jti !in table || table[jti] == Revoked
  }

  /** The cached verdict, if it is younger than the time to live. */
  function Hit(cache: map<Jti, Cached>, jti: Jti, now: Time): Option<bool> {
    if jti in cache && now - cache[jti].at < TTL then Some(cache[jti].isRevoked) else None
  }

  function Cleaned(cache: map<Jti, Cached>, now: Time): map<Jti, Cached> {
    map j | j in cache && now - cache[j].at < TTL * 10.0 :: cache[j]
  }

  class SessionCache {
    var cache: map<Jti, Cached>

    constructor ()
      ensures cache == map[]
    {
      cache := map[];
    }

    /** The first half of is_session_valid: a fresh entry answers at once. */
    method LookUpCached(jti: Jti, now: Time, ghost id: CheckId, ghost s: State) returns (answer: Option<bool>)
      requires s.cache == cache
      ensures (if answer.Some? then Some((jti, answer.value)) else None) == Answer(s, LookUp(id, jti, now))
      ensures Next(s, LookUp(id, jti, now)).asking == if answer.Some? then s.asking else s.asking[id := jti]
      ensures Next(s, LookUp(id, jti, now)).cache == cache
      ensures answer == if jti in cache && now - cache[jti].at < 5.0 then Some(!cache[jti].isRevoked) else None
    {
      if jti in cache {
        var entry := cache[jti];
        if now - entry.at < TTL { return Some(!entry.isRevoked); }
      }
      return None;
    }

    /** The second half, after the table read: None is a database error. Other tasks may have run in between. */
    method FinishRead(jti: Jti, read: Option<bool>, now: Time, ghost id: CheckId, ghost s: State) returns (valid: bool)
      requires s.cache == cache
      requires read.Some? ==> id in s.readings && s.readings[id].jti == jti && s.readings[id].isRevoked == read.value
      requires read.None? ==> id in s.asking && s.asking[id] == jti
      modifies this
      ensures
        var step := if read.Some? then FinishCheck(id, now) else ReadFails(id, now);
        cache == Next(s, step).cache && Answer(s, step) == Some((jti, valid))
      ensures valid == (read == Some(false))
      ensures cache == if read.Some? then old(cache)[jti := Cached(read.value, now)] else old(cache)
    {
      match read
      case Some(isRevoked) =>
        cache := cache[jti := Cached(isRevoked, now)];
        return !isRevoked;
      case None =>
        return false;
    }

    method Invalidate(jti: Jti, now: Time, ghost s: State)
      requires s.cache == cache
      modifies this
      ensures cache == Next(s, InvalidateOne(jti, now)).cache && cache == old(cache)[jti := Cached(true, now)]
    {
      cache := cache[jti := Cached(true, now)];
    }

    method InvalidateAll(ghost now: Time, ghost s: State)
      requires s.cache == cache
      modifies this
      ensures cache == Next(s, ClearCache(now)).cache && cache == map[]
    {
      cache := map[];
    }

    method Cleanup(now: Time, ghost s: State)
      requires s.cache == cache
      modifies this
      ensures cache == Next(s, CleanupCache(now)).cache
      ensures forall j :: j in cache <==> j in old(cache) && now - old(cache)[j].at < 50.0
      ensures forall j :: j in cache ==> cache[j] == old(cache)[j]
    {
      cache := map j | j in cache && now - cache[j].at < TTL * 10.0 :: cache[j];
    }
  }

  // ---- Interleaved runs ----

  /** A check between its table read and its cache insert. */
  datatype Reading = Reading(jti: Jti, isRevoked: bool, readAt: Time)

  /**
   * `asking` holds the checks that missed the cache and have not read the table yet; `revoked` records
   * every session ever revoked and when its row changed.
   */
  datatype State = State(
    table: map<Jti, Row>, cache: map<Jti, Cached>, asking: map<CheckId, Jti>, readings: map<CheckId, Reading>, now: Time,
    revoked: map<Jti, Time>)

  datatype Step =
    | Create(jti: Jti, at: Time)
    | LookUp(id: CheckId, jti: Jti, at: Time)         // the cache answers, or the check goes on to the table
    | ReadTable(id: CheckId, at: Time)                // any time later, whatever the cache holds by then
    | ReadFails(id: CheckId, at: Time)                // a database error
    | FinishCheck(id: CheckId, at: Time)              // the read result is cached and answered
    | DropCheck(id: CheckId, at: Time)                // the asking task is cancelled
    | RevokeRows(jtis: set<Jti>, at: Time)        // the UPDATE statement
    | InvalidateOne(jti: Jti, at: Time)
    | ClearCache(at: Time)
    | DeleteRows(jtis: set<Jti>, at: Time)        // cleanup_expired
    | CleanupCache(at: Time)

  /** What a step answers to whoever asked whether a session is valid. */
  function Answer(s: State, step: Step): Option<(Jti, bool)> {
    match step
    case LookUp(_, j, at) =>
      (match Hit(s.cache, j, at) case Some(r) => Some((j, !r)) case None => None)
    case ReadFails(id, _) => if id in s.asking then Some((s.asking[id], false)) else None
    case FinishCheck(id, _) =>
      if id in s.readings then Some((s.readings[id].jti, !s.readings[id].isRevoked)) else None
    case _ => None
  }

  function TableAfter(table: map<Jti, Row>, step: Step): map<Jti, Row> {
    match step
    case Create(j, _) => table[j := Active]
    case RevokeRows(js, _) => map j | j in table :: if j in js then Revoked else table[j]
    case DeleteRows(js, _) => table - js
    case _ => table
  }

  function RevokedAfter(table: map<Jti, Row>, revoked: map<Jti, Time>, step: Step): map<Jti, Time> {
    if step.RevokeRows? then revoked + map j | j in step.jtis && j in table && j !in revoked :: step.at
    else revoked
  }

  function CacheAfter(cache: map<Jti, Cached>, readings: map<CheckId, Reading>, step: Step): map<Jti, Cached> {
    match step
    case FinishCheck(id, at) =>
      if id in readings then cache[readings[id].jti := Cached(readings[id].isRevoked, at)] else cache
    case InvalidateOne(j, at) => cache[j := Cached(true, at)]
    case ClearCache(_) => map[]
    case CleanupCache(at) => Cleaned(cache, at)
    case _ => cache
  }

  function AskingAfter(asking: map<CheckId, Jti>, missed: bool, step: Step): map<CheckId, Jti> {
    match step
    case LookUp(id, j, _) => if missed then asking[id := j] else asking
    case ReadTable(id, _) => asking - {id}
    case ReadFails(id, _) => asking - {id}
    case DropCheck(id, _) => asking - {id}
    case _ => asking
  }

  function ReadingsAfter(table: map<Jti, Row>, asking: map<CheckId, Jti>, readings: map<CheckId, Reading>, step: Step)
    : map<CheckId, Reading> {
    match step
    case ReadTable(id, at) =>
      if id in asking then readings[id := Reading(asking[id], IsRevoked(table, asking[id]), at)] else readings
    case FinishCheck(id, _) => readings - {id}
    case DropCheck(id, _) => readings - {id}
    case _ => readings
  }

  predicate Misses(cache: map<Jti, Cached>, step: Step) {
    step.LookUp? && Hit(cache, step.jti, step.at).None?
  }

  function Next(s: State, step: Step): State {
    State(TableAfter(s.table, step), CacheAfter(s.cache, s.readings, step),
          AskingAfter(s.asking, Misses(s.cache, step), step), ReadingsAfter(s.table, s.asking, s.readings, step),
          step.at, RevokedAfter(s.table, s.revoked, step))
  }

  /**
   * Time is monotone, session ids are never reused, a check id names one check, and no unfinished
   * check is older than d, counted from its table read.
   */
  ghost predicate Possible(s: State, step: Step, d: Time) {
    && s.now <= step.at
    && (step.Create? ==> step.jti !in s.revoked && step.jti !in s.table)
    && (Misses(s.cache, step) ==> step.id !in s.asking && step.id !in s.readings)
    && (forall id :: id in s.readings ==> step.at <= s.readings[id].readAt + d)
  }

  function Stepper(): (State, Step) -> State {
    (s, step) => Next(s, step)
  }

  function Run(s: State, steps: seq<Step>): State {
    Fold(Stepper(), s, steps)
  }

  ghost predicate IsRun(s: State, steps: seq<Step>, d: Time)
    decreases |steps|
  {
    steps == [] || (Possible(s, steps[0], d) && IsRun(Next(s, steps[0]), steps[1..], d))
  }

  function Initial(): State {
    State(map[], map[], map[], map[], 0.0, map[])
  }

  /** A revoked session stays revoked in the table, and whoever saw it active read it before that. */
  ghost predicate Inv(s: State, d: Time) {
    && (forall j :: j in s.revoked ==> IsRevoked(s.table, j) && s.revoked[j] <= s.now)
    && ReadingsInv(s, d) && CacheInv(s, d)
  }

  ghost predicate ReadingsInv(s: State, d: Time) {
    && (forall id :: id in s.readings && s.readings[id].jti in s.revoked && !s.readings[id].isRevoked ==>
                       s.readings[id].readAt <= s.revoked[s.readings[id].jti])
    && (forall id :: id in s.readings ==> s.readings[id].readAt <= s.now <= s.readings[id].readAt + d)
  }

  ghost predicate CacheInv(s: State, d: Time) {
    && (forall j :: j in s.cache && j in s.revoked && !s.cache[j].isRevoked ==> s.cache[j].at <= s.revoked[j] + d)
    && (forall j :: j in s.cache ==> s.cache[j].at <= s.now)
  }

  lemma StepKeepsReadings(s: State, step: Step, d: Time)
    requires d >= 0.0 && Inv(s, d) && Possible(s, step, d)
    ensures ReadingsInv(Next(s, step), d)
  {
  }

  lemma StepKeepsCache(s: State, step: Step, d: Time)
    requires d >= 0.0 && Inv(s, d) && Possible(s, step, d)
    ensures CacheInv(Next(s, step), d)
  {
  }

  lemma StepKeepsInv(s: State, step: Step, d: Time)
    requires d >= 0.0 && Inv(s, d) && Possible(s, step, d)
    ensures Inv(Next(s, step), d)
  {
    StepKeepsReadings(s, step, d);
    StepKeepsCache(s, step, d);
  }

  lemma {:induction false} RunKeepsInv(s: State, steps: seq<Step>, d: Time)
    requires d >= 0.0 && Inv(s, d) && IsRun(s, steps, d)
    ensures Inv(Run(s, steps), d)
    decreases |steps|
  {
    if steps != [] {
      StepKeepsInv(s, steps[0], d);
      RunKeepsInv(Next(s, steps[0]), steps[1..], d);
    }
  }

  /**
   * Bounded staleness: once d + 5 seconds have passed since its row was revoked, a session is refused
   * by every check, however checks, revocations, invalidations and cleanups interleave.
   */
  lemma RefusedAfterBound(steps: seq<Step>, step: Step, d: Time)
    requires d >= 0.0 && IsRun(Initial(), steps, d)
    requires Possible(Run(Initial(), steps), step, d)
    ensures
      var s := Run(Initial(), steps);
      forall j :: j in s.revoked && step.at >= s.revoked[j] + d + TTL ==>
                    Answer(s, step) != Some((j, true))
  {
    RunKeepsInv(Initial(), steps, d);
  }

  // ---- Exactly when a revoked session can still be accepted ----

  /** A check that saw the session active has not finished, or the cache still says active. */
  ghost predicate StillOpen(s: State, jti: Jti) {
    || (exists id :: id in s.readings && s.readings[id].jti == jti && !s.readings[id].isRevoked)
    || Hit(s.cache, jti, s.now) == Some(false)
  }

  ghost predicate Accepts(s: State, steps: seq<Step>, jti: Jti) {
    steps != [] && Answer(Run(s, steps[..|steps| - 1]), steps[|steps| - 1]) == Some((jti, true))
  }

  lemma ClosedRefuses(s: State, step: Step, jti: Jti)
    requires s.now <= step.at && !StillOpen(s, jti)
    ensures Answer(s, step) != Some((jti, true))
  {
  }

  lemma ClosedStaysClosed(s: State, step: Step, jti: Jti, d: Time)
    requires d >= 0.0 && Inv(s, d) && Possible(s, step, d) && jti in s.revoked && !StillOpen(s, jti)
    ensures Answer(s, step) != Some((jti, true))
    ensures !StillOpen(Next(s, step), jti) && jti in Next(s, step).revoked
  {
    ClosedRefuses(s, step, jti);
    var t := Next(s, step);
    forall id | id in t.readings && t.readings[id].jti == jti ensures t.readings[id].isRevoked {
      if id in s.readings && s.readings[id] == t.readings[id] { }
    }
  }

  lemma {:induction false} ClosedForever(s: State, steps: seq<Step>, jti: Jti, d: Time)
    requires d >= 0.0 && Inv(s, d) && IsRun(s, steps, d) && jti in s.revoked && !StillOpen(s, jti)
    ensures !Accepts(s, steps, jti)
    decreases |steps|
  {
    if steps != [] {
      ClosedStaysClosed(s, steps[0], jti, d);
      StepKeepsInv(s, steps[0], d);
      ClosedForever(Next(s, steps[0]), steps[1..], jti, d);
      if |steps| == 1 {
        assert steps[..0] == [];
      } else {
        var init := steps[..|steps| - 1];
        assert init[0] == steps[0] && init[1..] == steps[1..][..|steps| - 2];
      }
    }
  }

  lemma OpenCanAccept(s: State, jti: Jti, d: Time)
    requires d >= 0.0 && Inv(s, d) && StillOpen(s, jti)
    ensures exists more :: IsRun(s, more, d) && Accepts(s, more, jti)
  {
    var step :=
      if exists id :: id in s.readings && s.readings[id].jti == jti && !s.readings[id].isRevoked then
        var id :| id in s.readings && s.readings[id].jti == jti && !s.readings[id].isRevoked;
        FinishCheck(id, s.now)
      else LookUp(CheckId(0), jti, s.now);
    assert [step][..0] == [] && [step][1..] == [];
    assert IsRun(s, [step], d) && Accepts(s, [step], jti);
  }

  /** Some continuation accepts the session. */
  ghost predicate Acceptable(s: State, jti: Jti, d: Time) {
    exists more :: IsRun(s, more, d) && Accepts(s, more, jti)
  }

  lemma AcceptableIffOpen(s: State, jti: Jti, d: Time)
    requires d >= 0.0 && Inv(s, d) && jti in s.revoked
    ensures Acceptable(s, jti, d) <==> StillOpen(s, jti)
  {
    if StillOpen(s, jti) {
      OpenCanAccept(s, jti, d);
    } else {
      forall more | IsRun(s, more, d) ensures !Accepts(s, more, jti) {
        ClosedForever(s, more, jti, d);
      }
    }
  }

  /**
   * In any reachable state a revoked session is refused for ever after if and only if no check that
   * read it as active is unfinished and no fresh cache entry calls it active.
   */
  lemma RefusedForeverIff(steps: seq<Step>, jti: Jti, d: Time)
    requires d >= 0.0 && IsRun(Initial(), steps, d) && jti in Run(Initial(), steps).revoked
    ensures Acceptable(Run(Initial(), steps), jti, d) <==> StillOpen(Run(Initial(), steps), jti)
  {
    RunKeepsInv(Initial(), steps, d);
    AcceptableIffOpen(Run(Initial(), steps), jti, d);
  }

  ghost predicate ReadActive(s: State, jti: Jti) {
    exists id :: id in s.readings && s.readings[id].jti == jti && !s.readings[id].isRevoked
  }

  /** revoke_session, and revoke_user_sessions, with nothing in between. */
  function RevokedNow(s: State, jti: Jti, at: Time): State {
    Next(Next(s, RevokeRows({jti}, at)), InvalidateOne(jti, at))
  }

  function AllRevokedNow(s: State, jtis: set<Jti>, at: Time): State {
    Next(Next(s, RevokeRows(jtis, at)), ClearCache(at))
  }

  /** The table update itself: the row is revoked, and no unfinished check or cache entry changes. */
  lemma RevokingRows(s: State, jti: Jti, jtis: set<Jti>, at: Time, d: Time)
    requires d >= 0.0 && Inv(s, d) && Possible(s, RevokeRows(jtis, at), d) && jti in s.table && jti in jtis
    ensures
      var t := Next(s, RevokeRows(jtis, at));
      Inv(t, d) && jti in t.revoked && t.readings == s.readings && t.now == at
  {
    StepKeepsInv(s, RevokeRows(jtis, at), d);
  }

  lemma RevokingOneLeavesReads(s: State, jti: Jti, at: Time, d: Time)
    requires d >= 0.0 && Inv(s, d) && Possible(s, RevokeRows({jti}, at), d) && jti in s.table
    ensures Inv(RevokedNow(s, jti, at), d) && jti in RevokedNow(s, jti, at).revoked
    ensures StillOpen(RevokedNow(s, jti, at), jti) <==> ReadActive(s, jti)
  {
    RevokingRows(s, jti, {jti}, at, d);
    InvalidatingLeavesReads(Next(s, RevokeRows({jti}, at)), jti, InvalidateOne(jti, at), d);
  }

  lemma RevokingAllLeavesReads(s: State, jti: Jti, jtis: set<Jti>, at: Time, d: Time)
    requires d >= 0.0 && Inv(s, d) && Possible(s, RevokeRows(jtis, at), d) && jti in s.table && jti in jtis
    ensures Inv(AllRevokedNow(s, jtis, at), d) && jti in AllRevokedNow(s, jtis, at).revoked
    ensures StillOpen(AllRevokedNow(s, jtis, at), jti) <==> ReadActive(s, jti)
  {
    RevokingRows(s, jti, jtis, at, d);
    InvalidatingLeavesReads(Next(s, RevokeRows(jtis, at)), jti, ClearCache(at), d);
  }

  lemma InvalidatingHidesEntry(s: State, jti: Jti, step: Step)
    requires step == InvalidateOne(jti, s.now) || step == ClearCache(s.now)
    ensures Hit(Next(s, step).cache, jti, s.now) != Some(false)
    ensures Next(s, step).readings == s.readings && Next(s, step).revoked == s.revoked && Next(s, step).now == s.now
  {
  }

  lemma InvalidatingLeavesReads(s: State, jti: Jti, step: Step, d: Time)
    requires d >= 0.0 && Inv(s, d) && jti in s.revoked && (step == InvalidateOne(jti, s.now) || step == ClearCache(s.now))
    ensures Inv(Next(s, step), d) && jti in Next(s, step).revoked
    ensures StillOpen(Next(s, step), jti) <==> ReadActive(s, jti)
  {
    assert Possible(s, step, d);
    StepKeepsInv(s, step, d);
    InvalidatingHidesEntry(s, jti, step);
    SameReadings(s, Next(s, step), jti);
  }

  lemma SameReadings(s: State, t: State, jti: Jti)
    requires t.readings == s.readings && Hit(t.cache, jti, t.now) != Some(false)
    ensures StillOpen(t, jti) <==> ReadActive(s, jti)
  {
  }

  /**
   * The documented "invalidated immediately": after revoking and invalidating in one go, a session
   * is refused for ever exactly when no check that read it as active is still unfinished.
   */
  lemma RevocationIsImmediateIff(s: State, jti: Jti, jtis: set<Jti>, at: Time, d: Time)
    requires d >= 0.0 && Inv(s, d) && Possible(s, RevokeRows(jtis, at), d) && jti in s.table && jti in jtis
    ensures Acceptable(RevokedNow(s, jti, at), jti, d) <==> ReadActive(s, jti)
    ensures Acceptable(AllRevokedNow(s, jtis, at), jti, d) <==> ReadActive(s, jti)
  {
    RevokingOneLeavesReads(s, jti, at, d);
    AcceptableIffOpen(RevokedNow(s, jti, at), jti, d);
    RevokingAllLeavesReads(s, jti, jtis, at, d);
    AcceptableIffOpen(AllRevokedNow(s, jtis, at), jti, d);
  }

  // ---- The table is what the run says ----

  predicate Creates(step: Step, jti: Jti) {
    step.Create? && step.jti == jti
  }

  predicate Deletes(step: Step, jti: Jti) {
    step.DeleteRows? && jti in step.jtis
  }

  predicate Revokes(step: Step, jti: Jti) {
    step.RevokeRows? && jti in step.jtis
  }

  /** After every run a session has a row exactly when one was created and none deleted since. */
  lemma RowIsHistory(steps: seq<Step>, jti: Jti)
    ensures jti in Run(Initial(), steps).table <==>
            exists n: nat :: n < |steps| && Creates(steps[n], jti) && forall m: nat :: n < m < |steps| ==> !Deletes(steps[m], jti)
  {
    var on := (n: nat) => n < |steps| && Creates(steps[n], jti);
    var off := (n: nat) => n < |steps| && Deletes(steps[n], jti);
    var held := (n: nat) => n <= |steps| && jti in Run(Initial(), steps[..n]).table;
    forall n: nat | n < |steps| ensures held(n + 1) <==> on(n) || (held(n) && !off(n)) {
      FoldPrefix(Stepper(), Initial(), steps, n);
    }
    assert steps[..0] == [] && steps[..|steps|] == steps;
    LastTurn(held, on, off, |steps|);
    if n: nat :| n < |steps| && on(n) && forall m: nat :: n < m < |steps| ==> !off(m) {
      forall m: nat | n < m < |steps| ensures !Deletes(steps[m], jti) { assert !off(m); }
    }
    if n: nat :| n < |steps| && Creates(steps[n], jti) && forall m: nat :: n < m < |steps| ==> !Deletes(steps[m], jti) {
      assert on(n) && forall m: nat :: n < m < |steps| ==> !off(m);
    }
  }

  predicate Closes(step: Step, jti: Jti) {
    Deletes(step, jti) || Revokes(step, jti)
  }

  /** And the row is active exactly when it was neither revoked nor deleted since. */
  lemma ActiveIsHistory(steps: seq<Step>, jti: Jti)
    ensures !IsRevoked(Run(Initial(), steps).table, jti) <==>
            exists n: nat :: n < |steps| && Creates(steps[n], jti) && forall m: nat :: n < m < |steps| ==> !Closes(steps[m], jti)
  {
    var on := (n: nat) => n < |steps| && Creates(steps[n], jti);
    var off := (n: nat) => n < |steps| && Closes(steps[n], jti);
    var held := (n: nat) => n <= |steps| && !IsRevoked(Run(Initial(), steps[..n]).table, jti);
    forall n: nat | n < |steps| ensures held(n + 1) <==> on(n) || (held(n) && !off(n)) {
      FoldPrefix(Stepper(), Initial(), steps, n);
    }
    assert steps[..0] == [] && steps[..|steps|] == steps;
    LastTurn(held, on, off, |steps|);
    if n: nat :| n < |steps| && on(n) && forall m: nat :: n < m < |steps| ==> !off(m) {
      forall m: nat | n < m < |steps| ensures !Closes(steps[m], jti) { assert !off(m); }
    }
    if n: nat :| n < |steps| && Creates(steps[n], jti) && forall m: nat :: n < m < |steps| ==> !Closes(steps[m], jti) {
      assert on(n) && forall m: nat :: n < m < |steps| ==> !off(m);
    }
  }

  // ---- Who is accepted ----

  /** A moment that gives a reason to refuse the session: it is revoked, invalidated, or read without a row. */
  predicate GivesReason(s: State, step: Step, jti: Jti) {
    || (step.RevokeRows? && jti in step.jtis)
    || step == InvalidateOne(jti, step.at)
    || (step.ReadTable? && step.id in s.asking && s.asking[step.id] == jti && jti !in s.table)
  }

  /** Neither the table, nor a check under way, nor the cache calls the session revoked. */
  ghost predicate Trusted(s: State, jti: Jti) {
    && (jti in s.table ==> s.table[jti] == Active)
    && (forall id :: id in s.readings && s.readings[id].jti == jti ==> !s.readings[id].isRevoked)
    && (jti in s.cache ==> !s.cache[jti].isRevoked)
  }

  lemma StepKeepsTrust(s: State, step: Step, jti: Jti)
    requires Trusted(s, jti) && !GivesReason(s, step, jti)
    ensures Trusted(Next(s, step), jti)
    ensures !step.ReadFails? ==> Answer(s, step) != Some((jti, false))
  {
  }

  ghost predicate ReasonAt(steps: seq<Step>, n: nat, jti: Jti) {
    n < |steps| && GivesReason(Run(Initial(), steps[..n]), steps[n], jti)
  }

  lemma {:induction false} TrustedWithoutReason(steps: seq<Step>, n: nat, jti: Jti)
    requires n <= |steps| && forall m: nat :: m < n ==> !ReasonAt(steps, m, jti)
    ensures Trusted(Run(Initial(), steps[..n]), jti)
  {
    if n > 0 {
      TrustedWithoutReason(steps, n - 1, jti);
      FoldPrefix(Stepper(), Initial(), steps, n - 1);
      assert !ReasonAt(steps, n - 1, jti);
      StepKeepsTrust(Run(Initial(), steps[..n - 1]), steps[n - 1], jti);
    }
  }

  /**
   * Nobody is refused without a reason: in every run an answer that refuses a session, other than one
   * after a database error, comes after it has been revoked, invalidated, or read without a row.
   */
  lemma RefusedOnlyWithReason(steps: seq<Step>, step: Step, jti: Jti)
    requires Answer(Run(Initial(), steps), step) == Some((jti, false)) && !step.ReadFails?
    ensures exists n: nat :: ReasonAt(steps, n, jti)
  {
    assert steps[..|steps|] == steps;
    if forall n: nat :: !ReasonAt(steps, n, jti) { TrustedWithoutReason(steps, |steps|, jti); }
  }

  /** Nobody takes the session's row away or marks it. */
  predicate LeavesAlone(step: Step, jti: Jti) {
    && (step.RevokeRows? || step.DeleteRows? ==> jti !in step.jtis)
    && step != InvalidateOne(jti, step.at)
  }

  predicate AsksFor(step: Step, jti: Jti) {
    step.LookUp? && step.jti == jti
  }

  /** Nobody has asked about the session, or it has a row. */
  ghost predicate Known(s: State, jti: Jti) {
    jti in s.table || forall id :: id in s.asking ==> s.asking[id] != jti
  }

  lemma {:induction false} KnownUpTo(steps: seq<Step>, n: nat, created: nat, jti: Jti)
    requires n <= |steps| && created < |steps| && steps[created].Create? && steps[created].jti == jti
    requires forall m :: 0 <= m < |steps| ==> LeavesAlone(steps[m], jti) && (m < created ==> !AsksFor(steps[m], jti))
    ensures var s := Run(Initial(), steps[..n]); Known(s, jti) && (created < n ==> jti in s.table)
    ensures forall m: nat :: m < n ==> !ReasonAt(steps, m, jti)
  {
    if n > 0 {
      KnownUpTo(steps, n - 1, created, jti);
      FoldPrefix(Stepper(), Initial(), steps, n - 1);
      assert LeavesAlone(steps[n - 1], jti) && (n - 1 < created ==> !AsksFor(steps[n - 1], jti));
    }
  }

  /**
   * A session whose row was created before it was first asked about, and that nobody revokes, deletes or
   * invalidates, is accepted by every answer, database errors apart, however long and in whatever order
   * everything else happens.
   */
  lemma LiveSessionIsAccepted(steps: seq<Step>, created: nat, jti: Jti, step: Step)
    requires created < |steps| && steps[created].Create? && steps[created].jti == jti
    requires forall m :: 0 <= m < |steps| ==> LeavesAlone(steps[m], jti) && (m < created ==> !AsksFor(steps[m], jti))
    requires !step.ReadFails? && Answer(Run(Initial(), steps), step).Some?
    requires Answer(Run(Initial(), steps), step).value.0 == jti
    ensures Answer(Run(Initial(), steps), step) == Some((jti, true))
  {
    KnownUpTo(steps, |steps|, created, jti);
    if Answer(Run(Initial(), steps), step) == Some((jti, false)) {
      RefusedOnlyWithReason(steps, step, jti);
    }
  }

  /** The step is not about this check. */
  predicate Apart(step: Step, id: CheckId) {
    step.LookUp? || step.ReadTable? || step.ReadFails? || step.FinishCheck? || step.DropCheck? ==> step.id != id
  }

  lemma {:induction false} OthersLeaveCheck(s: State, steps: seq<Step>, id: CheckId)
    requires forall step :: step in steps ==> Apart(step, id)
    ensures Lookup(Run(s, steps).asking, id) == Lookup(s.asking, id)
    ensures Lookup(Run(s, steps).readings, id) == Lookup(s.readings, id)
    decreases |steps|
  {
    if steps != [] {
      assert Apart(steps[0], id);
      OthersLeaveCheck(Next(s, steps[0]), steps[1..], id);
    }
  }

  /**
   * A check that goes on to the table is answered by the row it finds there: valid if there is one and it
   * is active at that moment, whatever the cache holds and whatever happens before and after.
   */
  lemma AnsweredByTheRow(s: State, before: seq<Step>, at: Time, after: seq<Step>, done: Time, id: CheckId)
    requires id in s.asking && forall step :: step in before || step in after ==> Apart(step, id)
    ensures
      var reading := Run(s, before);
      var finishing := Run(Next(reading, ReadTable(id, at)), after);
      Answer(finishing, FinishCheck(id, done))
      == Some((s.asking[id], s.asking[id] in reading.table && reading.table[s.asking[id]] == Active))
  {
    OthersLeaveCheck(s, before, id);
    OthersLeaveCheck(Next(Run(s, before), ReadTable(id, at)), after, id);
  }

  // ---- Cleanup ----

  function Answers(s: State, steps: seq<Step>): seq<(Jti, bool)>
    decreases |steps|
  {
    if steps == [] then []
    else
      var rest := Answers(Next(s, steps[0]), steps[1..]);
      match Answer(s, steps[0]) case Some(a) => [a] + rest case None => rest
  }

  function WithoutCleanups(steps: seq<Step>): seq<Step> {
    if steps == [] then []
    else if steps[0].CleanupCache? then WithoutCleanups(steps[1..])
    else [steps[0]] + WithoutCleanups(steps[1..])
  }

  /** Equal but for cache entries that are no longer fresh. */
  ghost predicate SameHits(c: map<Jti, Cached>, d: map<Jti, Cached>, since: Time) {
    forall j, now :: now >= since ==> Hit(c, j, now) == Hit(d, j, now)
  }

  ghost predicate SameView(s: State, t: State) {
    s.table == t.table && s.asking == t.asking && s.readings == t.readings && SameHits(s.cache, t.cache, s.now)
  }

  lemma InsertKeepsHits(c: map<Jti, Cached>, d: map<Jti, Cached>, j: Jti, e: Cached, since: Time)
    requires SameHits(c, d, since)
    ensures SameHits(c[j := e], d[j := e], since)
  {
    var c', d' := c[j := e], d[j := e];
    forall i, now | now >= since ensures Hit(c', i, now) == Hit(d', i, now) {
      assert Hit(c, i, now) == Hit(d, i, now);
    }
  }

  lemma CleaningKeepsHits(c: map<Jti, Cached>, d: map<Jti, Cached>, since: Time)
    requires SameHits(c, d, since)
    ensures SameHits(Cleaned(c, since), d, since)
  {
    forall i, now | now >= since ensures Hit(Cleaned(c, since), i, now) == Hit(d, i, now) {
      assert Hit(c, i, now) == Hit(d, i, now);
    }
  }

  lemma StepKeepsHits(s: State, t: State, step: Step)
    requires SameView(s, t) && s.now <= step.at
    ensures SameHits(Next(s, step).cache, (if step.CleanupCache? then t else Next(t, step)).cache, step.at)
  {
    assert SameHits(s.cache, t.cache, step.at);
    match step
    case FinishCheck(id, at) =>
      if id in s.readings {
        InsertKeepsHits(s.cache, t.cache, s.readings[id].jti, Cached(s.readings[id].isRevoked, at), at);
      }
    case InvalidateOne(j, at) => InsertKeepsHits(s.cache, t.cache, j, Cached(true, at), at);
    case CleanupCache(at) => CleaningKeepsHits(s.cache, t.cache, at);
    case _ =>
  }

  lemma SameViewSameAnswer(s: State, t: State, step: Step)
    requires SameView(s, t) && s.now <= step.at
    ensures Answer(s, step) == Answer(t, step)
  {
    if step.LookUp? { assert Hit(s.cache, step.jti, step.at) == Hit(t.cache, step.jti, step.at); }
  }

  lemma StepKeepsView(s: State, t: State, step: Step)
    requires SameView(s, t) && s.now <= step.at
    ensures SameView(Next(s, step), if step.CleanupCache? then t else Next(t, step))
    ensures Answer(s, step) == if step.CleanupCache? then None else Answer(t, step)
  {
    StepKeepsHits(s, t, step);
    if step.LookUp? { assert Hit(s.cache, step.jti, step.at) == Hit(t.cache, step.jti, step.at); }
    SameViewSameAnswer(s, t, step);
  }

  /** Inserting cache cleanups anywhere changes no answer. */
  lemma {:induction false} CleanupIsInvisible(s: State, t: State, steps: seq<Step>, d: Time)
    requires SameView(s, t) && IsRun(s, steps, d)
    ensures Answers(s, steps) == Answers(t, WithoutCleanups(steps))
    decreases |steps|
  {
    if steps != [] {
      StepKeepsView(s, t, steps[0]);
      var plain := WithoutCleanups(steps[1..]);
      if steps[0].CleanupCache? {
        CleanupIsInvisible(Next(s, steps[0]), t, steps[1..], d);
      } else {
        CleanupIsInvisible(Next(s, steps[0]), Next(t, steps[0]), steps[1..], d);
        assert ([steps[0]] + plain)[1..] == plain;
      }
    }
  }
}
