/**
 * The login guard of the backend: a per-IP record of login attempts, a
 * per-IP block list, the hourly sweep of both, and the `loginRateLimit`
 * gate that stands in front of the admin login. Time is the parameter
 * `now`, in milliseconds.
 *
 * The pure functions below (IsBlocked, Block, Track, Sweep, Gate) are the
 * specification; the class `Guard` holds the two maps and its methods are
 * proved to update them exactly as those functions say.
 */
module LoginGuard {
  import opened Js

  const MINUTE_MS := 60 * 1000
  /** Window in which five failures block for the short period. */
  const SHORT_WINDOW_MS := 15 * MINUTE_MS
  const SHORT_BLOCK_MS := 30 * MINUTE_MS
  const LONG_BLOCK_MS := 24 * 60 * MINUTE_MS
  /** `blockIP`'s default duration. */
  const DEFAULT_BLOCK_MS := 30 * MINUTE_MS
  /** Attempt records idle for longer than this are swept. */
  const RETENTION_MS := 24 * 60 * MINUTE_MS
  const SHORT_LIMIT := 5
  const LONG_LIMIT := 10
  const BLOCK_REASON := "Too many failed login attempts"

  datatype AttemptRecord = AttemptRecord(count: int, firstAttempt: int, lastAttempt: int, successfulLogins: int)

  datatype BlockRecord = BlockRecord(blockedAt: int, unblockTime: int, reason: string)

  /** The two process-wide maps, keyed by IP. */
  datatype Store = Store(attempts: map<string, AttemptRecord>, blocked: map<string, BlockRecord>)

  /** What `trackLoginAttempt` returns. */
  datatype TrackResult = Blocked(duration: int) | NotBlocked(remainingAttempts: int)

  /** What `getLoginAttempts` returns: the stored record, or `{count: 0, successfulLogins: 0}`. */
  datatype AttemptView = Tracked(record: AttemptRecord) | Untracked {
    function Count(): int {
      if Tracked? then record.count else 0
    }
    function SuccessfulLogins(): int {
      if Tracked? then record.successfulLogins else 0
    }
  }

  // ----- isIPBlocked, blockIP -----

  /** A block record is still in force at `now`: the block ends only once `now` passes `unblockTime`. */
  predicate InForce(b: BlockRecord, now: int) {
    now <= b.unblockTime
  }

  /** `isIPBlocked(ip)`: the answer and the store afterwards (an expired record is deleted on the way). */
  function IsBlocked(s: Store, ip: string, now: int): (r: (bool, Store))
    ensures r.0 <==> ip in s.blocked && InForce(s.blocked[ip], now)
    ensures r.1.attempts == s.attempts
    ensures ip !in s.blocked ==> r.1 == s
    ensures ip in s.blocked && !InForce(s.blocked[ip], now) ==> r.1.blocked == s.blocked - {ip}
    ensures r.0 ==> r.1 == s
  {
    if ip !in s.blocked then (false, s)
    else if now > s.blocked[ip].unblockTime then (false, s.(blocked := s.blocked - {ip}))
    else (true, s)
  }

  /** `blockIP(ip, duration)`: sets (or overwrites) the block record of `ip`. */
  function Block(s: Store, ip: string, duration: int, now: int): (r: Store)
    ensures r.attempts == s.attempts
    ensures ip in r.blocked && r.blocked[ip] == BlockRecord(now, now + duration, BLOCK_REASON)
    ensures r.blocked.Keys == s.blocked.Keys + {ip}
    ensures forall other :: other in s.blocked && other != ip ==> r.blocked[other] == s.blocked[other]
  {
    s.(blocked := s.blocked[ip := BlockRecord(now, now + duration, BLOCK_REASON)])
  }

  /** A block set at `now` is in force until `now + duration` inclusive and over one millisecond later. */
  lemma BlockLasts(s: Store, ip: string, duration: int, now: int, later: int)
    requires duration >= 0 && now <= later
    ensures IsBlocked(Block(s, ip, duration, now), ip, later).0 <==> later <= now + duration
  {
  }

  // ----- trackLoginAttempt -----

  /** The attempt record of `ip` after one attempt at `now` (created on the first attempt). */
  function Recorded(s: Store, ip: string, success: bool, now: int): (a: AttemptRecord)
    ensures a.lastAttempt == now
    ensures ip in s.attempts ==> a.firstAttempt == s.attempts[ip].firstAttempt
    ensures ip !in s.attempts ==> a.firstAttempt == now
    ensures success ==> a.count == 0
    ensures !success ==> a.count == 1 + (if ip in s.attempts then s.attempts[ip].count else 0)
    ensures a.successfulLogins
        == (if ip in s.attempts then s.attempts[ip].successfulLogins else 0) + (if success then 1 else 0)
  {
    var a := if ip in s.attempts then s.attempts[ip] else AttemptRecord(0, now, now, 0);
    var b := if success then a.(successfulLogins := a.successfulLogins + 1, count := 0)
             else a.(count := a.count + 1);
    b.(lastAttempt := now)
  }

  /**
   * The threshold policy on the updated record: ten or more failures block
   * for a day; otherwise five or more, within 15 minutes of the first
   * attempt, block for 30 minutes; otherwise the remaining budget, unfloored.
   */
  function Verdict(count: int, elapsed: int): (r: TrackResult)
    ensures r.Blocked? <==> count >= LONG_LIMIT || (count >= SHORT_LIMIT && elapsed < SHORT_WINDOW_MS)
    ensures r.Blocked? ==> r.duration == if count >= LONG_LIMIT then LONG_BLOCK_MS else SHORT_BLOCK_MS
    ensures r.NotBlocked? ==> r.remainingAttempts == SHORT_LIMIT - count
  {
    if count >= LONG_LIMIT then Blocked(LONG_BLOCK_MS)
    else if count >= SHORT_LIMIT && elapsed < SHORT_WINDOW_MS then Blocked(SHORT_BLOCK_MS)
    else NotBlocked(SHORT_LIMIT - count)
  }

  /** `trackLoginAttempt(ip, success)` at `now`: the store afterwards and the result. */
  function Track(s: Store, ip: string, success: bool, now: int): (r: (Store, TrackResult))
    ensures var a := Recorded(s, ip, success, now);
      r.0.attempts == s.attempts[ip := a] && r.1 == Verdict(a.count, now - a.firstAttempt)
    ensures r.1.NotBlocked? ==> r.0.blocked == s.blocked
    ensures r.1.Blocked? ==> r.0.blocked == s.blocked[ip := BlockRecord(now, now + r.1.duration, BLOCK_REASON)]
    ensures success ==> r.1 == NotBlocked(SHORT_LIMIT) && r.0.blocked == s.blocked
  {
    var a := Recorded(s, ip, success, now);
    var s1 := s.(attempts := s.attempts[ip := a]);
    var v := Verdict(a.count, now - a.firstAttempt);
    if v.Blocked? then (Block(s1, ip, v.duration, now), v) else (s1, v)
  }

  /** `getLoginAttempts(ip)`. */
  function GetAttempts(s: Store, ip: string): (v: AttemptView)
    ensures v.Tracked? <==> ip in s.attempts
    ensures v.Tracked? ==> v.record == s.attempts[ip]
    ensures ip !in s.attempts ==> v.Count() == 0 && v.SuccessfulLogins() == 0
  {
    if ip in s.attempts then Tracked(s.attempts[ip]) else Untracked
  }

  /** A failure adds exactly one to the count and leaves the first-attempt time alone. */
  lemma FailureCountsOne(s: Store, ip: string, now: int)
    requires ip in s.attempts
    ensures var a := Track(s, ip, false, now).0.attempts[ip];
      a.count == s.attempts[ip].count + 1 && a.firstAttempt == s.attempts[ip].firstAttempt
      && a.lastAttempt == now && a.successfulLogins == s.attempts[ip].successfulLogins
  {
  }

  /** A success resets the count but not `firstAttempt`: the record keeps the first ever attempt time. */
  lemma {:induction false} SuccessKeepsFirstAttempt(s: Store, ip: string, t1: int, t2: int)
    ensures var s1 := Track(s, ip, false, t1).0;
      var s2 := Track(s1, ip, true, t2).0;
      s2.attempts[ip].count == 0
      && s2.attempts[ip].firstAttempt == (if ip in s.attempts then s.attempts[ip].firstAttempt else t1)
  {
    var s1 := Track(s, ip, false, t1).0;
    assert s1.attempts[ip] == Recorded(s, ip, false, t1);
  }

  /**
   * Once the first recorded attempt is 15 minutes old, the 30-minute block
   * can no longer be triggered for that IP: only the tenth failure blocks.
   */
  lemma NoShortBlockAfterWindow(s: Store, ip: string, success: bool, now: int)
    requires ip in s.attempts && now - s.attempts[ip].firstAttempt >= SHORT_WINDOW_MS
    ensures Track(s, ip, success, now).1 != Blocked(SHORT_BLOCK_MS)
  {
  }

  /** The remaining budget is not floored at zero: a sixth failure outside the window reports -1. */
  lemma RemainingCanBeNegative()
    ensures var s := Store(map["ip" := AttemptRecord(5, 0, 0, 0)], map[]);
      Track(s, "ip", false, SHORT_WINDOW_MS).1 == NotBlocked(-1)
  {
  }

  /** A run of failed attempts at the given times: the store afterwards and each result. */
  function FailRun(s: Store, ip: string, times: seq<int>): (r: (Store, seq<TrackResult>))
    ensures |r.1| == |times|
    decreases |times|
  {
    if times == [] then (s, [])
    else
      var (s1, v) := Track(s, ip, false, times[0]);
      var rest := FailRun(s1, ip, times[1..]);
      (rest.0, [v] + rest.1)
  }

  /** The count before the run, and the first-attempt time the run will be measured from. */
  function StartCount(s: Store, ip: string): int {
    if ip in s.attempts then s.attempts[ip].count else 0
  }

  function StartFirst(s: Store, ip: string, t0: int): int {
    if ip in s.attempts then s.attempts[ip].firstAttempt else t0
  }

  /** The `i`-th failure of a run sees count `StartCount + i + 1`, measured from the fixed first attempt. */
  lemma {:induction false} FailRunAt(s: Store, ip: string, times: seq<int>, i: int)
    requires 0 <= i < |times|
    ensures FailRun(s, ip, times).1[i]
         == Verdict(StartCount(s, ip) + i + 1, times[i] - StartFirst(s, ip, times[0]))
    ensures var e := FailRun(s, ip, times).0;
      ip in e.attempts && e.attempts[ip].count == StartCount(s, ip) + |times|
      && e.attempts[ip].firstAttempt == StartFirst(s, ip, times[0])
    decreases |times|
  {
    var s1 := Track(s, ip, false, times[0]).0;
    assert StartCount(s1, ip) == StartCount(s, ip) + 1;
    assert StartFirst(s1, ip, 0) == StartFirst(s, ip, times[0]);
    if |times| > 1 {
      FailRunAt(s1, ip, times[1..], if i == 0 then 0 else i - 1);
      assert StartFirst(s1, ip, times[1..][0]) == StartFirst(s, ip, times[0]);
    }
  }

  /** From no record, five failures within 15 minutes report 4, 3, 2, 1 and then a 30-minute block. */
  lemma {:induction false} FiveQuickFailures(s: Store, ip: string, times: seq<int>)
    requires ip !in s.attempts && |times| == 5 && times[4] - times[0] < SHORT_WINDOW_MS
    ensures FailRun(s, ip, times).1
         == [NotBlocked(4), NotBlocked(3), NotBlocked(2), NotBlocked(1), Blocked(SHORT_BLOCK_MS)]
  {
    var r := FailRun(s, ip, times).1;
    forall i | 0 <= i < 5 ensures r[i] == Verdict(i + 1, times[i] - times[0]) {
      FailRunAt(s, ip, times, i);
    }
  }

  /** From no record, the tenth failure blocks for 24 hours whatever the timing. */
  lemma {:induction false} TenthFailureBlocksForADay(s: Store, ip: string, times: seq<int>)
    requires ip !in s.attempts && |times| == 10
    ensures FailRun(s, ip, times).1[9] == Blocked(LONG_BLOCK_MS)
    ensures var e := FailRun(s, ip, times).0;
      ip in e.blocked && e.blocked[ip] == BlockRecord(times[9], times[9] + LONG_BLOCK_MS, BLOCK_REASON)
  {
    FailRunAt(s, ip, times, 9);
    FailRunLastBlock(s, ip, times);
  }

  /** After a run ending in a block, the block record is the one set by the last attempt. */
  lemma {:induction false} FailRunLastBlock(s: Store, ip: string, times: seq<int>)
    requires |times| >= 1 && FailRun(s, ip, times).1[|times| - 1].Blocked?
    ensures var e := FailRun(s, ip, times).0;
      var d := FailRun(s, ip, times).1[|times| - 1].duration;
      ip in e.blocked && e.blocked[ip] == BlockRecord(times[|times| - 1], times[|times| - 1] + d, BLOCK_REASON)
    decreases |times|
  {
    if |times| > 1 {
      var s1 := Track(s, ip, false, times[0]).0;
      FailRunLastBlock(s1, ip, times[1..]);
    }
  }

  // ----- the hourly sweep -----

  /** An attempt record idle for more than a day. */
  predicate Stale(a: AttemptRecord, now: int) {
    now - a.lastAttempt > RETENTION_MS
  }

  /** The sweep's effect: stale attempt records and expired block records are deleted, nothing else. */
  function Sweep(s: Store, now: int): (r: Store)
    ensures forall ip :: ip in r.attempts <==> ip in s.attempts && !Stale(s.attempts[ip], now)
    ensures forall ip :: ip in r.blocked <==> ip in s.blocked && InForce(s.blocked[ip], now)
    ensures forall ip :: ip in r.attempts ==> r.attempts[ip] == s.attempts[ip]
    ensures forall ip :: ip in r.blocked ==> r.blocked[ip] == s.blocked[ip]
  {
    Store(map ip | ip in s.attempts && !Stale(s.attempts[ip], now) :: s.attempts[ip],
          map ip | ip in s.blocked && InForce(s.blocked[ip], now) :: s.blocked[ip])
  }

  /** Sweeping does not change any `isIPBlocked` answer at the same instant, and sweeping twice is sweeping once. */
  lemma SweepKeepsAnswers(s: Store, now: int, ip: string)
    ensures IsBlocked(Sweep(s, now), ip, now).0 == IsBlocked(s, ip, now).0
    ensures Sweep(Sweep(s, now), now) == Sweep(s, now)
  {
  }

  // ----- the loginRateLimit gate -----

  /** `Math.ceil(a / b)` for a positive divisor. */
  function CeilDiv(a: int, b: int): (r: int)
    requires b > 0
    ensures b * (r - 1) < a <= b * r
  {
    var q := (-a) / b;
    assert -a == b * q + (-a) % b;
    -q
  }

  /** What a library limiter's `consume` does: resolves, rejects with a RateLimiterRes, or fails otherwise. */
  datatype LimiterOutcome = Allow | Reject(msBeforeNext: int) | Fault

  /** The response of the gate. */
  datatype GateResponse =
    | IpBlocked(remainingMinutes: int)              // 429 from the block list
    | Throttled(retryAfter: int, retryMinutes: int)  // 429 from a limiter, with a Retry-After header
    | Proceed                                        // next()

  /** The response, the store afterwards and which limiters were consulted. */
  datatype GateDecision = GateDecision(response: GateResponse, store: Store, strictAsked: bool, severeAsked: bool)

  function Throttle(ms: int): (r: GateResponse)
    ensures r.Throttled?
    ensures 1000 * (r.retryAfter - 1) < ms <= 1000 * r.retryAfter
    ensures 60 * (r.retryMinutes - 1) < r.retryAfter <= 60 * r.retryMinutes
  {
    var secs := CeilDiv(ms, 1000);
    Throttled(secs, CeilDiv(secs, 60))
  }

  /**
   * `loginRateLimit` for a request from `ip` at `now`, given what the strict
   * (5 per 15 minutes) and the severe (10 per hour) limiter would do.
   */
  function Gate(s: Store, ip: string, now: int, strict: LimiterOutcome, severe: LimiterOutcome): (d: GateDecision)
    ensures d.store == IsBlocked(s, ip, now).1
    ensures IsBlocked(s, ip, now).0 <==> d.response.IpBlocked?
    ensures d.response.IpBlocked? ==>
      var left := s.blocked[ip].unblockTime - now;
      !d.strictAsked && !d.severeAsked && d.response.remainingMinutes >= 0
      && MINUTE_MS * (d.response.remainingMinutes - 1) < left <= MINUTE_MS * d.response.remainingMinutes
    ensures !d.response.IpBlocked? ==> d.strictAsked && (d.severeAsked <==> strict.Allow?)
    ensures !d.response.IpBlocked? ==>
      (d.response.Throttled? <==> strict.Reject? || (strict.Allow? && severe.Reject?))
    ensures d.response.Throttled? ==>
      d.response == Throttle(if strict.Reject? then strict.msBeforeNext else severe.msBeforeNext)
  {
    var (blocked, s1) := IsBlocked(s, ip, now);
    if blocked then
      GateDecision(IpBlocked(CeilDiv(s1.blocked[ip].unblockTime - now, MINUTE_MS)), s1, false, false)
    else
      match strict
      case Reject(ms) => GateDecision(Throttle(ms), s1, true, false)
      case Fault => GateDecision(Proceed, s1, true, false)
      case Allow =>
        match severe
        case Reject(ms) => GateDecision(Throttle(ms), s1, true, true)
        case _ => GateDecision(Proceed, s1, true, true)
  }

  /** The gate fails open: an unexpected limiter error lets the request through. */
  lemma GateFailsOpen(s: Store, ip: string, now: int, strict: LimiterOutcome, severe: LimiterOutcome)
    requires !IsBlocked(s, ip, now).0
    requires strict.Fault? || (strict.Allow? && severe.Fault?)
    ensures Gate(s, ip, now, strict, severe).response == Proceed
  {
  }

  /** At the very instant a block ends the gate still refuses, reporting 0 minutes. */
  lemma GateAtUnblockInstant(s: Store, ip: string, strict: LimiterOutcome, severe: LimiterOutcome)
    requires ip in s.blocked
    ensures Gate(s, ip, s.blocked[ip].unblockTime, strict, severe).response == IpBlocked(0)
    ensures Gate(s, ip, s.blocked[ip].unblockTime + 1, strict, severe).response != IpBlocked(0)
  {
  }

  /** The login-attempt store of the process. */
  class Guard {
    var loginAttempts: map<string, AttemptRecord>
    var blockedIPs: map<string, BlockRecord>

    function State(): Store
      reads this
    {
      Store(loginAttempts, blockedIPs)
    }

    constructor ()
      ensures State() == Store(map[], map[])
    {
      loginAttempts := map[];
      blockedIPs := map[];
    }

    method IsIPBlocked(ip: string, now: int) returns (b: bool)
      modifies this
      ensures (b, State()) == IsBlocked(old(State()), ip, now)
    {
      if ip !in blockedIPs {
        return false;
      }
      if now > blockedIPs[ip].unblockTime {
        blockedIPs := blockedIPs - {ip};
        return false;
      }
      return true;
    }

    /** `blockIP(ip, duration)`; a missing duration takes the 30-minute default. */
    method BlockIP(ip: string, duration: Option<int>, now: int)
      modifies this
      ensures State() == Block(old(State()), ip, if duration.Some? then duration.value else DEFAULT_BLOCK_MS, now)
    {
      var d := if duration.Some? then duration.value else DEFAULT_BLOCK_MS;
      blockedIPs := blockedIPs[ip := BlockRecord(now, now + d, BLOCK_REASON)];
    }

    method TrackLoginAttempt(ip: string, success: bool, now: int) returns (r: TrackResult)
      modifies this
      ensures (State(), r) == Track(old(State()), ip, success, now)
    {
      var attempts := if ip in loginAttempts then loginAttempts[ip] else AttemptRecord(0, now, now, 0);
      if success {
        attempts := attempts.(successfulLogins := attempts.successfulLogins + 1, count := 0);
      } else {
        attempts := attempts.(count := attempts.count + 1);
      }
      attempts := attempts.(lastAttempt := now);
      loginAttempts := loginAttempts[ip := attempts];
      if attempts.count >= LONG_LIMIT {
        BlockIP(ip, Some(LONG_BLOCK_MS), now);
        return Blocked(LONG_BLOCK_MS);
      }
      if attempts.count >= SHORT_LIMIT && now - attempts.firstAttempt < SHORT_WINDOW_MS {
        BlockIP(ip, Some(SHORT_BLOCK_MS), now);
        return Blocked(SHORT_BLOCK_MS);
      }
      return NotBlocked(SHORT_LIMIT - attempts.count);
    }

    function GetLoginAttempts(ip: string): (v: AttemptView)
      reads this
      ensures v == GetAttempts(State(), ip)
    {
      if ip in loginAttempts then Tracked(loginAttempts[ip]) else Untracked
    }

    /** The hourly cleanup: two passes that delete while iterating over the entries. */
    method Cleanup(now: int)
      modifies this
      ensures State() == Sweep(old(State()), now)
    {
      SweepAttempts(now);
      SweepBlocks(now);
    }

    /** The first pass: attempt records idle for more than a day are deleted. */
    method SweepAttempts(now: int)
      modifies this`loginAttempts
      ensures loginAttempts == Sweep(old(State()), now).attempts
    {
      ghost var attempts0 := loginAttempts;
      var keys := loginAttempts.Keys;
      while keys != {}
        invariant keys <= attempts0.Keys
        invariant loginAttempts.Keys == set ip | ip in attempts0 && (ip in keys || !Stale(attempts0[ip], now))
        invariant forall ip :: ip in loginAttempts ==> loginAttempts[ip] == attempts0[ip]
        decreases keys
      {
        var ip :| ip in keys;
        if now - loginAttempts[ip].lastAttempt > RETENTION_MS {
          loginAttempts := loginAttempts - {ip};
        }
        keys := keys - {ip};
      }
    }

    /** The second pass: block records past their unblock time are deleted. */
    method SweepBlocks(now: int)
      modifies this`blockedIPs
      ensures blockedIPs == Sweep(old(State()), now).blocked
    {
      ghost var blocked0 := blockedIPs;
      var keys := blockedIPs.Keys;
      while keys != {}
        invariant keys <= blocked0.Keys
        invariant blockedIPs.Keys == set ip | ip in blocked0 && (ip in keys || InForce(blocked0[ip], now))
        invariant forall ip :: ip in blockedIPs ==> blockedIPs[ip] == blocked0[ip]
        decreases keys
      {
        var ip :| ip in keys;
        if now > blockedIPs[ip].unblockTime {
          blockedIPs := blockedIPs - {ip};
        }
        keys := keys - {ip};
      }
    }

    /** The `loginRateLimit` middleware; the limiters' behaviour for this request is given. */
    method LoginRateLimit(ip: string, now: int, strict: LimiterOutcome, severe: LimiterOutcome)
      returns (response: GateResponse, strictAsked: bool, severeAsked: bool)
      modifies this
      ensures GateDecision(response, State(), strictAsked, severeAsked) == Gate(old(State()), ip, now, strict, severe)
    {
      var blocked := IsIPBlocked(ip, now);
      if blocked {
        var remaining := CeilDiv(blockedIPs[ip].unblockTime - now, MINUTE_MS);
        return IpBlocked(remaining), false, false;
      }
      strictAsked, severeAsked := true, false;
      match strict {
        case Reject(ms) =>
          return Throttle(ms), strictAsked, severeAsked;
        case Fault =>
          return Proceed, strictAsked, severeAsked;
        case Allow =>
      }
      severeAsked := true;
      match severe {
        case Reject(ms) =>
          return Throttle(ms), strictAsked, severeAsked;
        case _ =>
      }
      response := Proceed;
    }
  }
}
