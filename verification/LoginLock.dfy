/**
 Account lockout: every failed login from the fifth on locks the account, for a time that
 doubles up to a day. Logins of one account run one after another.
 */
module LoginLock {
  import opened Wrappers

  const MINUTE := 60_000_000_000  // nanoseconds
  const MAX_FAIL_COUNT := 5
  const INITIAL_LOCK_TIME := 5 * MINUTE
  const MAX_LOCK_TIME := 1440 * MINUTE

  function Pow2(n: nat): nat { if n == 0 then 1 else 2 * Pow2(n - 1) }

  lemma {:induction false} Pow2Grows(a: nat, b: nat)
    requires a <= b
    ensures 1 <= Pow2(a) <= Pow2(b)
    decreases b
  {
    if a < b { Pow2Grows(a, b - 1); } else if a > 0 { Pow2Grows(a - 1, a - 1); }
  }

  function Min(a: int, b: int): int { if a <= b then a else b }

  function Excess(failCount: int): nat { if failCount > MAX_FAIL_COUNT then failCount - MAX_FAIL_COUNT else 0 }

  /** Five minutes, doubled for every failure after the fifth, at most a day. */
  function LockTime(failCount: int): int { Min(INITIAL_LOCK_TIME * Pow2(Excess(failCount)), MAX_LOCK_TIME) }

  method CalculateLockDuration(failCount: int) returns (duration: int)
    ensures duration == LockTime(failCount)
  {
    var excessCount := failCount - MAX_FAIL_COUNT;
    if excessCount < 0 { excessCount := 0; }
    duration := INITIAL_LOCK_TIME;
    var i := 0;
    while i < excessCount
      invariant 0 <= i <= excessCount
      invariant duration == INITIAL_LOCK_TIME * Pow2(i) <= MAX_LOCK_TIME
    {
      duration := duration * 2;
      if duration > MAX_LOCK_TIME {
        Pow2Grows(i + 1, excessCount);
        duration := MAX_LOCK_TIME;
        break;
      }
      i := i + 1;
    }
  }

  /** Further failures never shorten the lock; from the fourteenth on it is a full day. */
  lemma LockTimeGrows(m: int, n: int)
    requires m <= n
    ensures INITIAL_LOCK_TIME <= LockTime(m) <= LockTime(n) <= MAX_LOCK_TIME
    ensures n >= 14 <==> LockTime(n) == MAX_LOCK_TIME
  {
    Pow2Grows(Excess(m), Excess(n));
    Pow2Grows(0, Excess(m));
    assert Pow2(8) == 256 && Pow2(9) == 512 by { PowersUpTo9(); }
    if n >= 14 { Pow2Grows(9, Excess(n)); } else { Pow2Grows(Excess(n), 8); }
  }

  lemma PowersUpTo9()
    ensures Pow2(8) == 256 && Pow2(9) == 512
  {
    assert Pow2(2) == 4;
    assert Pow2(4) == 16;
    assert Pow2(6) == 64;
  }

  // ----- An account -----

  datatype Account = Account(failCount: int, lockedUntil: Option<int>)

  const UNTOUCHED := Account(0, None)

  datatype Outcome = LoggedIn | InvalidCredentials | AccountLocked | AccountDisabled

  predicate IsLocked(lockedUntil: Option<int>, now: int) { lockedUntil.Some? && now < lockedUntil.value }

  /** A failure counts, and locks the account from the fifth on. */
  function Failed(a: Account, at: int): Account {
    var n := a.failCount + 1;
    Account(n, if n >= MAX_FAIL_COUNT then Some(at + LockTime(n)) else a.lockedUntil)
  }

  /** While the account is locked the password is not looked at. A success clears the count. */
  function Login(a: Account, at: int, correct: bool, active: bool): (Account, Outcome) {
    if IsLocked(a.lockedUntil, at) then (a, AccountLocked)
    else if !correct then
      (Failed(a, at), if IsLocked(Failed(a, at).lockedUntil, at) then AccountLocked else InvalidCredentials)
    else if !active then (a, AccountDisabled)
    else (if a.failCount > 0 then UNTOUCHED else a, LoggedIn)
  }

  class AccountStore {
    var loginFailCount: int
    var lockedUntil: Option<int>

    constructor ()
      ensures Value() == UNTOUCHED
    {
      loginFailCount, lockedUntil := 0, None;
    }

    function Value(): Account
      reads this
    {
      Account(loginFailCount, lockedUntil)
    }

    method HandleLoginFailure(now: int)
      modifies this
      ensures Value() == Failed(old(Value()), now)
    {
      loginFailCount := loginFailCount + 1;
      if loginFailCount >= MAX_FAIL_COUNT {
        var lockDuration := CalculateLockDuration(loginFailCount);
        lockedUntil := Some(now + lockDuration);
      }
    }

    method LoginUser(now: int, correct: bool, active: bool) returns (outcome: Outcome)
      modifies this
      ensures (Value(), outcome) == Login(old(Value()), now, correct, active)
      ensures old(lockedUntil).Some? && now < old(lockedUntil).value ==>
                outcome == AccountLocked && Value() == old(Value())
      ensures !(old(lockedUntil).Some? && now < old(lockedUntil).value) ==>
                && (!correct ==>
                      && loginFailCount == old(loginFailCount) + 1
                      && lockedUntil == (if loginFailCount >= 5 then Some(now + LockTime(loginFailCount))
                                         else old(lockedUntil))
                      && outcome == (if loginFailCount >= 5 then AccountLocked else InvalidCredentials))
                && (correct && !active ==> outcome == AccountDisabled && Value() == old(Value()))
                && (correct && active ==> outcome == LoggedIn && loginFailCount <= 0
                                          && (old(loginFailCount) > 0 ==> lockedUntil == None))
    {
      LockIsPositive(loginFailCount + 1);
      if IsLocked(lockedUntil, now) { return AccountLocked; }
      if !correct {
        HandleLoginFailure(now);
        if IsLocked(lockedUntil, now) { return AccountLocked; }
        return InvalidCredentials;
      }
      if !active { return AccountDisabled; }
      if loginFailCount > 0 { loginFailCount, lockedUntil := 0, None; }
      return LoggedIn;
    }
  }

  lemma LockIsPositive(n: int)
    ensures LockTime(n) >= INITIAL_LOCK_TIME
  {
    LockTimeGrows(n, n);
  }

  // ----- Runs -----

  datatype Event = Attempt(at: int, correct: bool, active: bool) | Unlock(at: int)

  function Next(a: Account, e: Event): Account {
    match e
    case Attempt(at, correct, active) => Login(a, at, correct, active).0
    case Unlock(_) => UNTOUCHED
  }

  function Exec(events: seq<Event>): Account {
    if events == [] then UNTOUCHED else Next(Exec(events[..|events| - 1]), events[|events| - 1])
  }

  /** The times of the failures that were counted since the count was last cleared. */
  function Fails(events: seq<Event>): seq<int> {
    if events == [] then []
    else
      var n := |events| - 1;
      var before, after := Exec(events[..n]), Exec(events);
      if after.failCount > before.failCount then Fails(events[..n]) + [events[n].at]
      else if after.failCount == before.failCount then Fails(events[..n])
      else []
  }

  ghost predicate Ordered(events: seq<Event>) {
    forall i, j | 0 <= i < j < |events| :: events[i].at <= events[j].at
  }

  /** From the fifth failure on, the next one is at least its lock time later. */
  ghost predicate Spaced(fails: seq<int>) {
    && (forall k | 0 < k < |fails| :: fails[k - 1] <= fails[k])
    && forall k | MAX_FAIL_COUNT <= k < |fails| :: fails[k] - fails[k - 1] >= LockTime(k)
  }

  ghost predicate Explained(a: Account, fails: seq<int>) {
    && a.failCount == |fails|
    && a.lockedUntil == if |fails| >= MAX_FAIL_COUNT then Some(fails[|fails| - 1] + LockTime(|fails|)) else None
  }

  lemma OneMoreFailure(a: Account, fails: seq<int>, at: int)
    requires Explained(a, fails) && Spaced(fails) && !IsLocked(a.lockedUntil, at)
    requires fails != [] ==> fails[|fails| - 1] <= at
    ensures Explained(Failed(a, at), fails + [at]) && Spaced(fails + [at])
  {
    hide LockTime;
  }

  lemma {:induction false} RunSpaced(events: seq<Event>)
    requires Ordered(events)
    ensures Explained(Exec(events), Fails(events)) && Spaced(Fails(events))
    ensures forall t | t in Fails(events) :: events != [] && t <= events[|events| - 1].at
    decreases |events|
  {
    hide LockTime, Explained, Spaced;
    if events == [] {
      NothingFailed();
    } else {
      var n := |events| - 1;
      var e, a, fails := events[n], Exec(events[..n]), Fails(events[..n]);
      RunSpaced(events[..n]);
      forall t | t in fails ensures t <= e.at { assert events[..n][n - 1] == events[n - 1]; }
      if e.Attempt? && !IsLocked(a.lockedUntil, e.at) && !e.correct {
        if fails != [] { assert fails[|fails| - 1] in fails; }
        OneMoreFailure(a, fails, e.at);
      } else {
        NothingFailed();
        CountOfNone(a, fails);
      }
    }
  }

  lemma NothingFailed()
    ensures Explained(UNTOUCHED, []) && Spaced([])
  {
  }

  lemma CountOfNone(a: Account, fails: seq<int>)
    requires Explained(a, fails)
    ensures a.failCount == |fails| && (a.failCount == 0 ==> a == UNTOUCHED)
  {
    hide LockTime;
  }

  /** Wrong passwords that were looked at since the last login or unlocking; an attempt on a
      locked account is not looked at, and one on a disabled account neither counts nor clears. */
  function Streak(events: seq<Event>): nat {
    if events == [] then 0
    else
      var before := Streak(events[..|events| - 1]);
      match events[|events| - 1]
      case Unlock(_) => 0
      case Attempt(at, correct, active) =>
        var locked := Exec(events[..|events| - 1]).lockedUntil;
        if locked.Some? && at < locked.value then before
        else if !correct then before + 1
        else if active then 0
        else before
  }

  /** In every run the count is that streak, and a clean count means no lock. */
  lemma {:induction false} CountIsStreak(events: seq<Event>)
    ensures Exec(events).failCount == Streak(events)
    ensures Exec(events).failCount == 0 ==> Exec(events).lockedUntil == None
    decreases |events|
  {
    hide LockTime;
    if events != [] { CountIsStreak(events[..|events| - 1]); }
  }

  /** All lock times before failure `n`. */
  function TotalLock(n: nat): int {
    if n <= MAX_FAIL_COUNT then 0 else TotalLock(n - 1) + LockTime(n - 1)
  }

  lemma {:induction false} SpacedTakes(fails: seq<int>, n: nat)
    requires Spaced(fails) && 0 < n <= |fails|
    ensures fails[n - 1] - fails[0] >= TotalLock(n)
    decreases n
  {
    hide LockTime;
    if n > 1 { SpacedTakes(fails, n - 1); }
  }

  /** In every run, wherever the count was cleared in between: consecutive failures from the
      fifth on are at least the lock time apart, and reaching failure n takes at least the sum
      of the lock times before it. */
  lemma GuessingTakes(events: seq<Event>, n: nat)
    requires Ordered(events) && 0 < n <= |Fails(events)|
    ensures n > MAX_FAIL_COUNT ==> Fails(events)[n - 1] - Fails(events)[n - 2] >= LockTime(n - 1)
    ensures Fails(events)[n - 1] - Fails(events)[0] >= TotalLock(n)
  {
    RunSpaced(events);
    SpacedTakes(Fails(events), n);
  }

  /** Guessing again at the very end of each lock. */
  function Schedule(n: nat): seq<Event> {
    if n == 0 then [] else Schedule(n - 1) + [Attempt(TotalLock(n), false, true)]
  }

  lemma FailureCounts(events: seq<Event>, at: int)
    requires !IsLocked(Exec(events).lockedUntil, at)
    ensures Exec(events + [Attempt(at, false, true)]) == Failed(Exec(events), at)
    ensures Fails(events + [Attempt(at, false, true)]) == Fails(events) + [at]
  {
    hide LockTime;
    assert (events + [Attempt(at, false, true)])[..|events|] == events;
  }

  lemma {:induction false} ScheduleOrdered(n: nat)
    ensures Ordered(Schedule(n)) && forall e | e in Schedule(n) :: e.at <= TotalLock(n)
    decreases n
  {
    hide LockTime;
    if n > 0 {
      ScheduleOrdered(n - 1);
      LockIsPositive(n - 1);
    }
  }

  lemma {:induction false} ScheduleRuns(n: nat)
    ensures Exec(Schedule(n)) == Account(n, if n >= MAX_FAIL_COUNT then Some(TotalLock(n) + LockTime(n)) else None)
    ensures |Fails(Schedule(n))| == n
        && (n > 0 ==> Fails(Schedule(n))[0] == 0 && Fails(Schedule(n))[n - 1] == TotalLock(n))
    decreases n
  {
    hide LockTime, Exec, Fails, IsLocked, Failed, TotalLock;
    if n == 0 {
      NothingRun();
    } else {
      ScheduleRuns(n - 1);
      LockJustOver(n);
      FailureCounts(Schedule(n - 1), TotalLock(n));
    }
  }

  /** At the very end of the lock the account is open again. */
  lemma LockJustOver(n: nat)
    requires n > 0
    ensures var a := Account(n - 1, if n - 1 >= MAX_FAIL_COUNT then Some(TotalLock(n - 1) + LockTime(n - 1)) else None);
      && !IsLocked(a.lockedUntil, TotalLock(n))
      && Failed(a, TotalLock(n)) ==
          Account(n, if n >= MAX_FAIL_COUNT then Some(TotalLock(n) + LockTime(n)) else None)
    ensures TotalLock(1) == 0
  {
    hide LockTime;
  }

  lemma NothingRun()
    ensures Exec([]) == UNTOUCHED && Fails([]) == []
  {
  }

  /** The bound is exact: it can be reached for every n. */
  lemma GuessingBoundIsTight(n: nat)
    requires n > 0
    ensures Ordered(Schedule(n)) && |Fails(Schedule(n))| == n
    ensures Fails(Schedule(n))[n - 1] - Fails(Schedule(n))[0] == TotalLock(n)
  {
    ScheduleRuns(n);
    ScheduleOrdered(n);
  }

  /** A run of failures costs 1275 minutes before the thirteenth, and a full day for each one
      after the fourteenth. */
  lemma TotalLockGrows(n: nat)
    ensures TotalLock(13) == 1275 * MINUTE
    ensures n >= 14 ==> TotalLock(n + 1) - TotalLock(n) == MAX_LOCK_TIME
  {
    LockTimeGrows(n, n);
    assert TotalLock(7) == 15 * MINUTE;
    assert TotalLock(9) == 75 * MINUTE;
    assert TotalLock(11) == 315 * MINUTE;
  }
}
