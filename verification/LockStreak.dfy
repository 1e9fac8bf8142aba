/**
 Model of src/operator/lock.rs: the lock-conflict streak of one actor. Durations and
 clock readings are milliseconds.
 */
module LockStreak {
  import opened Basics

  datatype LockAction = RetryAfter(ms: nat) | ForceUnlock | Clear

  // The abstract value of a LockState.
  datatype Streak = Streak(firstSeen: Option<nat>, timeout: nat, attempts: nat)

  const FACTOR_STEPS: nat := 20

  // 10 s * 3^attempts, the exponent stopping at 20, capped at the timeout (kept in 64 bits).
  function Backoff(attempts: nat, timeout: nat): nat {
    Min(10_000 * Pow(3, Min(attempts, FACTOR_STEPS)), timeout % U64)
  }

  function Age(firstSeen: nat, now: nat): nat {
    if firstSeen <= now then now - firstSeen else 0
  }

  function OnConflict(s: Streak, now: nat): (Streak, LockAction) {
    var first := if s.firstSeen.Some? then s.firstSeen.value else now;
    var s' := Streak(Some(first), s.timeout, (s.attempts + 1) % U32);
    (s', if Age(first, now) >= s.timeout then ForceUnlock else RetryAfter(Backoff(s'.attempts, s.timeout)))
  }

  function OnSuccess(s: Streak): Streak {
    Streak(None, s.timeout, 0)
  }

  class LockState {
    var firstSeen: Option<nat>
    var timeout: nat
    var attempts: nat

    function View(): Streak
      reads this
    {
      Streak(firstSeen, timeout, attempts)
    }

    constructor (timeout: nat)
      ensures View() == Streak(None, timeout, 0)
    {
      this.firstSeen := None;
      this.timeout := timeout;
      this.attempts := 0;
    }

    method Conflict(now: nat) returns (action: LockAction)
      modifies this
      ensures (View(), action) == OnConflict(old(View()), now)
      ensures firstSeen == Some(if old(firstSeen).Some? then old(firstSeen).value else now)
      ensures attempts == (old(attempts) + 1) % 0x1_0000_0000 && timeout == old(timeout)
      ensures var age := if firstSeen.value <= now then now - firstSeen.value else 0;
              action ==
                if age >= timeout then ForceUnlock
                else RetryAfter(Min(10_000 * Pow(3, Min(attempts, 20)), timeout % 0x1_0000_0000_0000_0000))
    {
      if firstSeen == None {
        firstSeen := Some(now);
      }
      var first := firstSeen.value;
      attempts := (attempts + 1) % U32;
      if Age(first, now) >= timeout {
        action := ForceUnlock;
      } else {
        var delay := ComputeBackoff();
        action := RetryAfter(delay);
      }
    }

    method Success()
      modifies this
      ensures View() == OnSuccess(old(View()))
      ensures firstSeen == None && attempts == 0 && timeout == old(timeout)
    {
      firstSeen := None;
      attempts := 0;
    }

    method SetTimeout(t: nat)
      modifies this
      ensures View() == old(View()).(timeout := t)
    {
      timeout := t;
    }

    // The saturating operations of the source never saturate.
    method ComputeBackoff() returns (ms: nat)
      ensures ms == Backoff(attempts, timeout)
      ensures ms == Min(10_000 * Pow(3, Min(attempts, 20)), timeout % 0x1_0000_0000_0000_0000)
    {
      var exponent := Min(attempts, FACTOR_STEPS);
      Pow3Mono(exponent, FACTOR_STEPS);
      Pow3At30();
      var delay := SatMul(10_000, SatPow(3, exponent));
      ms := Min(delay, timeout % U64);
    }
  }

  // --------------------------------------------------------- whole streaks

  // The actions returned for conflicts at the given times, in order.
  function Actions(s: Streak, times: seq<nat>): (acts: seq<LockAction>)
    ensures |acts| == |times|
    decreases |times|
  {
    if times == [] then []
    else
      var (s', a) := OnConflict(s, times[0]);
      [a] + Actions(s', times[1..])
  }

  // Each conflict comes no earlier than the delay returned for the one before.
  predicate Patient(times: seq<nat>, acts: seq<LockAction>)
    requires |times| == |acts|
  {
    forall i :: 0 <= i < |times| - 1 && acts[i].RetryAfter? ==> times[i + 1] >= times[i] + acts[i].ms
  }

  predicate Exact(times: seq<nat>, acts: seq<LockAction>)
    requires |times| == |acts|
  {
    forall i :: 0 <= i < |times| - 1 && acts[i].RetryAfter? ==> times[i + 1] == times[i] + acts[i].ms
  }

  // 30 s + 90 s + ... over i conflicts.
  function GeometricSum(i: nat): int {
    15_000 * (Pow(3, i) - 1)
  }

  // From a streak of `k` conflicts whose age has reached the k-th geometric sum (or the
  // timeout), n - k further patient conflicts bring a force-unlock.
  lemma {:induction false} PatienceForces(s: Streak, times: seq<nat>, k: nat, n: nat)
    requires k < n <= FACTOR_STEPS + 1 && |times| == n - k
    requires s.attempts == k && (s.firstSeen.None? <==> k == 0)
    requires s.timeout < U64
    requires k > 0 ==> times[0] >= s.firstSeen.value + Min(GeometricSum(k), s.timeout)
    requires GeometricSum(n - 1) >= s.timeout
    requires Patient(times, Actions(s, times))
    ensures exists i :: 0 <= i < |times| && Actions(s, times)[i].ForceUnlock?
    decreases n - k
  {
    var (s', a) := OnConflict(s, times[0]);
    if a.ForceUnlock? {
      assert Actions(s, times)[0].ForceUnlock?;
    } else {
      PatienceAges(s, times[0], k, n);
      PatientTail(s, times);
      PatienceForces(s', times[1..], k + 1, n);
      var i :| 0 <= i < |times[1..]| && Actions(s', times[1..])[i].ForceUnlock?;
      assert Actions(s, times)[i + 1].ForceUnlock?;
    }
  }

  // A conflict answered with a retry was not the last one allowed, and its delay carries the
  // streak at least to the next geometric sum or the timeout.
  lemma PatienceAges(s: Streak, now: nat, k: nat, n: nat)
    requires k < n <= FACTOR_STEPS + 1 && s.timeout < U64
    requires s.attempts == k && (s.firstSeen.None? <==> k == 0)
    requires k > 0 ==> now >= s.firstSeen.value + Min(GeometricSum(k), s.timeout)
    requires GeometricSum(n - 1) >= s.timeout
    requires OnConflict(s, now).1.RetryAfter?
    ensures var (s', a) := OnConflict(s, now);
            && k + 1 < n
            && s'.attempts == k + 1 && s'.firstSeen.Some? && s'.timeout == s.timeout
            && now + a.ms >= s'.firstSeen.value + Min(GeometricSum(k + 1), s.timeout)
  {
    NextSum(k);
    RetriedAges(s, now, GeometricSum(k));
    if k + 1 < n { DelaySaved(k, s.timeout); }
  }

  // A conflict answered with a retry is younger than the timeout.
  lemma RetriedAges(s: Streak, now: nat, age: nat)
    requires s.firstSeen.Some? ==> now >= s.firstSeen.value + Min(age, s.timeout)
    requires s.firstSeen.None? ==> age == 0
    requires s.attempts <= FACTOR_STEPS
    requires OnConflict(s, now).1.RetryAfter?
    ensures var (s', a) := OnConflict(s, now);
            && s'.attempts == s.attempts + 1 && s'.firstSeen.Some? && s'.timeout == s.timeout
            && a.ms == Backoff(s.attempts + 1, s.timeout)
            && age < s.timeout && now >= s'.firstSeen.value + age
  {}

  lemma NextSum(k: nat)
    ensures GeometricSum(0) == 0 <= GeometricSum(k)
    ensures GeometricSum(k + 1) == GeometricSum(k) + 10_000 * Pow(3, k + 1)
  {
    Pow3Mono(0, k);
    assert Pow(3, k + 1) == 3 * Pow(3, k);
  }

  lemma DelaySaved(k: nat, timeout: nat)
    requires k < FACTOR_STEPS && timeout < U64
    ensures Backoff(k + 1, timeout) == Min(GeometricSum(k + 1) - GeometricSum(k), timeout)
  {
    NextSum(k);
  }

  lemma PatientTail(s: Streak, times: seq<nat>)
    requires times != [] && Patient(times, Actions(s, times))
    ensures Patient(times[1..], Actions(OnConflict(s, times[0]).0, times[1..]))
    ensures Actions(s, times) == [OnConflict(s, times[0]).1] + Actions(OnConflict(s, times[0]).0, times[1..])
    ensures |times| > 1 && OnConflict(s, times[0]).1.RetryAfter? ==> times[1] >= times[0] + OnConflict(s, times[0]).1.ms
  {
    var acts, rest := Actions(s, times), Actions(OnConflict(s, times[0]).0, times[1..]);
    assert forall i :: 0 <= i < |rest| ==> rest[i] == acts[i + 1];
    assert acts[0] == OnConflict(s, times[0]).1;
  }

  // A caller that waits at least each returned delay is told to force-unlock by the first
  // conflict n whose geometric sum reaches the timeout.
  lemma LockStreakBound(timeout: nat, times: seq<nat>)
    requires timeout < U64
    requires 1 <= |times| <= FACTOR_STEPS + 1
    requires GeometricSum(|times| - 1) >= timeout
    requires Patient(times, Actions(Streak(None, timeout, 0), times))
    ensures exists i :: 0 <= i < |times| && Actions(Streak(None, timeout, 0), times)[i].ForceUnlock?
  {
    var s := Streak(None, timeout, 0);
    PatienceForces(s, times, 0, |times|);
    var i :| 0 <= i < |times| && Actions(s, times)[i].ForceUnlock?;
  }

  // The delay of the (k+1)-st conflict carries the streak to the next geometric sum.
  lemma GeometricStep(k: nat, timeout: nat)
    requires k < FACTOR_STEPS && timeout < U64
    ensures GeometricSum(k) < GeometricSum(k + 1)
    ensures GeometricSum(k + 1) < timeout ==> GeometricSum(k) + Backoff(k + 1, timeout) == GeometricSum(k + 1)
  {
    NextSum(k);
    DelaySaved(k, timeout);
  }

  lemma {:induction false} GeometricMono(i: nat, j: nat)
    requires i <= j
    ensures GeometricSum(i) <= GeometricSum(j)
  {
    Pow3Mono(i, j);
  }

  // The bound is sharp: waiting exactly the returned delays, every conflict before that is
  // answered with a retry.
  lemma {:induction false} NoEarlierForce(s: Streak, times: seq<nat>, k: nat)
    requires times != [] && k + |times| <= FACTOR_STEPS + 1
    requires s.attempts == k && (s.firstSeen.None? <==> k == 0)
    requires s.timeout < U64
    requires GeometricSum(k + |times| - 1) < s.timeout
    requires k > 0 ==> times[0] == s.firstSeen.value + GeometricSum(k)
    requires Exact(times, Actions(s, times))
    ensures forall i :: 0 <= i < |times| ==> Actions(s, times)[i].RetryAfter?
    decreases |times|
  {
    var (s', a) := OnConflict(s, times[0]);
    GeometricMono(k, k + |times| - 1);
    RetriedConflict(s, times[0], k);
    if |times| > 1 {
      GeometricMono(k + 1, k + |times| - 1);
      var rest := times[1..];
      ExactTail(s, times);
      NoEarlierForce(s', rest, k + 1);
      forall i | 0 < i < |times| ensures Actions(s, times)[i].RetryAfter? {
        assert Actions(s, times)[i] == Actions(s', rest)[i - 1];
      }
    }
  }

  lemma RetriedConflict(s: Streak, now: nat, k: nat)
    requires k <= FACTOR_STEPS && s.attempts == k && (s.firstSeen.None? <==> k == 0)
    requires s.timeout < U64 && GeometricSum(k) < s.timeout
    requires k > 0 ==> now == s.firstSeen.value + GeometricSum(k)
    ensures var (s', a) := OnConflict(s, now);
            && a.RetryAfter? && s'.attempts == k + 1 && s'.firstSeen.Some? && s'.timeout == s.timeout
            && (k < FACTOR_STEPS && GeometricSum(k + 1) < s.timeout ==>
                  now + a.ms == s'.firstSeen.value + GeometricSum(k + 1))
  {
    NextSum(k);
    YoungIsRetried(s, now, GeometricSum(k));
    if k < FACTOR_STEPS { DelaySaved(k, s.timeout); }
  }

  lemma YoungIsRetried(s: Streak, now: nat, age: nat)
    requires s.firstSeen.Some? ==> now == s.firstSeen.value + age
    requires age < s.timeout && s.attempts <= FACTOR_STEPS
    ensures var (s', a) := OnConflict(s, now);
            && a == RetryAfter(Backoff(s.attempts + 1, s.timeout))
            && s'.attempts == s.attempts + 1 && s'.timeout == s.timeout
            && s'.firstSeen == Some(if s.firstSeen.Some? then s.firstSeen.value else now)
  {}

  lemma ExactTail(s: Streak, times: seq<nat>)
    requires |times| > 1 && Exact(times, Actions(s, times))
    ensures Exact(times[1..], Actions(OnConflict(s, times[0]).0, times[1..]))
    ensures OnConflict(s, times[0]).1.RetryAfter? ==> times[1] == times[0] + OnConflict(s, times[0]).1.ms
  {
    var acts, rest := Actions(s, times), Actions(OnConflict(s, times[0]).0, times[1..]);
    assert forall i :: 0 <= i < |rest| ==> rest[i] == acts[i + 1];
    assert acts[0] == OnConflict(s, times[0]).1;
  }

  // At the largest timeout the Stack schema admits, 7200 s, the seventh conflict forces.
  lemma SeventhConflictForces(timeout: nat, times: seq<nat>)
    requires timeout <= 7_200_000
    requires |times| == 7
    requires Patient(times, Actions(Streak(None, timeout, 0), times))
    ensures exists i :: 0 <= i < 7 && Actions(Streak(None, timeout, 0), times)[i].ForceUnlock?
  {
    Pow3At10();
    LockStreakBound(timeout, times);
  }
}
