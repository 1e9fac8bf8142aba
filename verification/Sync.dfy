/**
 Model of src/operator/reconcile/sync.rs: the synced test, the resync period and the
 failure cooldown. Durations are milliseconds unless a name says seconds.
 */
module Sync {
  import opened Basics
  import opened Time
  import opened Api

  const DAY_SECS: nat := 86_400
  const COOLDOWN_STEPS: nat := 30

  function CapSecs(spec: Spec): nat {
    if spec.retryMaxBackoffSecs > 0 then spec.retryMaxBackoffSecs else DAY_SECS
  }

  // 10 s * 3^failures, the exponent stopping at 30, capped by the spec or at 24 h.
  function CooldownSecs(failures: int, spec: Spec): nat {
    if failures <= 0 then 0
    else Min(10 * Pow(3, Min(failures, COOLDOWN_STEPS)), CapSecs(spec))
  }

  function Cooldown(failures: int, spec: Spec): nat {
    CooldownSecs(failures, spec) * 1000
  }

  // The saturating loop of the source; it never saturates.
  method ComputeCooldownSecs(failures: int, spec: Spec) returns (secs: nat)
    ensures secs == CooldownSecs(failures, spec)
    ensures secs ==
              if failures <= 0 then 0
              else
                Min(10 * Pow(3, Min(failures, 30)),
                    if spec.retryMaxBackoffSecs > 0 then spec.retryMaxBackoffSecs else 86_400)
  {
    if failures <= 0 {
      return 0;
    }
    var cap := if spec.retryMaxBackoffSecs > 0 then spec.retryMaxBackoffSecs else DAY_SECS;
    var delay: nat := 10;
    var steps := Min(failures, COOLDOWN_STEPS);
    for i := 0 to steps
      invariant delay == 10 * Pow(3, i)
    {
      Pow3Mono(i + 1, COOLDOWN_STEPS);
      Pow3At30();
      delay := SatMul(delay, 3);
    }
    secs := Min(delay, cap);
  }

  // Growth in the failure count, and the least and greatest value the spec admits.
  lemma CooldownBounds(a: int, b: int, spec: Spec)
    requires a <= b
    ensures Cooldown(a, spec) <= Cooldown(b, spec) <= CapSecs(spec) * 1000
    ensures b > 0 ==> Cooldown(b, spec) >= Min(30, CapSecs(spec)) * 1000 >= 1000
  {
    if b > 0 {
      Pow3Mono(1, Min(b, COOLDOWN_STEPS));
      assert Pow(3, 1) == 3;
      if a > 0 {
        Pow3Mono(Min(a, COOLDOWN_STEPS), Min(b, COOLDOWN_STEPS));
      }
    }
  }

  function ResyncPeriod(spec: Spec): nat {
    if spec.resyncFrequencySecs > 0 then spec.resyncFrequencySecs * 1000 else 60_000
  }

  predicate IsSynced(stack: Stack, commit: string, now: nat) {
    stack.status.lastUpdate.Some? &&
    var last := stack.status.lastUpdate.value;
    && last.generation == stack.generation
    && last.reconcileRequest == stack.annotation
    && match last.state
       case Some(RunSucceeded) =>
         || stack.Deleting()
         || (&& last.lastSuccessfulCommit == Some(commit)
             && (|| !stack.spec.continueResync
                 || ElapsedSince(last.lastResyncTime, now) < ResyncPeriod(stack.spec)))
       case Some(RunFailed) =>
         && last.lastAttemptedCommit == Some(commit)
         && ElapsedSince(last.lastResyncTime, now) < Cooldown(last.failures, stack.spec)
       case _ => false
  }
}
