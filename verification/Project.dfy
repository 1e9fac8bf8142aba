/**
 Model of src/operator/reconcile/project.rs: the cached project check and the grace period.
 */
module Project {
  import opened Basics
  import opened Time
  import opened Api

  const RECHECK_MS: nat := 300_000

  // `polled` is what the cloud API (or the missing program variable) yields when it is asked.
  function CheckProject(stack: Stack, polled: Verdict, now: nat): Verdict {
    if stack.spec.verification.None? then NotConfigured
    else
      match stack.status.lastProjectCheck
      case Some(c) =>
        if ElapsedSince(Some(c.checkedAt), now) < RECHECK_MS then
          (if c.result == NotFound then NotFound else Active)
        else polled
      case None => polled
  }

  // Within five minutes the cached result answers, whatever the cloud would say: a cached error or
  // missing variable counts as a project that is there.
  lemma CacheAnswers(stack: Stack, polled: Verdict, now: nat)
    requires stack.spec.verification.Some? && stack.status.lastProjectCheck.Some?
    requires stack.status.lastProjectCheck.value.checkedAt.At?
    ensures var c := stack.status.lastProjectCheck.value;
            CheckProject(stack, polled, now) ==
              if now >= c.checkedAt.ms + 300_000 then polled
              else if c.result == NotFound then NotFound
              else Active
  {}

  // `(days.max(0) as u64) * 86400`, in the wrapping arithmetic of a release build.
  function GraceMs(days: int): nat {
    Max(days, 0) * 86_400 % U64 * 1000
  }

  predicate IsGraceExpired(since: Timestamp, days: int, now: nat) {
    ElapsedSince(Some(since), now) >= GraceMs(days)
  }

  const MAX_GRACE_DAYS: int := 213_503_982_334_601

  // The grace period is the configured number of days exactly up to the last count whose
  // seconds fit 64 bits.
  lemma GraceIsConfigured(days: int)
    ensures GraceMs(days) == Max(days, 0) * 86_400_000 <==> days <= MAX_GRACE_DAYS
  {
    if days > MAX_GRACE_DAYS {
      assert days * 86_400 >= U64;
    }
  }
}
