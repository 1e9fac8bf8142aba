/**
 Reading an Update's conditions (`check_update`, src/operator/controllers/update.rs) and the
 conditions the executor writes (`execute_update`, src/operator/controllers/mod.rs).
 */
module UpdateCheck {
  import opened Basics
  import opened Messages
  import opened Api

  datatype CheckResult = InProgress | Succeeded | FailedWith(message: Legible) | Absent

  // The first condition of the given kind.
  function FindCondition(cs: seq<Condition>, kind: ConditionKind): Option<Condition> {
    if cs == [] then None
    else if cs[0].kind == kind then Some(cs[0])
    else FindCondition(cs[1..], kind)
  }

  predicate Holds(c: Option<Condition>) {
    c.Some? && c.value.status == True
  }

  function CheckStatus(status: Option<seq<Condition>>): CheckResult {
    if status.None? then InProgress
    else
      var complete := FindCondition(status.value, Complete);
      var failed := FindCondition(status.value, Failed);
      if !Holds(complete) then InProgress
      else if Holds(failed) then
        FailedWith(Truncated(if failed.value.message.Some? then failed.value.message.value else "unknown error"))
      else Succeeded
  }

  function CheckUpdate(us: Updates, name: string): CheckResult {
    if name in us then CheckStatus(us[name].status) else Absent
  }

  predicate Terminal(u: Update) {
    CheckStatus(u.status) != InProgress
  }

  ghost predicate IsFirst(cs: seq<Condition>, kind: ConditionKind, i: int) {
    0 <= i < |cs| && cs[i].kind == kind && forall j :: 0 <= j < i ==> cs[j].kind != kind
  }

  ghost predicate FirstIsTrue(cs: seq<Condition>, kind: ConditionKind) {
    exists i :: IsFirst(cs, kind, i) && cs[i].status == True
  }

  lemma {:induction false} FindsFirst(cs: seq<Condition>, kind: ConditionKind)
    ensures var c := FindCondition(cs, kind);
            if c.Some? then exists i :: IsFirst(cs, kind, i) && cs[i] == c.value
            else forall i :: 0 <= i < |cs| ==> cs[i].kind != kind
  {
    if cs != [] && cs[0].kind != kind {
      var c, rest := FindCondition(cs, kind), cs[1..];
      FindsFirst(rest, kind);
      if c.Some? {
        var i :| IsFirst(rest, kind, i) && rest[i] == c.value;
        forall j | 0 <= j < i + 1 ensures cs[j].kind != kind {
          if j > 0 { assert cs[j] == rest[j - 1]; }
        }
        assert IsFirst(cs, kind, i + 1);
      } else {
        forall i | 0 < i < |cs| ensures cs[i].kind != kind { assert cs[i] == rest[i - 1]; }
      }
    } else if cs != [] {
      assert IsFirst(cs, kind, 0);
    }
  }

  // Any list of conditions is read by the first of each kind: in progress unless the first Complete
  // is True, then failed or succeeded by whether the first Failed is, with that one's message.
  lemma StatusReads(cs: seq<Condition>)
    ensures CheckStatus(Some(cs)) == InProgress <==> !FirstIsTrue(cs, Complete)
    ensures CheckStatus(Some(cs)) == Succeeded <==> FirstIsTrue(cs, Complete) && !FirstIsTrue(cs, Failed)
    ensures forall i :: FirstIsTrue(cs, Complete) && IsFirst(cs, Failed, i) && cs[i].status == True ==>
              CheckStatus(Some(cs)) ==
                FailedWith(Truncated(if cs[i].message.Some? then cs[i].message.value else "unknown error"))
  {
    FindsFirst(cs, Complete);
    FindsFirst(cs, Failed);
  }

  // ------------------------------------------------------ executor's writes

  function ProgressingStatus(): seq<Condition> {
    [Condition(Progressing, True, Some("Connecting to workspace agent"))]
  }

  function SucceededStatus(): seq<Condition> {
    [Condition(Progressing, False, None),
     Condition(Complete, True, Some("Update completed successfully"))]
  }

  function FailedStatus(message: Legible): seq<Condition> {
    [Condition(Progressing, False, None),
     Condition(Complete, True, Some(message)),
     Condition(Failed, True, Some(message))]
  }

  // `needs_execution`: any Progressing or Complete condition with status True rules it out.
  predicate NeedsExecution(status: Option<seq<Condition>>) {
    status.Some? ==>
      forall i :: 0 <= i < |status.value| ==>
        !(status.value[i].status == True && status.value[i].kind in {Progressing, Complete})
  }

  // What the executor writes is what the pipeline and the watcher read back.
  lemma WritesReadBack(message: Legible)
    ensures CheckStatus(Some(ProgressingStatus())) == InProgress && !NeedsExecution(Some(ProgressingStatus()))
    ensures CheckStatus(Some(SucceededStatus())) == Succeeded && !NeedsExecution(Some(SucceededStatus()))
    ensures CheckStatus(Some(FailedStatus(message))) == FailedWith(Truncated(message))
    ensures !NeedsExecution(Some(FailedStatus(message)))
  {
    var p, s, f := ProgressingStatus(), SucceededStatus(), FailedStatus(message);
    assert p[0].kind == Progressing && s[1].kind == Complete && f[1].kind == Complete;
    assert FindCondition(p, Complete) == FindCondition(p[1..], Complete) == None;
    assert FindCondition(s, Complete) == FindCondition(s[1..], Complete) == Some(s[1]);
    assert s[1..][1..] == [];
    assert FindCondition(s, Failed) == FindCondition(s[1..], Failed) == FindCondition(s[1..][1..], Failed) == None;
    assert FindCondition(f, Complete) == FindCondition(f[1..], Complete) == Some(f[1]);
    assert f[1..][1..][0] == f[2];
    assert FindCondition(f, Failed) == FindCondition(f[1..], Failed) == FindCondition(f[1..][1..], Failed)
        == Some(f[2]);
  }
}
