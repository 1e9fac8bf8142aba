/**
 Program protection for any number of Stacks of one namespace: Step 4 of the pipeline
 (src/operator/reconcile/pipeline.rs), `program_finalizer_action` (src/operator/finalizers.rs) and
 the Program watcher (src/operator/controllers/program.rs, mod.rs).
 */
module Programs {
  import opened Basics

  type Name = string

  // `passed`: Step 4 went through for the present reference.
  datatype StackObject = StackObject(programRef: Option<Name>, passed: bool)

  datatype ProgramObject = ProgramObject(finalizer: bool, deleting: bool)

  // `removing`: Programs whose finalizer the watcher has decided, but not yet managed, to remove.
  datatype Registry = Registry(stacks: map<Name, StackObject>, programs: map<Name, ProgramObject>, removing: set<Name>)

  datatype FinalizerAction = Add | NoAction | Remove | Block

  function ProgramFinalizerAction(program: ProgramObject, referencing: nat): FinalizerAction {
    match (program.finalizer, program.deleting, referencing == 0)
    case (false, false, false) => Add
    case (false, _, true) => NoAction
    case (true, true, true) => Remove
    case (true, true, false) => Block
    case _ => NoAction
  }

  function Referencing(stacks: map<Name, StackObject>, p: Name): set<Name> {
    set n | n in stacks && stacks[n].programRef == Some(p)
  }

  datatype Move =
    | PutStack(stack: Name, programRef: Option<Name>)
    | DropStack(stack: Name)
    | Step4(stack: Name, lands: bool)
    | PutProgram(program: Name)
    | DeleteProgram(program: Name)
    | Decide(program: Name, lands: bool)
    | Apply(program: Name, lands: bool)
    | DecideAndApply(program: Name, lands: bool)

  // `ensure_program_finalizer`: an absent Program or a failed patch is an error; a Program under
  // deletion accepts no new finalizer.
  function EnsureFinalizer(r: Registry, stack: Name, lands: bool): Registry {
    if stack !in r.stacks || r.stacks[stack].programRef.None? then r
    else
      var p := r.stacks[stack].programRef.value;
      var ok := r.stacks[stack].(passed := true);
      if p !in r.programs then r
      else if r.programs[p].finalizer then r.(stacks := r.stacks[stack := ok])
      else if lands && !r.programs[p].deleting then
        r.(stacks := r.stacks[stack := ok], programs := r.programs[p := ProgramObject(true, false)])
      else r
  }

  function Watch(r: Registry, p: Name, lands: bool): Registry {
    if p !in r.programs then r
    else
      match ProgramFinalizerAction(r.programs[p], |Referencing(r.stacks, p)|)
      case Add => if lands then r.(programs := r.programs[p := ProgramObject(true, false)]) else r
      case Remove => r.(removing := r.removing + {p})
      case _ => r
  }

  // Without its finalizer a Program under deletion is gone.
  function Unprotect(r: Registry, p: Name, lands: bool): Registry {
    if p !in r.removing then r
    else
      var r' := r.(removing := r.removing - {p});
      if !lands || p !in r.programs then r'
      else if r.programs[p].deleting then r'.(programs := r.programs - {p})
      else r'.(programs := r.programs[p := ProgramObject(false, false)])
  }

  function Step(r: Registry, m: Move): Registry {
    match m
    case PutStack(n, ref) =>
      if n in r.stacks && r.stacks[n].programRef == ref then r
      else r.(stacks := r.stacks[n := StackObject(ref, false)])
    case DropStack(n) => r.(stacks := r.stacks - {n})
    case Step4(n, lands) => EnsureFinalizer(r, n, lands)
    case PutProgram(p) => if p in r.programs then r else r.(programs := r.programs[p := ProgramObject(false, false)])
    case DeleteProgram(p) =>
      if p !in r.programs then r
      else if r.programs[p].finalizer then r.(programs := r.programs[p := ProgramObject(true, true)])
      else r.(programs := r.programs - {p})
    case Decide(p, lands) => Watch(r, p, lands)
    case Apply(p, lands) => Unprotect(r, p, lands)
    case DecideAndApply(p, lands) => Unprotect(Watch(r, p, lands), p, lands)
  }

  function Run(r: Registry, ms: seq<Move>): Registry {
    if ms == [] then r else Step(Run(r, ms[..|ms| - 1]), ms[|ms| - 1])
  }

  // Every Program that some Stack has passed Step 4 on exists and carries its finalizer.
  predicate Protected(r: Registry) {
    forall n :: n in r.stacks && r.stacks[n].passed && r.stacks[n].programRef.Some? ==>
      var p := r.stacks[n].programRef.value;
      p in r.programs && r.programs[p].finalizer
  }

  // A removal decided earlier lands after a Stack has come to rely on the Program.
  predicate Races(r: Registry, m: Move) {
    && m.Apply? && m.lands && m.program in r.removing
    && exists n :: n in r.stacks && r.stacks[n].passed && r.stacks[n].programRef == Some(m.program)
  }

  lemma UnreferencedCount(stacks: map<Name, StackObject>, p: Name)
    ensures |Referencing(stacks, p)| == 0 <==> forall n :: n in stacks ==> stacks[n].programRef != Some(p)
  {
    if forall n :: n in stacks ==> stacks[n].programRef != Some(p) {
      assert Referencing(stacks, p) == {};
    } else {
      var n :| n in stacks && stacks[n].programRef == Some(p);
      assert n in Referencing(stacks, p);
    }
  }

  ghost predicate Referenced(r: Registry, p: Name) {
    exists n :: n in r.stacks && r.stacks[n].programRef == Some(p)
  }

  // What the watcher makes of a Program whose patch lands: one that a Stack refers to gets the
  // finalizer, unless it is being deleted without; one under deletion goes exactly when none does.
  lemma WatcherMeans(r: Registry, p: Name)
    requires p in r.programs && p !in r.removing
    ensures var r', was := Step(r, DecideAndApply(p, true)), r.programs[p];
            && r'.stacks == r.stacks && r'.removing == r.removing
            && r'.programs ==
                 if was.finalizer && was.deleting && !Referenced(r, p) then r.programs - {p}
                 else if !was.finalizer && !was.deleting && Referenced(r, p)
                 then r.programs[p := ProgramObject(true, false)]
                 else r.programs
  {
    UnreferencedCount(r.stacks, p);
    assert r.removing + {p} - {p} == r.removing;
  }

  // Step 4 goes through exactly when the Program is there and carries the finalizer already, or can
  // still be given it; then it carries it.
  lemma Step4Means(r: Registry, n: Name, lands: bool)
    requires n in r.stacks && r.stacks[n].programRef.Some?
    ensures var r', p := Step(r, Step4(n, lands)), r.stacks[n].programRef.value;
            && r'.removing == r.removing
            && if p in r.programs && (r.programs[p].finalizer || (lands && !r.programs[p].deleting)) then
                 && r'.stacks == r.stacks[n := r.stacks[n].(passed := true)]
                 && r'.programs == r.programs[p := r.programs[p].(finalizer := true)]
               else r' == r
  {
    var p := r.stacks[n].programRef.value;
    if p in r.programs && r.programs[p].finalizer {
      assert r.programs[p := r.programs[p].(finalizer := true)] == r.programs;
    }
  }

  // One step gives protection up exactly when such a stale removal lands.
  lemma ProtectionLostExactlyWhen(r: Registry, m: Move)
    requires Protected(r)
    requires m.DecideAndApply? ==> m.program !in r.removing
    ensures Protected(Step(r, m)) <==> !Races(r, m)
  {
    match m
    case DecideAndApply(p, lands) =>
      UnreferencedCount(r.stacks, p);
    case Apply(p, lands) =>
      if Races(r, m) {
        var n :| n in r.stacks && r.stacks[n].passed && r.stacks[n].programRef == Some(p);
        assert n in Step(r, m).stacks;
      }
    case _ =>
  }

  // A watcher whose decision and patch are one step.
  predicate Atomic(ms: seq<Move>) {
    forall i :: 0 <= i < |ms| ==> !ms[i].Decide? && !ms[i].Apply?
  }

  predicate Vacant(r: Registry) {
    r.stacks == map[] && r.removing == {}
  }

  // With an atomic watcher, for any number of Stacks and any order of edits and deletions.
  lemma {:induction false} ProgramsStayProtected(r: Registry, ms: seq<Move>)
    requires Vacant(r) && Atomic(ms)
    ensures Protected(Run(r, ms)) && Run(r, ms).removing == {}
  {
    if ms != [] {
      var k := |ms| - 1;
      ProgramsStayProtected(r, ms[..k]);
      ProtectionLostExactlyWhen(Run(r, ms[..k]), ms[k]);
    }
  }

  // With the watcher's own two steps a new Stack can slip in between.
  lemma StaleRemovalUnprotects() returns (r: Registry, ms: seq<Move>)
    ensures Vacant(r) && !Protected(Run(r, ms))
  {
    r := Registry(map[], map["p" := ProgramObject(true, true)], {});
    var decide, put, step, apply := Decide("p", true), PutStack("s", Some("p")), Step4("s", true), Apply("p", true);
    ms := [] + [decide] + [put] + [step] + [apply];
    RunOn(r, [], decide);
    RunOn(r, [] + [decide], put);
    RunOn(r, [] + [decide] + [put], step);
    RunOn(r, [] + [decide] + [put] + [step], apply);
    var r1 := Step(r, decide);
    UnreferencedCount(r.stacks, "p");
    assert r1.removing == {"p"};
    var r3 := Step(Step(r1, put), step);
    assert r3.stacks["s"] == StackObject(Some("p"), true);
    var r4 := Step(r3, apply);
    assert "s" in r4.stacks && "p" !in r4.programs;
  }

  lemma RunOn(r: Registry, ms: seq<Move>, m: Move)
    ensures Run(r, ms + [m]) == Step(Run(r, ms), m)
  {
    assert (ms + [m])[..|ms|] == ms;
  }
}
