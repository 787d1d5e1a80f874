/** The gate in front of a partition pass (Reconcile, shouldReverify and runTarget in
    internal/controller/acceleratorpartitionpolicy_controller.go): a policy whose stored status has converged only
    watches. The node, the journal and the status are those of modules MigModel and Converged. */
module ConvergedPartition {
  import opened MigModel
  import opened MigCoverage
  import MigRuns
  import C = Converged

  /** Everything stored: the node with the policy's record, and the policy's status. */
  datatype Stored = Stored(w: World, st: C.Status)

  /** graded: the evidence gathered for a ready partition has a grade; conditions: what the applying path writes. */
  datatype Turn = Turn(
    p: Policy, env: Inputs, s: Script, look: C.Look, watchErr: bool, graded: bool, conditions: seq<C.Condition>)

  /** The phase the target ends a pass in, from either path. */
  datatype Shown = Watching(seen: C.Phase) | Working(phase: TargetPhase)

  /** Where the target step leaves the node, and what it reports unless the process died. */
  datatype Step = Step(w: World, died: bool, shown: Shown, err: bool)

  /** A ready partition without a grade waits for verification; an error after it was ready skips the gate. */
  function Graded(t: Turn, phase: TargetPhase, err: bool): TargetPhase {
    if phase == TsReady && !err && !t.graded then TsVerifyingAllocatable else phase
  }

  function RunGated(t: Turn, x: Stored): Step {
    var w := x.w.(mem := x.w.rec);
    if C.ShouldReverify(x.st, t.p.generation) then
      var r := MigModel.Worked(t.p, t.env, t.s, w);
      match r.end
      case Answer(phase, err) => Step(r.w, false, Working(Graded(t, phase, err)), err)
      case _ => Step(r.w, true, Working(NoTarget), false)
    else Step(w, false, Watching(C.Monitor(x.st, t.p.generation, t.look).phase), t.watchErr)
  }

  /** The phases that end with the node given back. */
  predicate GivesBack(shown: Shown, err: bool) {
    match shown
    case Working(phase) => Restores(Answer(phase, err))
    case Watching(phase) => phase == C.Elsewhere
  }

  function StatusPhase(shown: Shown): C.Phase {
    match shown
    case Watching(phase) => phase
    case Working(phase) => if phase == TsReady then C.Ready else C.Elsewhere
  }

  /** A whole pass: the gate, the target, the cordon restore, the status write. */
  function Pass(t: Turn, x: Stored): Stored {
    var g := t.p.generation;
    var w := x.w.(mem := x.w.rec);
    if t.look.lostConflict then
      Stored(w, if At(t.s, StatusWrite) == Does then C.Reconcile(x.st, g, t.look, x.st) else x.st)
    else
      var r := RunGated(t, x);
      var q := if r.died then R(r.w, Died)
               else if GivesBack(r.shown, r.err) then Logged(RestoreSchedulable(t.s, 2, r.w))
               else R(r.w, Going);
      if q.end == Going && At(t.s, StatusWrite) == Does then
        Stored(q.w.(rec := q.w.mem),
               C.Reconcile(x.st, g, t.look, C.Status(StatusPhase(r.shown), t.conditions, g)))
      else Stored(q.w, x.st)
  }

  /** Where the gate is open a pass is the pass of the crash theorems. */
  lemma OpenGateIsPass(t: Turn, x: Stored)
    requires C.ShouldReverify(x.st, t.p.generation) && !t.look.lostConflict
    ensures Pass(t, x).w == MigModel.Pass(t.p, t.env, t.s, x.w)
  {
    hide MigModel.Worked, RestoreSchedulable;
    WorkedAnswers(t.p, t.env, t.s, x.w.(mem := x.w.rec));
  }

  lemma WorkedAnswers(p: Policy, env: Inputs, s: Script, w: World)
    ensures MigModel.Worked(p, env, s, w).end != Going
  {
    hide EnsureModeEnabled, AlwaysReady, RestoreSchedulable, AfterModeSettled, TakeLock;
    if env.valid {
      TargetAnswers(p, env, s, w);
    }
  }

  lemma TargetAnswers(p: Policy, env: Inputs, s: Script, w: World)
    ensures RunTarget(p, env, s, w).end != Going
  {
    hide EnsureModeEnabled, AlwaysReady, CheckHardware, CreateInstances, Resume, Changed, RecMatches;
    forall v: World ensures CreateInstances(p, env, s, v).end != Going && Resume(env, s, v).end != Going {
      EndsAnswer(p, env, s, v);
    }
  }

  lemma EndsAnswer(p: Policy, env: Inputs, s: Script, w: World)
    ensures CreateInstances(p, env, s, w).end != Going && Resume(env, s, w).end != Going
  {
    hide PciSet, Pcis, Created, PartlyCreated, Cleared, Baseline;
  }

  /** A policy becomes Ready exactly when its partition is and the evidence for it has a grade, or the pass failed only in
      giving the node back; without a grade it is tried again. */
  lemma BecomesReadyIff(t: Turn, x: Stored)
    requires C.ShouldReverify(x.st, t.p.generation) && !t.look.lostConflict && At(t.s, StatusWrite) == Does
    requires var e := MigModel.Worked(t.p, t.env, t.s, x.w.(mem := x.w.rec)).end; e.Answer? && !Restores(e)
    ensures var e := MigModel.Worked(t.p, t.env, t.s, x.w.(mem := x.w.rec)).end;
            && (Pass(t, x).st.phase == C.Ready <==> e.phase == TsReady && (t.graded || e.err))
            && (Pass(t, x).st.phase != C.Ready ==> C.ShouldReverify(Pass(t, x).st, t.p.generation))
            && Pass(t, x).st.observed == t.p.generation
  {
    hide MigModel.Worked, RestoreSchedulable;
  }

  // ----- one pass -----

  /** Record, cordon, Job, GPUs, owner and every count are as they were; only the pass's own copy is new. */
  predicate Untouched(a: World, b: World) {
    b == a.(mem := b.mem)
  }

  lemma SettledPass(t: Turn, x: Stored)
    requires C.Settled(x.st, t.p.generation) && !t.look.lostConflict
    ensures Untouched(x.w, Pass(t, x).w) && C.Settled(Pass(t, x).st, t.p.generation)
  {
    hide C.SetCond, C.Evaluate;
    MonitorStays(x.st, t.p.generation, t.look);
  }

  lemma MonitorStays(st: C.Status, generation: int, l: C.Look)
    requires st.phase != C.Elsewhere
    ensures C.Monitor(st, generation, l).phase != C.Elsewhere
  {
    hide C.SetCond, C.Evaluate;
  }

  /** Nothing to do and nothing to give back on a node another policy holds. */
  predicate Excluded(p: Policy, w: World) {
    w.owner != p.uid && w.owner != "" && !w.job && !w.rec.cordoned
  }

  lemma ExcludedPass(t: Turn, x: Stored)
    requires Excluded(t.p, x.w)
    ensures Untouched(x.w, Pass(t, x).w)
  {
    hide MigModel.Worked, RestoreSchedulable, C.SetCond, C.Evaluate;
    var w := x.w.(mem := x.w.rec);
    NothingToGiveBack(t.s, 2, w);
    ExcludedTarget(t.p, t.env, t.s, w);
  }

  lemma NothingToGiveBack(s: Script, call: nat, w: World)
    requires !w.job && !w.mem.cordoned
    ensures RestoreSchedulable(s, call, w).w == w
  {
  }

  lemma ExcludedTarget(p: Policy, env: Inputs, s: Script, w: World)
    requires Excluded(p, w) && w.mem == w.rec
    ensures MigModel.Worked(p, env, s, w).w == w
  {
    hide AlwaysReady, EnsureModeEnabled, AfterModeSettled, RestoreSchedulable;
    NothingToGiveBack(s, 0, w);
  }

  /** Whatever a pass sees, and wherever it is cut off or disturbed, it leaves node, GPUs, Job, cordon, owner and record
      alone, if and only if the stored status has converged on the generation, or another policy holds the node and
      there is neither a Job nor a cordon to give back. */
  lemma PassLeavesAloneIff(p: Policy, x: Stored)
    ensures (forall t: Turn :: t.p == p && !t.look.lostConflict ==> Untouched(x.w, Pass(t, x).w))
       <==> C.Settled(x.st, p.generation) || Excluded(p, x.w)
  {
    hide Pass, Untouched, Excluded;
    if C.Settled(x.st, p.generation) || Excluded(p, x.w) {
      forall t: Turn | t.p == p && !t.look.lostConflict ensures Untouched(x.w, Pass(t, x).w) {
        if Excluded(p, x.w) { ExcludedPass(t, x); } else { SettledPass(t, x); }
      }
    } else {
      var t := Meddling(p, x);
      OpenGateIsPass(t, x);
      Meddles(p, x);
    }
  }

  /** More GPUs than the record lists, all with their MIG mode off. */
  function NewTargets(w: World): seq<MigDevice> {
    seq(|w.rec.pcis| + 1, i requires 0 <= i => MigDevice("x", Disabled, Disabled, ModeOff, false))
  }

  const CALM := C.Look(0, 0, true, false, false, false, false)

  /** A pass that is rejected where there is something to give back, and one that starts a mode switch elsewhere. */
  function Meddling(p: Policy, x: Stored): Turn {
    Turn(p, Inputs(NewTargets(x.w), true, LockFree(p, x.w), false, false, true, 0, 0, false, Converged, map[], {}, {}),
         UNDISTURBED, CALM, false, true, [])
  }

  lemma Meddles(p: Policy, x: Stored)
    requires !Excluded(p, x.w)
    ensures var t := Meddling(p, x); !Untouched(x.w, MigModel.Pass(p, t.env, t.s, x.w))
  {
    var t := Meddling(p, x);
    if LockFree(p, x.w) {
      SwitchOverwrites(p, t.env, x.w);
    } else {
      RejectionGivesBack(p, t.env, x.w);
    }
  }

  lemma RejectionGivesBack(p: Policy, env: Inputs, w: World)
    requires !env.valid && (w.job || w.rec.cordoned)
    ensures !Untouched(w, MigModel.Pass(p, env, UNDISTURBED, w))
  {
  }

  lemma SwitchOverwrites(p: Policy, env: Inputs, w: World)
    requires LockFree(p, w) && env.targets == NewTargets(w) && env.valid && env.driverReady && !env.drained
    ensures !Untouched(w, MigModel.Pass(p, env, UNDISTURBED, w))
  {
    hide RestoreSchedulable, AfterModeSettled, PciSet, RebootPath;
    assert env.targets[0].pci == "x" && env.targets[0].current == Disabled;
    assert NeedsModeEnable(env.targets) && !NeedsReboot(env.targets) && ModeObservable(env.targets) && AlwaysReady(env);
    var w1 := w.(mem := w.rec, owner := p.uid);
    var r := QuiescePath(p, env, UNDISTURBED, w1);
    assert r.end == Answer(TsWaitingForDrain, false) && r.w.mem.pcis == Pcis(env.targets);
    assert MigModel.Pass(p, env, UNDISTURBED, w) == r.w.(rec := r.w.mem);
    assert |r.w.mem.pcis| == |w.rec.pcis| + 1;
  }

  // ----- runs -----

  /** Outside: a boot, an expiring Job, an operator. */
  datatype Happening = Turned(t: Turn) | Outside(e: MigRuns.Event)

  function Next(x: Stored, h: Happening): Stored {
    match h
    case Turned(t) => Pass(t, x)
    case Outside(e) => x.(w := MigRuns.Next(x.w, e))
  }

  function Run(x: Stored, hs: seq<Happening>): Stored {
    if hs == [] then x else Next(Run(x, hs[..|hs| - 1]), hs[|hs| - 1])
  }

  /** What happened besides the passes. */
  function Others(hs: seq<Happening>): seq<MigRuns.Event> {
    if hs == [] then []
    else
      var k := |hs| - 1;
      Others(hs[..k]) + if hs[k].Outside? then [hs[k].e] else []
  }

  predicate Undisputed(generation: int, h: Happening) {
    match h
    case Turned(t) => t.p.generation == generation && !t.look.lostConflict
    case Outside(e) => !e.PassOf?
  }

  /** A converged policy is invisible: over any run in which its generation stays and it loses no conflict, the node is
      what it would have been without any of its passes, whatever they see and wherever they are cut off, and the status
      stays converged. */
  lemma {:induction false} ConvergedIsInvisible(x: Stored, generation: int, hs: seq<Happening>)
    requires C.Settled(x.st, generation)
    requires forall i :: 0 <= i < |hs| ==> Undisputed(generation, hs[i])
    ensures Untouched(MigRuns.Run(x.w, Others(hs)), Run(x, hs).w)
    ensures C.Settled(Run(x, hs).st, generation)
  {
    hide Pass, MigRuns.Next, C.Settled;
    if hs != [] {
      var k := |hs| - 1;
      ConvergedIsInvisible(x, generation, hs[..k]);
      assert Undisputed(generation, hs[k]);
      var y := Run(x, hs[..k]);
      match hs[k] {
        case Turned(t) =>
          assert Others(hs) == Others(hs[..k]);
          SettledPass(t, y);
        case Outside(e) =>
          assert Others(hs)[..|Others(hs)| - 1] == Others(hs[..k]);
          CopyIsPrivate(MigRuns.Run(x.w, Others(hs[..k])), y.w, e);
      }
    }
  }

  lemma CopyIsPrivate(a: World, b: World, e: MigRuns.Event)
    requires Untouched(a, b) && !e.PassOf?
    ensures Untouched(MigRuns.Next(a, e), MigRuns.Next(b, e))
  {
    hide MigRuns.Rebooted;
  }
}
