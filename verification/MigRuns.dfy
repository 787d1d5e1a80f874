/** The partition journal over whole runs: passes cut off or disturbed anywhere, reboots, operators, expiring Jobs. */
module MigRuns {
  import opened MigModel
  import opened MigJournal
  import opened MigCoverage

  // ----- a rollback closes its generation -----

  predicate ClosedAt(r: Record, generation: int) {
    r.phase == RolledBack && r.generation == generation
  }

  predicate ClosedTwice(w: World, generation: int) {
    ClosedAt(w.rec, generation) && ClosedAt(w.mem, generation)
  }

  lemma RestoreStaysClosed(s: Script, call: nat, w: World, generation: int)
    ensures ClosedTwice(w, generation) ==> ClosedTwice(RestoreSchedulable(s, call, w).w, generation)
    ensures RestoreSchedulable(s, call, w).w.applies == w.applies
  {
  }

  lemma AfterStaysClosed(p: Policy, env: Inputs, s: Script, w: World)
    requires ClosedTwice(w, p.generation)
    ensures AfterModeSettled(p, env, s, w).w == w
    ensures AfterModeSettled(p, env, s, w).end != Going
  {
    hide Resume, CheckHardware, CreateInstances, RecMatches, Changed;
  }

  lemma ModeStaysClosed(p: Policy, env: Inputs, s: Script, w: World)
    requires w.mem == w.rec && ClosedTwice(w, p.generation)
    ensures var r := EnsureModeEnabled(p, env, s, w);
            && r.w.applies == w.applies
            && (|| (NeedsReboot(env.targets) && w.rec.reboots >= MAX_REBOOTS)
                || !ModeObservable(env.targets)
                || (!NeedsModeEnable(env.targets) && !NeedsReboot(env.targets))
                || r.end == Going
                ==> ClosedTwice(r.w, p.generation))
  {
    hide NeedsModeEnable, NeedsReboot, ModeObservable, RebootPath, QuiescePath, RestoreSchedulable;
    NeverGoesOn(p, env, s, w);
    SwitchMakesNothing(p, env, s, w);
    RestoreStaysClosed(s, 0, w, p.generation);
    if w.mem.reboots >= MAX_REBOOTS {
      ExhaustedGivesUp(p, env, s, w);
    }
  }

  lemma TargetStaysClosed(p: Policy, env: Inputs, s: Script, w: World)
    requires env.valid && w.mem == w.rec && ClosedAt(w.rec, p.generation)
    ensures var r := RunTarget(p, env, s, w);
            && r.w.applies == w.applies
            && (!WouldQuiesce(p, env, w) ==> ClosedTwice(r.w, p.generation))
  {
    hide AlwaysReady, NeedsModeEnable, NeedsReboot, ModeObservable, EnsureModeEnabled, AfterModeSettled;
    var w1 := TakeLock(p, s, w).w;
    ModeStaysClosed(p, env, s, w1);
    var r2 := EnsureModeEnabled(p, env, s, w1);
    if r2.end == Going {
      AfterStaysClosed(p, env, s, r2.w);
    }
  }

  lemma ExhaustedGivesUp(p: Policy, env: Inputs, s: Script, w: World)
    requires w.mem.reboots >= MAX_REBOOTS
    ensures RebootPath(p, env, s, w) == GiveUp(s, w, false)
  {
  }

  lemma PassStaysClosed(p: Policy, env: Inputs, s: Script, w: World)
    requires ClosedAt(w.rec, p.generation)
    ensures Pass(p, env, s, w).applies == w.applies
    ensures !WouldQuiesce(p, env, w) ==> ClosedAt(Pass(p, env, s, w).rec, p.generation)
  {
    hide RunTarget, RestoreSchedulable, AlwaysReady, NeedsModeEnable, NeedsReboot, ModeObservable;
    var w0 := w.(mem := w.rec);
    RestoreStaysClosed(s, 0, w0, p.generation);
    if env.valid {
      TargetStaysClosed(p, env, s, w0);
      RestoreStaysClosed(s, 1, RunTarget(p, env, s, w0).w, p.generation);
    }
    RestoreStaysClosed(s, 2, Worked(p, env, s, w0).w, p.generation);
  }

  /** Once a rollback is on record for the generation, no pass of that generation begins an apply; and the record
      stays closed under every crash and failure if and only if the pass does not start a MIG mode switch. */
  lemma RollbackIsTerminal(p: Policy, env: Inputs, w: World)
    requires ClosedAt(w.rec, p.generation)
    ensures forall s: Script :: Pass(p, env, s, w).applies == w.applies
    ensures (forall s: Script :: ClosedAt(Pass(p, env, s, w).rec, p.generation)) <==> !WouldQuiesce(p, env, w)
  {
    hide Pass, WouldQuiesce;
    forall s: Script
      ensures Pass(p, env, s, w).applies == w.applies
      ensures !WouldQuiesce(p, env, w) ==> ClosedAt(Pass(p, env, s, w).rec, p.generation)
    {
      PassStaysClosed(p, env, s, w);
    }
    if WouldQuiesce(p, env, w) {
      QuiescingCut(p, env, w);
      assert !ClosedAt(Pass(p, env, CUT_AT_CORDON, w).rec, p.generation);
    }
  }

  /** A closed generation ends no pass as ready. */
  lemma ClosedIsNotReady(p: Policy, env: Inputs, s: Script, w: World)
    requires w.mem == w.rec && ClosedAt(w.rec, p.generation)
    ensures Worked(p, env, s, w).end.Answer? ==> Worked(p, env, s, w).end.phase != TsReady
  {
    hide AlwaysReady, EnsureModeEnabled, AfterModeSettled, RestoreSchedulable;
    var w1 := TakeLock(p, s, w).w;
    ModeIsNotReady(p, env, s, w1);
    RestoreIsNotReady(s, 0, w);
    ModeStaysClosed(p, env, s, w1);
    var r2 := EnsureModeEnabled(p, env, s, w1);
    if r2.end == Going { ClosedEnds(p, env, s, r2.w); }
  }

  lemma ClosedEnds(p: Policy, env: Inputs, s: Script, w: World)
    requires ClosedTwice(w, p.generation)
    ensures var e := AfterModeSettled(p, env, s, w).end; e.Answer? && e.phase != TsReady
  {
    hide Resume, CheckHardware, CreateInstances, RecMatches, Changed;
  }

  lemma RestoreIsNotReady(s: Script, call: nat, w: World)
    ensures var e := RestoreSchedulable(s, call, w).end; e.Answer? ==> e.phase == NoTarget
  {
  }

  lemma ModeIsNotReady(p: Policy, env: Inputs, s: Script, w: World)
    ensures var e := EnsureModeEnabled(p, env, s, w).end; e.Answer? ==> e.phase != TsReady
  {
    hide NeedsModeEnable, NeedsReboot, ModeObservable, RestoreSchedulable, PciSet, Pcis;
  }

  // ----- exactly when an apply can begin -----

  lemma TailMakesNothing(env: Inputs, s: Script, w: World)
    ensures VerifyTail(env, s, w).w.applies == w.applies
  {
    hide PciSet;
  }

  lemma AfterAppliesNothing(p: Policy, env: Inputs, s: Script, a: World, w: World)
    requires env.valid && AlwaysReady(env) && LockFree(p, a) && !NeedsModeEnable(env.targets) && !NeedsReboot(env.targets)
    requires SameButSettled(a, w) && !WouldCreate(p, env, a)
    ensures AfterModeSettled(p, env, s, w).w.applies == w.applies
  {
    hide NeedsModeEnable, NeedsReboot, AlwaysReady, Changed, RecMatches, VerifyTail, PciSet, Pcis, AllEmpty, AllEnabled, CordonForApply,
         Created, PartlyCreated, RollBack;
    TailMakesNothing(env, s, w);
    StepsMakeNothing(p, env, s, w);
  }

  lemma ModeAppliesNothing(p: Policy, env: Inputs, s: Script, w: World)
    requires w.mem == w.rec
    ensures var r := EnsureModeEnabled(p, env, s, w);
            && r.w.applies == w.applies
            && (r.end == Going ==> SameButSettled(w, r.w) && !NeedsModeEnable(env.targets) && !NeedsReboot(env.targets))
  {
    hide NeedsModeEnable, NeedsReboot, ModeObservable, RebootPath, QuiescePath;
    SwitchMakesNothing(p, env, s, w);
    NeverGoesOn(p, env, s, w);
  }

  lemma TargetAppliesNothing(p: Policy, env: Inputs, s: Script, w: World)
    requires env.valid && w.mem == w.rec && !WouldCreate(p, env, w)
    ensures RunTarget(p, env, s, w).w.applies == w.applies
  {
    hide AlwaysReady, NeedsModeEnable, NeedsReboot, EnsureModeEnabled, AfterModeSettled, WouldCreate, SameButSettled;
    var w1 := TakeLock(p, s, w).w;
    ModeAppliesNothing(p, env, s, w1);
    var r2 := EnsureModeEnabled(p, env, s, w1);
    if AlwaysReady(env) && TakeLock(p, s, w).end == Going && r2.end == Going {
      assert WouldCreate(p, env, w1) == WouldCreate(p, env, w) by { SameWouldCreate(p, env, w, w1); }
      AfterAppliesNothing(p, env, s, w1, r2.w);
    }
  }

  lemma SameWouldCreate(p: Policy, env: Inputs, a: World, b: World)
    requires b.rec == a.rec && LockFree(p, a) == LockFree(p, b)
    ensures WouldCreate(p, env, a) == WouldCreate(p, env, b)
  {
  }

  const CUT_IN_APPLY: Script := map[ApplyRun := Dies]

  lemma CreatesUpToCut(p: Policy, env: Inputs, w: World)
    requires env.valid && WouldCreate(p, env, w)
    ensures var r := RunTarget(p, env, CUT_IN_APPLY, w.(mem := w.rec)); r.end == Died && r.w.applies == w.applies + 1
  {
    hide AlwaysReady, PciSet, Pcis, NeedsModeEnable, NeedsReboot, Changed, AllEmpty, AllEnabled, RunTarget, CreateInstances, RecMatches,
         Resume, CordonForApply;
    ReachesDecision(p, env, CUT_IN_APPLY, w);
    var v := Settled(p, w);
    CordonUndisturbed(v, p.uid, env.targets);
    StepsMakeNothing(p, env, CUT_IN_APPLY, v);
    CutInApply(p, env, v);
    CutInApply(p, env, CheckHardware(p, env, CUT_IN_APPLY, v).w);
  }

  lemma CordonUndisturbed(w: World, uid: string, targets: seq<MigDevice>)
    ensures var r := CordonForApply(CUT_IN_APPLY, w, uid, targets); r.end == Going && r.w.cordon != Nobody
  {
    hide Pcis;
  }

  lemma CutInApply(p: Policy, env: Inputs, w: World)
    requires env.physical >= |env.targets|
    ensures var r := CreateInstances(p, env, CUT_IN_APPLY, w); r.end == Died && r.w.applies == w.applies + 1
  {
    hide PciSet, Pcis;
  }

  // ----- the policy's own cordon is on record -----

  /** A node the policy locked is one it knows it must unlock. */
  predicate Tracked(w: World) {
    w.cordon == ByPolicy ==> w.rec.cordoned
  }

  predicate TrackedTwice(w: World) {
    w.cordon == ByPolicy ==> w.rec.cordoned && w.mem.cordoned
  }

  /** The record is re-entered without recording, or entered while the policy's own cordon is still on. */
  predicate LosesTrack(w: World) {
    if EnablePhase(w.rec.phase) then w.cordon == Nobody && !w.rec.cordoned else w.cordon == ByPolicy
  }

  /** The cordon stays, and the records say nothing new about it. */
  predicate Calm(a: World, b: World) {
    && b.cordon == a.cordon
    && (b.mem.cordoned == a.mem.cordoned || b.mem.cordoned == a.rec.cordoned)
    && (b.rec.cordoned == a.rec.cordoned || b.rec.cordoned == a.mem.cordoned)
  }

  lemma RollBackCalm(env: Inputs, s: Script, w: World, err: bool)
    ensures Calm(w, RollBack(env, s, w, err).w)
  {
    hide PciSet;
  }

  lemma PhaseCalm(s: Script, site: Site, w: World, p: MigPhase)
    ensures Calm(w, SetPhase(s, site, w, p).w)
  {
  }

  lemma VerifyCalm(env: Inputs, s: Script, w: World)
    ensures Calm(w, VerifyTail(env, s, w).w)
  {
    hide RollBack, SetPhase, Calm;
    CalmCompose();
    PhaseCalm(s, RecVerifying, w, Verifying);
    var w1 := SetPhase(s, RecVerifying, w, Verifying).w;
    RollBackCalm(env, s, w1, env.verify == VerifyError);
    PhaseCalm(s, RecReady, w1, Ready);
  }

  lemma CalmCompose()
    ensures forall a, b, c :: Calm(a, b) && Calm(b, c) ==> Calm(a, c)
  {
  }

  lemma JournalCalm(p: Policy, env: Inputs, s: Script, w: World)
    ensures Calm(w, Patch(s, JournalApplying, w, Baseline(p, env, w.mem).(phase := Applying)).w)
    ensures Calm(w, w)
  {
    hide Pcis;
  }

  lemma ApplyCalm(w: World, which: set<string>, g: Geometry, left: map<string, Geometry>)
    ensures Calm(w, Created(w, which, g)) && Calm(w, PartlyCreated(w, which, left))
  {
  }

  lemma CreateCalm(p: Policy, env: Inputs, s: Script, w: World)
    ensures Calm(w, CreateInstances(p, env, s, w).w)
  {
    hide RollBack, VerifyTail, PciSet, Pcis, Calm, Created, PartlyCreated, Baseline, SetPhase;
    CalmCompose();
    JournalCalm(p, env, s, w);
    var w1 := Patch(s, JournalApplying, w, Baseline(p, env, w.mem).(phase := Applying)).w;
    ApplyCalm(w1, PciSet(env.targets), Uniform(p.profile, p.count), env.left);
    RollBackCalm(env, s, PartlyCreated(w1, PciSet(env.targets), env.left), true);
    var made := Created(w1, PciSet(env.targets), Uniform(p.profile, p.count));
    PhaseCalm(s, RecApplied, made, Applied);
    VerifyCalm(env, s, SetPhase(s, RecApplied, made, Applied).w);
  }

  lemma RestoreTracks(s: Script, call: nat, w: World)
    requires TrackedTwice(w)
    ensures TrackedTwice(RestoreSchedulable(s, call, w).w)
  {
  }

  lemma CordonTracks(s: Script, w: World, uid: string, targets: seq<MigDevice>)
    requires w.mem == w.rec && TrackedTwice(w) && !LosesTrack(w)
    ensures TrackedTwice(CordonForApply(s, w, uid, targets).w)
  {
    hide Pcis;
  }

  lemma RebootTracks(p: Policy, env: Inputs, s: Script, w: World)
    requires w.mem == w.rec && TrackedTwice(w) && (w.mem.reboots < MAX_REBOOTS ==> !LosesTrack(w))
    ensures TrackedTwice(RebootPath(p, env, s, w).w)
  {
    hide CordonForApply, RestoreSchedulable, LosesTrack, EnsureRebootJob;
    RestoreTracks(s, 0, w);
    if w.mem.reboots < MAX_REBOOTS {
      CordonTracks(s, w, p.uid, env.targets);
      var r1 := CordonForApply(s, w, p.uid, env.targets);
      var r2 := SetPhase(s, RecRebootRequested, r1.w, RebootRequested);
      var r3 := EnsureRebootJob(s, r2.w, env.imageSet);
      assert TrackedTwice(r3.w) by { JobTracks(s, r2.w, env.imageSet); }
      RestoreTracks(s, 0, r3.w);
    }
  }

  lemma JobTracks(s: Script, w: World, imageSet: bool)
    requires TrackedTwice(w)
    ensures TrackedTwice(EnsureRebootJob(s, w, imageSet).w)
  {
  }

  lemma QuiesceTracks(p: Policy, env: Inputs, s: Script, w: World)
    requires w.mem == w.rec && TrackedTwice(w) && !LosesTrack(w)
    ensures TrackedTwice(QuiescePath(p, env, s, w).w)
  {
    hide CordonForApply, RestoreSchedulable, LosesTrack, PciSet;
    CordonTracks(s, w, p.uid, env.targets);
    var r1 := CordonForApply(s, w, p.uid, env.targets);
    var w3 := SetPhase(s, RecModeEnabling, r1.w, ModeEnabling).w;
    RestoreTracks(s, 0, ModePending(w3, env.pendingNow * PciSet(env.targets)));
  }

  lemma AfterTracks(p: Policy, env: Inputs, s: Script, w: World)
    requires w.mem == w.rec && TrackedTwice(w) && !EnablePhase(w.rec.phase)
    ensures TrackedTwice(AfterModeSettled(p, env, s, w).w)
  {
    hide CordonForApply, AllEmpty, AllEnabled, Changed, RecMatches, CreateInstances, VerifyTail;
    VerifyCalm(env, s, w);
    CreateCalm(p, env, s, w);
    CreateCalm(p, env, s, CheckHardware(p, env, s, w).w);
    if w.cordon == Nobody {
      CordonTracks(s, w, p.uid, env.targets);
    }
  }

  lemma ModeTracks(p: Policy, env: Inputs, s: Script, w: World)
    requires w.mem == w.rec && TrackedTwice(w)
    requires (&& ModeObservable(env.targets)
              && (NeedsModeEnable(env.targets) || NeedsReboot(env.targets))
              && (NeedsReboot(env.targets) ==> w.rec.reboots < MAX_REBOOTS)) ==> !LosesTrack(w)
    ensures var r := EnsureModeEnabled(p, env, s, w);
            TrackedTwice(r.w) && (r.end == Going ==> r.w.mem == r.w.rec && !EnablePhase(r.w.rec.phase))
  {
    hide NeedsModeEnable, NeedsReboot, ModeObservable, RebootPath, QuiescePath, LosesTrack;
    NeverGoesOn(p, env, s, w);
    if NeedsReboot(env.targets) && ModeObservable(env.targets) {
      RebootTracks(p, env, s, w);
    } else if NeedsModeEnable(env.targets) && ModeObservable(env.targets) {
      QuiesceTracks(p, env, s, w);
    }
  }

  lemma TargetTracks(p: Policy, env: Inputs, s: Script, w: World)
    requires env.valid && w.mem == w.rec && TrackedTwice(w)
    requires !(WouldQuiesce(p, env, w) && LosesTrack(w))
    ensures TrackedTwice(RunTarget(p, env, s, w).w)
  {
    hide AlwaysReady, NeedsModeEnable, NeedsReboot, ModeObservable, EnsureModeEnabled, AfterModeSettled;
    var r1 := TakeLock(p, s, w);
    if AlwaysReady(env) && r1.end == Going {
      ModeTracks(p, env, s, r1.w);
      var r2 := EnsureModeEnabled(p, env, s, r1.w);
      if r2.end == Going {
        AfterTracks(p, env, s, r2.w);
      }
    }
  }

  lemma PassTracks(p: Policy, env: Inputs, s: Script, w: World)
    requires Tracked(w) && !(WouldQuiesce(p, env, w) && LosesTrack(w))
    ensures Tracked(Pass(p, env, s, w))
  {
    hide RunTarget, RestoreSchedulable, AlwaysReady, NeedsModeEnable, NeedsReboot, ModeObservable;
    var w0 := w.(mem := w.rec);
    assert WouldQuiesce(p, env, w0) == WouldQuiesce(p, env, w);
    RestoreTracks(s, 0, w0);
    if env.valid {
      TargetTracks(p, env, s, w0);
      RestoreTracks(s, 1, RunTarget(p, env, s, w0).w);
    }
    RestoreTracks(s, 2, Worked(p, env, s, w0).w);
  }

  /** From a tracked state the policy never forgets a cordon of its own, at any crash point, if and only if the pass
      does not re-enter a mode switch whose cordon was given back (a failed enable keeps its phase), nor enter one
      while still holding an earlier cordon. */
  lemma CordonTrackedIff(p: Policy, env: Inputs, w: World)
    requires Tracked(w)
    ensures (forall s: Script :: Tracked(Pass(p, env, s, w))) <==> !(WouldQuiesce(p, env, w) && LosesTrack(w))
  {
    hide Pass, WouldQuiesce, LosesTrack;
    if WouldQuiesce(p, env, w) && LosesTrack(w) {
      ForgetsCordon(p, env, w);
    } else {
      forall s: Script ensures Tracked(Pass(p, env, s, w)) {
        PassTracks(p, env, s, w);
      }
    }
  }

  const CUT_AFTER_CORDON: Script := map[RecRebootRequested := Dies, EvictPods := Dies]

  lemma ForgetsCordon(p: Policy, env: Inputs, w: World)
    requires WouldQuiesce(p, env, w) && LosesTrack(w)
    ensures !Tracked(Pass(p, env, CUT_AFTER_CORDON, w))
  {
    hide AlwaysReady, NeedsModeEnable, NeedsReboot, ModeObservable, EnsureRebootJob, AfterModeSettled, Pass, CordonForApply,
         RestoreSchedulable, ModePending, PciSet;
    CordonDone(w.(mem := w.rec, owner := p.uid), p.uid, env.targets);
    DiedPass(p, env, CUT_AFTER_CORDON, w);
  }

  lemma CordonDone(w: World, uid: string, targets: seq<MigDevice>)
    requires w.mem == w.rec && LosesTrack(w)
    ensures var r := CordonForApply(CUT_AFTER_CORDON, w, uid, targets);
            r.end == Going && r.w.cordon == ByPolicy && !r.w.rec.cordoned
  {
    hide Pcis;
  }

  // ----- the operator's cordon -----

  predicate Yields(w: World) {
    w.cordon == ByOperator && !w.rec.cordoned
  }

  /** An operator's cordon survives every pass, however disturbed, if and only if the record does not claim it. */
  lemma OperatorCordonStandsIff(w: World)
    requires w.cordon == ByOperator
    ensures (forall p: Policy, env: Inputs, s: Script :: Pass(p, env, s, w).cordon == ByOperator) <==> !w.rec.cordoned
  {
    hide Pass;
    if w.rec.cordoned {
      var env := Inputs([], true, false, true, false, true, 0, 0, false, Converged, map[], {}, {});
      RejectedPassUncordons(Policy("", 0, "", 0), env, w);
      assert Pass(Policy("", 0, "", 0), env, UNDISTURBED, w).cordon == Nobody;
    } else {
      forall p: Policy, env: Inputs, s: Script ensures Pass(p, env, s, w).cordon == ByOperator {
        PassKeeps(p, env, s, w);
      }
    }
  }

  lemma RejectedPassUncordons(p: Policy, env: Inputs, w: World)
    requires w.rec.cordoned && !env.valid
    ensures Pass(p, env, UNDISTURBED, w).cordon == Nobody && !Pass(p, env, UNDISTURBED, w).rec.cordoned
  {
  }

  // ----- runs -----

  datatype Event =
    | PassOf(p: Policy, env: Inputs, s: Script)
    | Booted
    | JobExpires
    | OperatorCordons
    | OperatorUncordons

  /** A boot makes pending modes current and takes GPU instances with it. */
  function Rebooted(g: Gpu): Gpu {
    var mode := if g.pending == Enabled || g.pending == Disabled then g.pending else g.current;
    Gpu(mode, g.pending, if mode == Enabled then NoInstances else ModeOff)
  }

  function Next(w: World, e: Event): World {
    match e
    case PassOf(p, env, s) => Pass(p, env, s, w)
    case Booted => w.(gpus := map x | x in w.gpus :: Rebooted(w.gpus[x]), made := {})
    case JobExpires => w.(job := false)
    case OperatorCordons => w.(cordon := if w.cordon == Nobody then ByOperator else w.cordon)
    case OperatorUncordons => w.(cordon := Nobody)
  }

  function Run(w: World, events: seq<Event>): World {
    if events == [] then w else Next(Run(w, events[..|events| - 1]), events[|events| - 1])
  }

  function Start(gpus: map<string, Gpu>, owner: string, cordon: Cordon): World {
    World(NO_RECORD, NO_RECORD, gpus, owner, if cordon == ByPolicy then Nobody else cordon, false, {}, 0, 0, 0)
  }

  /** Between two observations of a settled mode at most two enable-reboot Jobs are created, whatever crashes,
      re-entries, failures or expiring Jobs happen, and each one is on record before it exists. */
  lemma {:induction false} RebootsBounded(gpus: map<string, Gpu>, owner: string, cordon: Cordon, events: seq<Event>)
    ensures var w := Run(Start(gpus, owner, cordon), events); w.jobs <= w.rec.reboots <= MAX_REBOOTS
  {
    hide Pass;
    if events != [] {
      var k := |events| - 1;
      RebootsBounded(gpus, owner, cordon, events[..k]);
      if events[k].PassOf? {
        PassKeeps(events[k].p, events[k].env, events[k].s, Run(Start(gpus, owner, cordon), events[..k]));
      }
    }
  }

  /** While no operator uncordons the node, a scheduled reboot never finds it schedulable: the cordon comes before the Job,
      and the Job is cancelled before the cordon is lifted. */
  lemma {:induction false} RebootsOnlyCordoned(gpus: map<string, Gpu>, owner: string, cordon: Cordon, events: seq<Event>)
    requires OperatorUncordons !in events
    ensures var w := Run(Start(gpus, owner, cordon), events); w.job ==> w.cordon != Nobody
  {
    hide Pass;
    if events != [] {
      var k := |events| - 1;
      assert events[k] in events;
      RebootsOnlyCordoned(gpus, owner, cordon, events[..k]);
      if events[k].PassOf? {
        PassKeeps(events[k].p, events[k].env, events[k].s, Run(Start(gpus, owner, cordon), events[..k]));
      }
    }
  }

  /** While the operator does not lift it, a cordon the operator set on a node the policy had no claim on stays,
      through any number of passes of any policies. */
  lemma {:induction false} OperatorCordonStays(w: World, events: seq<Event>)
    requires Yields(w) && OperatorUncordons !in events
    ensures Yields(Run(w, events))
  {
    hide Pass;
    if events != [] {
      var k := |events| - 1;
      assert events[k] in events;
      OperatorCordonStays(w, events[..k]);
      if events[k].PassOf? {
        PassKeeps(events[k].p, events[k].env, events[k].s, Run(w, events[..k]));
      }
    }
  }

  /** A quiet event of one policy: its pass does not expose existing instances. */
  predicate Quiet(uid: string, w: World, e: Event) {
    e.PassOf? ==> e.p.uid == uid && !Exposes(e.p, e.env, w)
  }

  predicate QuietRun(uid: string, w: World, events: seq<Event>) {
    forall i :: 0 <= i < |events| ==> Quiet(uid, Run(w, events[..i]), events[i])
  }

  /** In every state of a run without an exposing pass, cut off anywhere, the stored record names the policy, lists
      every GPU carrying its instances and is in a phase the deletion path rolls back. */
  lemma {:induction false} InstancesAlwaysCovered(uid: string, gpus: map<string, Gpu>, owner: string, cordon: Cordon, events: seq<Event>)
    requires QuietRun(uid, Start(gpus, owner, cordon), events)
    ensures Covered(Run(Start(gpus, owner, cordon), events), uid)
  {
    hide Pass, Exposes;
    var w := Start(gpus, owner, cordon);
    if events != [] {
      var k := |events| - 1;
      forall i | 0 <= i < k ensures Quiet(uid, Run(w, events[..k][..i]), events[..k][i]) {
        assert events[..k][..i] == events[..i];
        assert Quiet(uid, Run(w, events[..i]), events[i]);
      }
      InstancesAlwaysCovered(uid, gpus, owner, cordon, events[..k]);
      assert Quiet(uid, Run(w, events[..k]), events[k]);
      if events[k].PassOf? {
        PassCovers(events[k].p, events[k].env, events[k].s, Run(w, events[..k]));
      }
    }
  }

  /** Each observed device reads as the GPU is. */
  predicate Truthful(env: Inputs, w: World) {
    forall i :: 0 <= i < |env.targets| ==>
      var d := env.targets[i];
      d.pci in w.gpus && d.geometry == w.gpus[d.pci].geometry
  }

  /** Enough to be quiet: what was made is still observed and reads as there, and no target needs its mode switched. */
  lemma SteadyTargetsAreQuiet(p: Policy, env: Inputs, w: World)
    requires Truthful(env, w) && (forall x :: x in w.made ==> x in w.gpus && w.gpus[x].geometry != NoInstances)
    requires w.made <= PciSet(env.targets) && !NeedsModeEnable(env.targets) && !NeedsReboot(env.targets)
    ensures !Exposes(p, env, w)
  {
    hide NeedsModeEnable, NeedsReboot, AlwaysReady, Changed;
    if w.made != {} {
      var x :| x in w.made;
      assert x in PciSet(env.targets);
      var i :| 0 <= i < |env.targets| && env.targets[i].pci == x;
      assert env.targets[i].geometry != NoInstances;
    }
  }

  /** Passes of one generation that start no mode switch. */
  predicate NoSwitch(generation: int, w: World, events: seq<Event>) {
    forall i :: 0 <= i < |events| && events[i].PassOf? ==>
      events[i].p.generation == generation && !WouldQuiesce(events[i].p, events[i].env, Run(w, events[..i]))
  }

  /** After a rollback was journaled for a generation no apply begins again while that generation lasts and the
      MIG mode is left alone. */
  lemma {:induction false} NoApplyAfterRollback(generation: int, w: World, events: seq<Event>)
    requires ClosedAt(w.rec, generation) && NoSwitch(generation, w, events)
    ensures Run(w, events).applies == w.applies && ClosedAt(Run(w, events).rec, generation)
  {
    hide Pass, WouldQuiesce;
    if events != [] {
      var k := |events| - 1;
      forall i | 0 <= i < k && events[..k][i].PassOf?
        ensures var e := events[..k][i]; e.p.generation == generation && !WouldQuiesce(e.p, e.env, Run(w, events[..k][..i]))
      {
        assert events[..k][..i] == events[..i];
        assert events[..k][i] == events[i];
      }
      NoApplyAfterRollback(generation, w, events[..k]);
      if events[k].PassOf? {
        PassStaysClosed(events[k].p, events[k].env, events[k].s, Run(w, events[..k]));
      }
    }
  }

  // ----- a real exposure -----

  /** A mode enable that goes well leaves the phase of one, whatever the record said before. */
  lemma SwitchJournalsEnabling(p: Policy, env: Inputs, w: World)
    requires WouldQuiesce(p, env, w) && !NeedsReboot(env.targets) && env.drained
    ensures Pass(p, env, UNDISTURBED, w).rec.phase == ModeEnabling && Pass(p, env, UNDISTURBED, w).made == w.made
  {
    hide AlwaysReady, NeedsModeEnable, NeedsReboot, ModeObservable, AfterModeSettled, RestoreSchedulable, PciSet, Pcis, Pass, RunTarget;
    var w1 := w.(mem := w.rec, owner := p.uid);
    assert EnsureModeEnabled(p, env, UNDISTURBED, w1) == QuiescePath(p, env, UNDISTURBED, w1);
    var r := QuiescePath(p, env, UNDISTURBED, w1);
    assert r.end == Answer(TsApplying, false) && r.w.rec.phase == ModeEnabling && r.w.mem == r.w.rec && r.w.made == w.made;
    EndsAsTarget(p, env, w, r);
  }

  lemma EndsAsTarget(p: Policy, env: Inputs, w: World, r: R)
    requires env.valid && AlwaysReady(env) && LockFree(p, w)
    requires r == EnsureModeEnabled(p, env, UNDISTURBED, w.(mem := w.rec, owner := p.uid))
    requires r.end == Answer(TsApplying, false)
    ensures Pass(p, env, UNDISTURBED, w) == r.w.(rec := r.w.mem)
  {
    hide AlwaysReady, EnsureModeEnabled, AfterModeSettled, RestoreSchedulable;
  }

  function Device(pci: string, g: Gpu): MigDevice {
    MigDevice(pci, g.current, g.pending, g.geometry, false)
  }

  /** A ready policy with instances on one GPU sees a second GPU whose mode is off: the record stops asking for a
      rollback although the instances are there and nobody touched them. */
  lemma NewTargetHidesInstances()
    ensures exists p: Policy, env: Inputs, w: World ::
              && w.made != {} && Covered(w, p.uid) && Truthful(env, w) && w.made <= PciSet(env.targets)
              && w.rec.phase == Ready
              && Pass(p, env, UNDISTURBED, w).made == w.made
              && !Covered(Pass(p, env, UNDISTURBED, w), p.uid)
  {
    hide Pass;
    var p := Policy("u", 1, "1g", 2);
    var on, off := Gpu(Enabled, Enabled, Uniform("1g", 2)), Gpu(Disabled, Disabled, ModeOff);
    var r := Record("u", ["a"], Ready, 1, false, 0, 0, "1g", 2, 2, 2, 1);
    var w := World(r, r, map["a" := on, "b" := off], "u", Nobody, false, {"a"}, 0, 0, 1);
    var targets := [Device("a", on), Device("b", off)];
    var env := Inputs(targets, true, true, true, false, true, 2, 2, false, Converged, map[], {}, {});
    assert targets[0].pci == "a" && targets[1].pci == "b";
    assert WouldQuiesce(p, env, w) && !NeedsReboot(targets);
    SwitchJournalsEnabling(p, env, w);
  }

  // ----- a real second apply -----

  /** An undisturbed mode switch that was drained, from a record that claims no cordon. */
  lemma SwitchLeaves(p: Policy, env: Inputs, w: World)
    requires WouldQuiesce(p, env, w) && !NeedsReboot(env.targets) && env.drained && w.cordon == Nobody
    ensures var w' := Pass(p, env, UNDISTURBED, w);
            && w'.rec.phase == ModeEnabling && w'.rec.reboots == w.rec.reboots && w'.cordon == ByPolicy && w'.owner == p.uid
            && w'.gpus == ModePending(w, PciSet(env.targets)).gpus && w'.applies == w.applies
  {
    hide AlwaysReady, NeedsModeEnable, NeedsReboot, ModeObservable, AfterModeSettled, RestoreSchedulable, PciSet, Pcis, Pass, RunTarget;
    var w1 := w.(mem := w.rec, owner := p.uid);
    assert EnsureModeEnabled(p, env, UNDISTURBED, w1) == QuiescePath(p, env, UNDISTURBED, w1);
    EndsAsTarget(p, env, w, QuiescePath(p, env, UNDISTURBED, w1));
  }

  /** After a switch the apply is open again, whatever the record said before it. */
  lemma SwitchedApplies(p: Policy, env: Inputs, w: World)
    requires w.rec.phase == ModeEnabling && w.owner == p.uid && w.cordon == ByPolicy
    requires env.valid && AlwaysReady(env) && !NeedsModeEnable(env.targets) && !NeedsReboot(env.targets)
    requires AllEnabled(env.targets) && AllEmpty(env.targets) && Changed(p, env) && !env.gpuBusy && env.physical >= |env.targets|
    requires env.verify == Converged
    ensures Pass(p, env, UNDISTURBED, w).applies == w.applies + 1
  {
    hide AlwaysReady, NeedsModeEnable, NeedsReboot, AllEnabled, AllEmpty, Changed, PciSet, Pcis, Created, PartlyCreated, RestoreSchedulable;
    var w0 := w.(mem := w.rec);
    var r := EnsureModeEnabled(p, env, UNDISTURBED, w0);
    assert r.end == Going && r.w.mem.phase == NoPhase && r.w.cordon == ByPolicy && r.w.applies == w.applies;
    assert CheckHardware(p, env, UNDISTURBED, r.w) == R(r.w, Going);
    var t := RunTarget(p, env, UNDISTURBED, w0);
    assert t == CreateInstances(p, env, UNDISTURBED, r.w);
    assert t.w.applies == w.applies + 1 && t.end == Answer(TsReady, false) by { CreatesOnce(p, env, r.w); }
    RestoreMakesNothing(UNDISTURBED, 1, t.w);
    RestoreMakesNothing(UNDISTURBED, 2, Worked(p, env, UNDISTURBED, w0).w);
  }

  lemma CreatesOnce(p: Policy, env: Inputs, w: World)
    requires env.physical >= |env.targets| && env.verify == Converged
    ensures var r := CreateInstances(p, env, UNDISTURBED, w); r.w.applies == w.applies + 1 && r.end == Answer(TsReady, false)
  {
    hide PciSet, Pcis;
  }

  const AGAIN := Policy("u", 1, "1g", 2)
  const CLOSED := Record("u", ["a"], RolledBack, 1, false, 0, 0, "1g", 2, 2, 2, 0)
  const SWITCHED_OFF := World(CLOSED, CLOSED, map["a" := Gpu(Disabled, Disabled, ModeOff)], "u", Nobody, false, {}, 0, 0, 1)

  function Seeing(mode: Mode, geometry: Geometry): Inputs {
    Inputs([MigDevice("a", mode, mode, geometry, false)], true, true, true, false, true, 1, 2, false, Converged, map[], {}, {})
  }

  lemma FirstTurn()
    ensures var w := Pass(AGAIN, Seeing(Disabled, ModeOff), UNDISTURBED, SWITCHED_OFF);
            && w.rec.phase == ModeEnabling && w.cordon == ByPolicy && w.owner == "u" && w.applies == 1
            && w.gpus == map["a" := Gpu(Disabled, Enabled, ModeOff)]
  {
    hide Pass;
    var off := Seeing(Disabled, ModeOff);
    assert off.targets[0].pci == "a";
    assert WouldQuiesce(AGAIN, off, SWITCHED_OFF) && !NeedsReboot(off.targets);
    SwitchLeaves(AGAIN, off, SWITCHED_OFF);
  }

  lemma SecondTurn(w: World)
    requires w.rec.phase == ModeEnabling && w.cordon == ByPolicy && w.owner == "u" && w.applies == 1
    ensures Pass(AGAIN, Seeing(Enabled, NoInstances), UNDISTURBED, w).applies == 2
  {
    hide Pass;
    var on := Seeing(Enabled, NoInstances);
    assert on.targets[0].geometry == NoInstances;
    SwitchedApplies(AGAIN, on, w);
  }

  lemma RunOfThree(w: World, a: Event, b: Event, c: Event)
    ensures Run(w, [a, b, c]) == Next(Next(Next(w, a), b), c) && Run(w, [a, b, c][..2]) == Next(Next(w, a), b)
  {
    hide Next;
    var run := [a, b, c];
    assert run[..2] == [a, b] && [a, b][..1] == [a] && [a][..0] == [];
    assert Run(w, [a]) == Next(w, a);
    assert Run(w, [a, b]) == Next(Next(w, a), b);
  }

  /** A generation that was rolled back is applied again once a GPU is seen with its mode off: the switch overwrites the
      record of the rollback, and after the boot the same generation makes its instances anew. */
  lemma SwitchAppliesAgain()
    ensures exists p: Policy, off: Inputs, on: Inputs, w: World ::
              var run := [PassOf(p, off, UNDISTURBED), Booted, PassOf(p, on, UNDISTURBED)];
              && ClosedAt(w.rec, p.generation) && Truthful(off, w) && Truthful(on, Run(w, run[..2]))
              && Run(w, run).applies == w.applies + 1
  {
    hide Pass, Run;
    var off, on := Seeing(Disabled, ModeOff), Seeing(Enabled, NoInstances);
    var run := [PassOf(AGAIN, off, UNDISTURBED), Booted, PassOf(AGAIN, on, UNDISTURBED)];
    FirstTurn();
    var w1 := Pass(AGAIN, off, UNDISTURBED, SWITCHED_OFF);
    var w2 := Next(w1, Booted);
    assert w2.gpus == map["a" := Gpu(Enabled, Enabled, NoInstances)];
    SecondTurn(w2);
    RunOfThree(SWITCHED_OFF, run[0], Booted, run[2]);
    assert Truthful(on, w2);
    assert ClosedAt(SWITCHED_OFF.rec, AGAIN.generation) && Truthful(off, SWITCHED_OFF);
  }
}
