/** What a pass of a partition policy leaves behind, in terms of what it saw: when a partition is ready, when it is taken
    back, and what the record of an apply says. */
module MigOutcomes {
  import opened MigModel
  import opened MigCoverage
  import opened MigRuns
  import D = MigDeletion

  // ----- ready means verified, at every crash point -----

  /** Ready is a phase that only a converged verification gives. */
  predicate ReadyIsOld(a: World, b: World) {
    && (b.rec.phase == Ready ==> a.rec.phase == Ready || a.mem.phase == Ready)
    && (b.mem.phase == Ready ==> a.rec.phase == Ready || a.mem.phase == Ready)
  }

  lemma ReadyIsOldCompose()
    ensures forall a :: ReadyIsOld(a, a)
    ensures forall a, b, c :: ReadyIsOld(a, b) && ReadyIsOld(b, c) ==> ReadyIsOld(a, c)
  {
  }

  predicate NotReady(r: R) {
    r.end.Answer? ==> r.end.phase != TsReady
  }

  lemma RollBackNotReady(env: Inputs, s: Script, w: World, err: bool)
    ensures var r := RollBack(env, s, w, err); ReadyIsOld(w, r.w) && NotReady(r)
  {
    hide PciSet;
  }

  lemma TailNotReady(env: Inputs, s: Script, w: World)
    requires env.verify != Converged
    ensures var r := VerifyTail(env, s, w); ReadyIsOld(w, r.w) && NotReady(r)
  {
    hide RollBack;
    RollBackNotReady(env, s, Logged(SetPhase(s, RecVerifying, w, Verifying)).w, env.verify == VerifyError);
  }

  lemma CreateNotReady(p: Policy, env: Inputs, s: Script, w: World)
    requires env.verify != Converged
    ensures var r := CreateInstances(p, env, s, w); ReadyIsOld(w, r.w) && NotReady(r)
  {
    hide RollBack, VerifyTail, PciSet, Pcis, ReadyIsOld, Created, PartlyCreated, Patch, SetPhase;
    ReadyIsOldCompose();
    var w1 := Patch(s, JournalApplying, w, Baseline(p, env, w.mem).(phase := Applying)).w;
    assert ReadyIsOld(w, w1) && NotReady(Patch(s, JournalApplying, w, Baseline(p, env, w.mem).(phase := Applying))) by { PatchNotReady(s, JournalApplying, w, Baseline(p, env, w.mem).(phase := Applying)); }
    var some := PartlyCreated(w1, PciSet(env.targets), env.left);
    assert ReadyIsOld(w1, some) by { GpusSayNothing(w1, PciSet(env.targets), Uniform(p.profile, p.count), env.left); }
    RollBackNotReady(env, s, some, true);
    var all := Created(w1, PciSet(env.targets), Uniform(p.profile, p.count));
    assert ReadyIsOld(w1, all) by { GpusSayNothing(w1, PciSet(env.targets), Uniform(p.profile, p.count), env.left); }
    var w3 := SetPhase(s, RecApplied, all, Applied).w;
    assert ReadyIsOld(all, w3) by { PhaseNotReady(s, RecApplied, all, Applied); }
    TailNotReady(env, s, w3);
  }

  lemma PatchNotReady(s: Script, site: Site, w: World, r: Record)
    requires r.phase != Ready
    ensures ReadyIsOld(w, Patch(s, site, w, r).w) && NotReady(Patch(s, site, w, r))
  {
  }

  lemma PhaseNotReady(s: Script, site: Site, w: World, p: MigPhase)
    requires p != Ready
    ensures ReadyIsOld(w, SetPhase(s, site, w, p).w)
  {
  }

  lemma GpusSayNothing(w: World, which: set<string>, g: Geometry, left: map<string, Geometry>)
    ensures ReadyIsOld(w, Created(w, which, g)) && ReadyIsOld(w, PartlyCreated(w, which, left))
  {
  }

  lemma RestoreSaysNothing(s: Script, call: nat, w: World)
    ensures ReadyIsOld(w, RestoreSchedulable(s, call, w).w) && NotReady(RestoreSchedulable(s, call, w))
  {
  }

  lemma CordonSaysNothing(s: Script, w: World, uid: string, targets: seq<MigDevice>)
    ensures var r := CordonForApply(s, w, uid, targets); ReadyIsOld(w, r.w) && NotReady(r)
  {
    hide Pcis;
  }

  lemma RebootSaysNothing(p: Policy, env: Inputs, s: Script, w: World)
    ensures var r := RebootPath(p, env, s, w); ReadyIsOld(w, r.w) && NotReady(r)
  {
    hide CordonForApply, RestoreSchedulable, EnsureRebootJob, ReadyIsOld, SetPhase;
    ReadyIsOldCompose();
    RestoreSaysNothing(s, 0, w);
    CordonSaysNothing(s, w, p.uid, env.targets);
    var w1 := CordonForApply(s, w, p.uid, env.targets).w;
    PhaseNotReady(s, RecRebootRequested, w1, RebootRequested);
    PhaseEnds(s, RecRebootRequested, w1, RebootRequested);
    var w2 := SetPhase(s, RecRebootRequested, w1, RebootRequested).w;
    JobSaysNothing(s, w2, env.imageSet);
    var w3 := EnsureRebootJob(s, w2, env.imageSet).w;
    RestoreSaysNothing(s, 0, w3);
    PhaseNotReady(s, RecRebootWaiting, w3, RebootWaiting);
    PhaseEnds(s, RecRebootWaiting, w3, RebootWaiting);
  }

  lemma PhaseEnds(s: Script, site: Site, w: World, p: MigPhase)
    ensures NotReady(SetPhase(s, site, w, p))
  {
  }

  lemma JobSaysNothing(s: Script, w: World, imageSet: bool)
    ensures ReadyIsOld(w, EnsureRebootJob(s, w, imageSet).w)
  {
  }

  lemma QuiesceSaysNothing(p: Policy, env: Inputs, s: Script, w: World)
    ensures var r := QuiescePath(p, env, s, w); ReadyIsOld(w, r.w) && NotReady(r)
  {
    hide CordonForApply, RestoreSchedulable, ReadyIsOld, SetPhase, ModePending, PciSet;
    ReadyIsOldCompose();
    CordonSaysNothing(s, w, p.uid, env.targets);
    var w1 := CordonForApply(s, w, p.uid, env.targets).w;
    PhaseNotReady(s, RecModeEnabling, w1, ModeEnabling);
    PhaseEnds(s, RecModeEnabling, w1, ModeEnabling);
    var w3 := SetPhase(s, RecModeEnabling, w1, ModeEnabling).w;
    PendingSaysNothing(w3, PciSet(env.targets));
    PendingSaysNothing(w3, env.pendingNow * PciSet(env.targets));
    RestoreSaysNothing(s, 0, ModePending(w3, env.pendingNow * PciSet(env.targets)));
  }

  lemma PendingSaysNothing(w: World, which: set<string>)
    ensures ReadyIsOld(w, ModePending(w, which))
  {
  }

  lemma ModeSaysNothing(p: Policy, env: Inputs, s: Script, w: World)
    ensures var r := EnsureModeEnabled(p, env, s, w); ReadyIsOld(w, r.w) && NotReady(r)
  {
    hide NeedsModeEnable, NeedsReboot, ModeObservable, RebootPath, QuiescePath;
    RebootSaysNothing(p, env, s, w);
    QuiesceSaysNothing(p, env, s, w);
  }

  lemma AfterNotReady(p: Policy, env: Inputs, s: Script, w: World)
    requires env.verify != Converged
    ensures var r := AfterModeSettled(p, env, s, w); ReadyIsOld(w, r.w) && NotReady(r)
  {
    hide CordonForApply, AllEmpty, AllEnabled, Changed, RecMatches, CreateInstances, VerifyTail, ReadyIsOld;
    ReadyIsOldCompose();
    TailNotReady(env, s, w);
    CordonSaysNothing(s, w, p.uid, env.targets);
    CreateNotReady(p, env, s, w);
    CreateNotReady(p, env, s, CheckHardware(p, env, s, w).w);
  }

  lemma WorkedNotReady(p: Policy, env: Inputs, s: Script, w: World)
    requires env.verify != Converged
    ensures var r := Worked(p, env, s, w); ReadyIsOld(w, r.w) && NotReady(r)
  {
    hide EnsureModeEnabled, AfterModeSettled, RestoreSchedulable, AlwaysReady, ReadyIsOld;
    ReadyIsOldCompose();
    var w1 := TakeLock(p, s, w).w;
    assert ReadyIsOld(w, w1) by { LockSaysNothing(p, s, w); }
    ModeSaysNothing(p, env, s, w1);
    AfterNotReady(p, env, s, EnsureModeEnabled(p, env, s, w1).w);
    RestoreSaysNothing(s, 0, w);
  }

  lemma LockSaysNothing(p: Policy, s: Script, w: World)
    ensures ReadyIsOld(w, TakeLock(p, s, w).w)
  {
  }

  /** Wherever a pass is cut off or disturbed, it reports a ready partition, or puts one on record that was not there, only
      if the verification of that very pass converged. */
  lemma ReadyIsVerified(p: Policy, env: Inputs, s: Script, w: World)
    ensures var e := Worked(p, env, s, w.(mem := w.rec)).end; e.Answer? && e.phase == TsReady ==> env.verify == Converged
    ensures Pass(p, env, s, w).rec.phase == Ready && w.rec.phase != Ready ==> env.verify == Converged
  {
    hide Worked, RestoreSchedulable;
    if env.verify != Converged {
      var w0 := w.(mem := w.rec);
      WorkedNotReady(p, env, s, w0);
      RestoreSaysNothing(s, 2, Worked(p, env, s, w0).w);
    }
  }

  // ----- an undisturbed apply -----

  /** The mode is settled, and the pass finds an apply of its own under way whose instances are there. */
  predicate WouldResume(p: Policy, env: Inputs, w: World) {
    && env.valid && AlwaysReady(env) && LockFree(p, w)
    && !NeedsModeEnable(env.targets) && !NeedsReboot(env.targets)
    && !Changed(p, env) && InFlight(w.rec.phase) && w.rec.owner == p.uid
  }

  /** Targets that a rollback clears. */
  function Clearable(env: Inputs): set<string> {
    PciSet(env.targets) - env.stuck
  }

  /** The record says rolled back, the instances that could be removed are gone, and everything else on the node is as w. */
  ghost predicate TakenBack(env: Inputs, made: set<string>, gpus: map<string, Gpu>, w: World) {
    && w.rec.phase == RolledBack
    && w.made == made - Clearable(env)
    && w.gpus.Keys == gpus.Keys
    && (forall x :: x in gpus ==> w.gpus[x] == if x in Clearable(env) then gpus[x].(geometry := NoInstances) else gpus[x])
  }

  lemma RollBackUndisturbed(env: Inputs, w: World, err: bool)
    requires w.mem == w.rec
    ensures var r := RollBack(env, UNDISTURBED, w, err);
            && r.end == Answer(TsRollingBack, err) && r.w.mem == r.w.rec && r.w.rec == w.rec.(phase := RolledBack)
            && TakenBack(env, w.made, w.gpus, r.w) && r.w == w.(rec := r.w.rec, mem := r.w.mem, gpus := r.w.gpus, made := r.w.made)
  {
    hide PciSet;
  }

  lemma TailUndisturbed(env: Inputs, w: World)
    requires w.mem == w.rec
    ensures var r := VerifyTail(env, UNDISTURBED, w);
            && r.w.mem == r.w.rec
            && r.w.rec == w.rec.(phase := if env.verify == Converged then Ready else RolledBack)
            && r.w == w.(rec := r.w.rec, mem := r.w.mem, gpus := r.w.gpus, made := r.w.made)
            && (if env.verify == Converged then r.end == Answer(TsReady, false) && r.w.gpus == w.gpus && r.w.made == w.made
                else r.end == Answer(TsRollingBack, env.verify == VerifyError) && TakenBack(env, w.made, w.gpus, r.w))
  {
    hide RollBack;
    var w1 := Logged(SetPhase(UNDISTURBED, RecVerifying, w, Verifying)).w;
    RollBackUndisturbed(env, w1, env.verify == VerifyError);
  }

  /** The GPUs of the targets with the layout that was asked for. */
  ghost predicate LaidOut(p: Policy, env: Inputs, before: map<string, Gpu>, after: map<string, Gpu>) {
    && after.Keys == before.Keys
    && (forall x :: x in before ==>
          after[x] == if x in PciSet(env.targets) then before[x].(geometry := Uniform(p.profile, p.count)) else before[x])
  }

  /** What an apply puts on record: whose it is, what it makes where, and what the node should advertise afterwards. */
  predicate RecordsApply(p: Policy, env: Inputs, r: Record) {
    && r.owner == p.uid && r.pcis == Pcis(env.targets) && r.generation == p.generation
    && r.profile == p.profile && r.count == p.count && r.baseline == env.allocatable
    && r.expectedMig == p.count * |env.targets| && r.expectedFull == env.physical - |env.targets|
  }

  lemma CreateUndisturbed(p: Policy, env: Inputs, w: World)
    requires w.mem == w.rec && env.physical >= |env.targets|
    ensures var r := CreateInstances(p, env, UNDISTURBED, w);
            && r.w.mem == r.w.rec && RecordsApply(p, env, r.w.rec) && r.w.rec.cordoned == w.rec.cordoned
            && r.w.rec.phase == (if env.verify == Converged then Ready else RolledBack)
            && r.w.cordon == w.cordon && r.w.job == w.job && r.w.applies == w.applies + 1
            && (if env.verify == Converged then
                  r.end == Answer(TsReady, false) && LaidOut(p, env, w.gpus, r.w.gpus) && r.w.made == w.made + PciSet(env.targets)
                else
                  && r.end == Answer(TsRollingBack, env.verify == VerifyError)
                  && exists laid :: LaidOut(p, env, w.gpus, laid) && TakenBack(env, w.made + PciSet(env.targets), laid, r.w))
  {
    hide VerifyTail, PciSet, Pcis;
    var rec := Baseline(p, env, w.mem).(phase := Applying);
    var w1 := w.(mem := rec, rec := rec);
    assert Patch(UNDISTURBED, JournalApplying, w, rec) == R(w1, Going);
    var w2 := Created(w1, PciSet(env.targets), Uniform(p.profile, p.count));
    assert LaidOut(p, env, w.gpus, w2.gpus);
    var w3 := Logged(SetPhase(UNDISTURBED, RecApplied, w2, Applied)).w;
    TailUndisturbed(env, w3);
  }

  lemma RestoreUndisturbed(call: nat, w: World)
    requires w.mem == w.rec
    ensures var r := RestoreSchedulable(UNDISTURBED, call, w);
            && r.end == Going && r.w.mem == r.w.rec && r.w.rec == w.rec.(cordoned := false) && !r.w.job
            && r.w.cordon == (if w.rec.cordoned then Nobody else w.cordon)
            && r.w == w.(rec := r.w.rec, mem := r.w.mem, job := false, cordon := r.w.cordon)
  {
  }

  /** How an undisturbed pass ends once its partition is ready. */
  lemma ReadyPass(p: Policy, env: Inputs, w: World)
    requires env.valid
    requires var r := RunTarget(p, env, UNDISTURBED, w.(mem := w.rec)); r.end == Answer(TsReady, false) && r.w.mem == r.w.rec
    ensures var r := RunTarget(p, env, UNDISTURBED, w.(mem := w.rec)); var w' := Pass(p, env, UNDISTURBED, w);
            && w'.rec == r.w.rec.(cordoned := false) && w'.gpus == r.w.gpus && w'.made == r.w.made && !w'.job
            && w'.cordon == (if r.w.rec.cordoned then Nobody else r.w.cordon)
  {
    hide RunTarget, RestoreSchedulable;
    RestoreUndisturbed(1, RunTarget(p, env, UNDISTURBED, w.(mem := w.rec)).w);
  }

  /** How an undisturbed pass ends when its partition is not ready. */
  lemma UnreadyPass(p: Policy, env: Inputs, w: World)
    requires env.valid
    requires var r := RunTarget(p, env, UNDISTURBED, w.(mem := w.rec)); r.end.Answer? && r.end.phase != TsReady && r.w.mem == r.w.rec
    ensures var r := RunTarget(p, env, UNDISTURBED, w.(mem := w.rec)); var w' := Pass(p, env, UNDISTURBED, w);
            if Restores(r.end) then
              w' == r.w.(rec := r.w.rec.(cordoned := false), mem := r.w.rec.(cordoned := false), job := false,
                         cordon := if r.w.rec.cordoned then Nobody else r.w.cordon)
            else w' == r.w
  {
    hide RunTarget, RestoreSchedulable;
    RestoreUndisturbed(2, RunTarget(p, env, UNDISTURBED, w.(mem := w.rec)).w);
  }

  /** The node as an undisturbed pass leaves it after its partition was made ready. */
  ghost predicate Opened(w: World, w': World) {
    && !w'.job && !w'.rec.cordoned && (w.rec.cordoned ==> w'.cordon == Nobody)
  }

  lemma DecidesToCreate(p: Policy, env: Inputs, w: World)
    requires WouldCreate(p, env, w)
    ensures exists v: World ::
              && v.mem == v.rec && v.gpus == w.gpus && v.made == w.made && (w.rec.cordoned ==> v.rec.cordoned)
              && RunTarget(p, env, UNDISTURBED, w.(mem := w.rec)) == CreateInstances(p, env, UNDISTURBED, v)
  {
    hide AlwaysReady, PciSet, Pcis, NeedsModeEnable, NeedsReboot, Changed, AllEmpty, AllEnabled, RunTarget, CreateInstances, RecMatches,
         Resume, CordonForApply;
    ReachesDecision(p, env, UNDISTURBED, w);
    var v := Settled(p, w);
    CordonsForApply(v, p.uid, env.targets);
    var v1 := CheckHardware(p, env, UNDISTURBED, v).w;
    assert RunTarget(p, env, UNDISTURBED, w.(mem := w.rec)) == CreateInstances(p, env, UNDISTURBED, if InFlight(v.mem.phase) then v else v1);
  }

  lemma CordonsForApply(w: World, uid: string, targets: seq<MigDevice>)
    requires w.mem == w.rec
    ensures var r := CordonForApply(UNDISTURBED, w, uid, targets);
            && r.end == Going && r.w.cordon != Nobody && r.w.mem == r.w.rec && r.w.gpus == w.gpus && r.w.made == w.made
            && (w.cordon == Nobody && !EnablePhase(w.rec.phase) ==> r.w.rec.cordoned)
  {
    hide Pcis;
  }

  lemma DecidesToResume(p: Policy, env: Inputs, w: World)
    requires WouldResume(p, env, w)
    ensures var v := Settled(p, w);
            && v.rec.cordoned == w.rec.cordoned && v.rec.generation == w.rec.generation
            && RunTarget(p, env, UNDISTURBED, w.(mem := w.rec)) == VerifyTail(env, UNDISTURBED, v)
  {
    hide AlwaysReady, PciSet, Pcis, NeedsModeEnable, NeedsReboot, Changed, AllEmpty, AllEnabled, RunTarget, CreateInstances, RecMatches,
         VerifyTail;
    ReachesDecision(p, env, UNDISTURBED, w);
  }

  /** An undisturbed apply that does not converge is taken back: the record is closed for the generation, and every instance
      that can be removed is gone from the targets. */
  lemma UnconvergedApplyIsTakenBack(p: Policy, env: Inputs, w: World)
    requires WouldCreate(p, env, w) && env.verify != Converged
    ensures var w' := Pass(p, env, UNDISTURBED, w);
            && ClosedAt(w'.rec, p.generation)
            && w'.made == w.made + PciSet(env.targets) - Clearable(env)
            && (forall x :: x in w'.gpus && x in Clearable(env) ==> w'.gpus[x].geometry == NoInstances)
            && (if env.verify == VerifyError then w.rec.cordoned ==> w'.rec.cordoned else Opened(w, w'))
  {
    hide RunTarget, CreateInstances, WouldCreate, PciSet, Pass;
    var w0 := w.(mem := w.rec);
    assert env.valid && env.physical >= |env.targets| by { CreatingIsSound(p, env, w); }
    DecidesToCreate(p, env, w);
    var v: World :| v.mem == v.rec && v.gpus == w.gpus && v.made == w.made && (w.rec.cordoned ==> v.rec.cordoned)
                    && RunTarget(p, env, UNDISTURBED, w0) == CreateInstances(p, env, UNDISTURBED, v);
    CreateUndisturbed(p, env, v);
    UnreadyPass(p, env, w);
  }

  lemma CreatingIsSound(p: Policy, env: Inputs, w: World)
    requires WouldCreate(p, env, w)
    ensures env.valid && env.physical >= |env.targets|
  {
  }

  /** So is one that a pass finds half way and resumes. */
  lemma UnconvergedResumeIsTakenBack(p: Policy, env: Inputs, w: World)
    requires WouldResume(p, env, w) && env.verify != Converged
    ensures var w' := Pass(p, env, UNDISTURBED, w);
            && ClosedAt(w'.rec, w.rec.generation)
            && w'.made == w.made - Clearable(env)
            && (forall x :: x in w'.gpus && x in Clearable(env) ==> w'.gpus[x].geometry == NoInstances)
            && (if env.verify == VerifyError then w'.rec.cordoned == w.rec.cordoned && w'.cordon == w.cordon else Opened(w, w'))
  {
    hide RunTarget, VerifyTail, RestoreSchedulable, PciSet, AlwaysReady, Changed, NeedsModeEnable, NeedsReboot;
    var w0 := w.(mem := w.rec);
    DecidesToResume(p, env, w);
    TailUndisturbed(env, Settled(p, w));
    RestoreUndisturbed(2, RunTarget(p, env, UNDISTURBED, w0).w);
  }

  /** An undisturbed apply that converges is ready: every target has the layout that was asked for, nothing else changed on
      the GPUs, the record says what was made and what to expect, and the policy's own cordon is lifted. */
  lemma ConvergedApplyStands(p: Policy, env: Inputs, w: World)
    requires WouldCreate(p, env, w) && env.verify == Converged
    ensures var w' := Pass(p, env, UNDISTURBED, w);
            && w'.rec.phase == Ready && RecordsApply(p, env, w'.rec)
            && LaidOut(p, env, w.gpus, w'.gpus) && w'.made == w.made + PciSet(env.targets)
            && Opened(w, w')
  {
    hide RunTarget, CreateInstances, WouldCreate, PciSet, Pcis, LaidOut, Pass;
    var w0 := w.(mem := w.rec);
    assert env.valid && env.physical >= |env.targets| by { CreatingIsSound(p, env, w); }
    DecidesToCreate(p, env, w);
    var v: World :| v.mem == v.rec && v.gpus == w.gpus && v.made == w.made && (w.rec.cordoned ==> v.rec.cordoned)
                    && RunTarget(p, env, UNDISTURBED, w0) == CreateInstances(p, env, UNDISTURBED, v);
    CreateUndisturbed(p, env, v);
    ReadyPass(p, env, w);
  }

  lemma ConvergedResumeStands(p: Policy, env: Inputs, w: World)
    requires WouldResume(p, env, w) && env.verify == Converged
    ensures var w' := Pass(p, env, UNDISTURBED, w);
            && w'.rec.phase == Ready && w'.rec.generation == w.rec.generation && w'.gpus == w.gpus && w'.made == w.made && Opened(w, w')
  {
    hide RunTarget, VerifyTail, Pass, PciSet, AlwaysReady, Changed, NeedsModeEnable, NeedsReboot;
    DecidesToResume(p, env, w);
    TailUndisturbed(env, Settled(p, w));
    ReadyPass(p, env, w);
  }

  // ----- what an apply puts on record, at every crash point -----

  predicate OnRecord(p: Policy, env: Inputs, w: World) {
    RecordsApply(p, env, w.rec) && RecordsApply(p, env, w.mem)
  }

  lemma PhaseOnRecord(p: Policy, env: Inputs, s: Script, site: Site, w: World, phase: MigPhase)
    requires OnRecord(p, env, w)
    ensures OnRecord(p, env, SetPhase(s, site, w, phase).w)
  {
  }

  lemma RollBackOnRecord(p: Policy, env: Inputs, s: Script, w: World, err: bool)
    requires OnRecord(p, env, w)
    ensures OnRecord(p, env, RollBack(env, s, w, err).w)
  {
    hide PciSet, Pcis, SetPhase;
    PhaseOnRecord(p, env, s, RecRolledBack, Cleared(w, PciSet(env.targets) - env.stuck), RolledBack);
  }

  lemma TailOnRecord(p: Policy, env: Inputs, s: Script, w: World)
    requires OnRecord(p, env, w)
    ensures OnRecord(p, env, VerifyTail(env, s, w).w)
  {
    hide RollBack, SetPhase, Pcis;
    PhaseOnRecord(p, env, s, RecVerifying, w, Verifying);
    var w1 := SetPhase(s, RecVerifying, w, Verifying).w;
    RollBackOnRecord(p, env, s, w1, env.verify == VerifyError);
    PhaseOnRecord(p, env, s, RecReady, w1, Ready);
  }

  lemma CreateOnRecord(p: Policy, env: Inputs, s: Script, w: World)
    requires w.mem == w.rec
    ensures var w' := CreateInstances(p, env, s, w).w; w'.applies != w.applies ==> OnRecord(p, env, w')
  {
    hide RollBack, VerifyTail, PciSet, Pcis, SetPhase;
    var rec := Baseline(p, env, w.mem).(phase := Applying);
    var w1 := Patch(s, JournalApplying, w, rec).w;
    if env.physical >= |env.targets| && At(s, JournalApplying) == Does {
      assert OnRecord(p, env, w1);
      var some := PartlyCreated(w1, PciSet(env.targets), env.left);
      var all := Created(w1, PciSet(env.targets), Uniform(p.profile, p.count));
      RollBackOnRecord(p, env, s, some, true);
      PhaseOnRecord(p, env, s, RecApplied, all, Applied);
      TailOnRecord(p, env, s, SetPhase(s, RecApplied, all, Applied).w);
    }
  }

  lemma AfterOnRecord(p: Policy, env: Inputs, s: Script, w: World)
    requires w.mem == w.rec
    ensures var w' := AfterModeSettled(p, env, s, w).w; w'.applies != w.applies ==> OnRecord(p, env, w')
  {
    hide CordonForApply, AllEmpty, AllEnabled, Changed, RecMatches, CreateInstances, VerifyTail, OnRecord, CheckHardware;
    TailMakesNothing(env, s, w);
    CheckMakesNothing(p, env, s, w);
    CreateOnRecord(p, env, s, w);
    var r := CheckHardware(p, env, s, w);
    if r.end == Going {
      CheckJournals(p, env, s, w);
      CreateOnRecord(p, env, s, r.w);
    }
  }

  lemma CheckMakesNothing(p: Policy, env: Inputs, s: Script, w: World)
    ensures CheckHardware(p, env, s, w).w.applies == w.applies
  {
    hide CordonForApply, AllEmpty, AllEnabled;
    StepsMakeNothing(p, env, s, w);
  }

  lemma TargetOnRecord(p: Policy, env: Inputs, s: Script, w: World)
    requires w.mem == w.rec
    ensures var w' := RunTarget(p, env, s, w).w; w'.applies != w.applies ==> OnRecord(p, env, w')
  {
    hide AlwaysReady, EnsureModeEnabled, AfterModeSettled, OnRecord, SameButSettled, NeedsModeEnable, NeedsReboot;
    var w1 := TakeLock(p, s, w).w;
    ModeAppliesNothing(p, env, s, w1);
    var r2 := EnsureModeEnabled(p, env, s, w1);
    if r2.end == Going {
      SettledJournals(w1, r2.w);
      AfterOnRecord(p, env, s, r2.w);
    }
  }

  lemma SettledJournals(a: World, b: World)
    requires SameButSettled(a, b)
    ensures b.mem == b.rec
  {
  }

  lemma RestoreOnRecord(p: Policy, env: Inputs, s: Script, call: nat, w: World)
    ensures OnRecord(p, env, w) ==> OnRecord(p, env, RestoreSchedulable(s, call, w).w)
    ensures RestoreSchedulable(s, call, w).w.applies == w.applies
  {
    hide Pcis;
  }

  /** A pass that began an apply, cut off or disturbed anywhere, has it on record: whose it is, what it makes where, and what
      the node should advertise afterwards. */
  lemma ApplyIsOnRecord(p: Policy, env: Inputs, s: Script, w: World)
    requires Pass(p, env, s, w).applies != w.applies
    ensures RecordsApply(p, env, Pass(p, env, s, w).rec)
  {
    hide RunTarget, RestoreSchedulable, RecordsApply;
    var w0 := w.(mem := w.rec);
    RestoreOnRecord(p, env, s, 0, w0);
    TargetOnRecord(p, env, s, w0);
    RestoreOnRecord(p, env, s, 1, RunTarget(p, env, s, w0).w);
    RestoreOnRecord(p, env, s, 2, Worked(p, env, s, w0).w);
  }

  /** Taken together with the deletion: when a record that still says what its apply put there passes the proof of a deletion
      that keeps the mode, the node advertises exactly its GPUs that were no targets; when the mode goes back too, at least
      what it advertised before. */
  lemma DeletionAdvertises(p: Policy, env: Inputs, r: Record, c: D.Check, restoreMode: bool)
    requires RecordsApply(p, env, r) && D.Passes(r, c, restoreMode)
    ensures if restoreMode then c.allocatable >= env.allocatable else c.allocatable == env.physical - |env.targets|
    ensures forall d :: d in env.targets ==> exists o :: o in c.obs && o.pci == d.pci
  {
    D.PassingIsRestored(r, c, restoreMode);
    forall d | d in env.targets ensures exists o :: o in c.obs && o.pci == d.pci {
      var i :| 0 <= i < |env.targets| && env.targets[i] == d;
      assert r.pcis[i] == d.pci && d.pci in r.pcis;
    }
  }
}
