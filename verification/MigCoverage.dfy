/** Which passes can leave GPU instances the deletion path would not roll back, lose track of a cordon, or apply
    again after a rollback: for each, exactly when. */
module MigCoverage {
  import opened MigModel
  import opened MigJournal

  predicate LockFree(p: Policy, w: World) {
    w.owner == p.uid || w.owner == ""
  }

  /** The pass gets as far as journaling a quiesce for a MIG mode switch. */
  predicate WouldQuiesce(p: Policy, env: Inputs, w: World) {
    && env.valid && AlwaysReady(env) && LockFree(p, w)
    && (NeedsModeEnable(env.targets) || NeedsReboot(env.targets))
    && ModeObservable(env.targets)
    && (NeedsReboot(env.targets) ==> w.rec.reboots < MAX_REBOOTS)
  }

  function SettledPhase(r: Record): MigPhase {
    if EnablePhase(r.phase) then NoPhase else r.phase
  }

  /** The mode is settled and the pass is about to change partitions. */
  predicate WouldChange(p: Policy, env: Inputs, w: World) {
    var phase := SettledPhase(w.rec);
    && env.valid && AlwaysReady(env) && LockFree(p, w)
    && !NeedsModeEnable(env.targets) && !NeedsReboot(env.targets)
    && (Changed(p, env) || phase == RolledBack)
    && !(phase == RolledBack && w.rec.generation == p.generation)
  }

  predicate HardwareFree(env: Inputs) {
    AllEnabled(env.targets) && AllEmpty(env.targets)
  }

  predicate WouldCordon(p: Policy, env: Inputs, w: World) {
    WouldChange(p, env, w) && !InFlight(w.rec.phase) && w.cordon == Nobody && HardwareFree(env)
  }

  predicate WouldCreate(p: Policy, env: Inputs, w: World) {
    && WouldChange(p, env, w) && env.physical >= |env.targets|
    && (InFlight(w.rec.phase) || (HardwareFree(env) && !env.gpuBusy))
  }

  // ----- coverage: deletion finds every instance the policy made -----

  predicate CoveredBy(r: Record, made: set<string>, uid: string) {
    made != {} ==> r.owner == uid && (forall x :: x in made ==> x in r.pcis) && HardwareChanged(r.phase)
  }

  predicate Covered(w: World, uid: string) {
    CoveredBy(w.rec, w.made, uid)
  }

  predicate CoveredTwice(w: World, uid: string) {
    CoveredBy(w.rec, w.made, uid) && CoveredBy(w.mem, w.made, uid)
  }

  /** The guard of the two branches that overwrite a record while instances it must account for exist. */
  predicate Exposes(p: Policy, env: Inputs, w: World) {
    && w.made != {}
    && (WouldQuiesce(p, env, w) || WouldCordon(p, env, w)
        || (WouldCreate(p, env, w) && !(w.made <= PciSet(env.targets))))
  }

  lemma PcisAreSet(targets: seq<MigDevice>, x: string)
    ensures x in Pcis(targets) <==> x in PciSet(targets)
  {
    var ps := Pcis(targets);
    if x in PciSet(targets) {
      var i :| 0 <= i < |targets| && targets[i].pci == x;
      assert ps[i] == x;
    }
  }

  lemma RollBackCovers(env: Inputs, s: Script, w: World, err: bool, uid: string)
    requires CoveredTwice(w, uid)
    ensures CoveredTwice(RollBack(env, s, w, err).w, uid)
  {
    hide PciSet, CoveredBy;
    var w1 := Cleared(w, PciSet(env.targets) - env.stuck);
    assert CoveredTwice(w1, uid) by { ClearedCovers(w, PciSet(env.targets) - env.stuck, uid); }
    PhaseCovers(s, RecRolledBack, w1, RolledBack, uid);
  }

  lemma ClearedCovers(w: World, which: set<string>, uid: string)
    requires CoveredTwice(w, uid)
    ensures CoveredTwice(Cleared(w, which), uid)
  {
  }

  lemma PhaseCovers(s: Script, site: Site, w: World, p: MigPhase, uid: string)
    requires CoveredTwice(w, uid) && HardwareChanged(p)
    ensures CoveredTwice(SetPhase(s, site, w, p).w, uid)
    ensures CoveredTwice(Logged(SetPhase(s, site, w, p)).w, uid)
  {
  }

  lemma VerifyCovers(env: Inputs, s: Script, w: World, uid: string)
    requires CoveredTwice(w, uid)
    ensures CoveredTwice(VerifyTail(env, s, w).w, uid)
  {
    hide RollBack, CoveredBy;
    PhaseCovers(s, RecVerifying, w, Verifying, uid);
    var w1 := Logged(SetPhase(s, RecVerifying, w, Verifying)).w;
    PhaseCovers(s, RecReady, w1, Ready, uid);
    RollBackCovers(env, s, w1, env.verify == VerifyError, uid);
  }

  /** Journaled for exactly the targets, and everything made lies on them. */
  predicate OnTargets(w: World, uid: string, targets: seq<MigDevice>) {
    CoversTargets(w.rec, uid, targets) && CoversTargets(w.mem, uid, targets) && w.made <= PciSet(targets)
  }

  predicate CoversTargets(r: Record, uid: string, targets: seq<MigDevice>) {
    r.owner == uid && r.pcis == Pcis(targets) && HardwareChanged(r.phase)
  }

  lemma OnTargetsCovered(w: World, uid: string, targets: seq<MigDevice>)
    requires OnTargets(w, uid, targets)
    ensures CoveredTwice(w, uid)
  {
    hide PciSet, Pcis;
    forall x | x in w.made ensures x in Pcis(targets) {
      PcisAreSet(targets, x);
    }
  }

  lemma ApplyOnTargets(w: World, uid: string, targets: seq<MigDevice>, g: Geometry, left: map<string, Geometry>)
    requires OnTargets(w, uid, targets)
    ensures OnTargets(Created(w, PciSet(targets), g), uid, targets)
    ensures OnTargets(PartlyCreated(w, PciSet(targets), left), uid, targets)
  {
    hide PciSet, Pcis;
  }

  lemma JournalCovers(p: Policy, env: Inputs, s: Script, w: World)
    requires w.mem == w.rec && CoveredTwice(w, p.uid) && w.made <= PciSet(env.targets)
    ensures var r := Patch(s, JournalApplying, w, Baseline(p, env, w.mem).(phase := Applying));
            CoveredTwice(r.w, p.uid) && (r.end == Going ==> OnTargets(r.w, p.uid, env.targets))
  {
    hide PciSet, Pcis;
    forall x | x in w.made ensures x in Pcis(env.targets) {
      PcisAreSet(env.targets, x);
    }
  }

  lemma CreateCovers(p: Policy, env: Inputs, s: Script, w: World)
    requires w.mem == w.rec && CoveredTwice(w, p.uid)
    requires env.physical >= |env.targets| ==> w.made <= PciSet(env.targets)
    ensures CoveredTwice(CreateInstances(p, env, s, w).w, p.uid)
  {
    hide RollBack, VerifyTail, PciSet, Pcis, Created, PartlyCreated, Baseline, CoveredTwice, OnTargets;
    if env.physical >= |env.targets| {
      JournalCovers(p, env, s, w);
      var w1 := Patch(s, JournalApplying, w, Baseline(p, env, w.mem).(phase := Applying)).w;
      if At(s, JournalApplying) == Does {
        OnTargetsCovered(w1, p.uid, env.targets);
        ApplyOnTargets(w1, p.uid, env.targets, Uniform(p.profile, p.count), env.left);
        var some := PartlyCreated(w1, PciSet(env.targets), env.left);
        OnTargetsCovered(some, p.uid, env.targets);
        RollBackCovers(env, s, some, true, p.uid);
        var made := Created(w1, PciSet(env.targets), Uniform(p.profile, p.count));
        var r3 := Logged(SetPhase(s, RecApplied, made, Applied));
        assert OnTargets(r3.w, p.uid, env.targets) by { AppliedOnTargets(s, made, p.uid, env.targets); }
        OnTargetsCovered(r3.w, p.uid, env.targets);
        VerifyCovers(env, s, r3.w, p.uid);
      }
    }
  }

  lemma AppliedOnTargets(s: Script, w: World, uid: string, targets: seq<MigDevice>)
    requires OnTargets(w, uid, targets)
    ensures OnTargets(SetPhase(s, RecApplied, w, Applied).w, uid, targets)
  {
  }

  lemma RestoreCovers(s: Script, call: nat, w: World, uid: string)
    requires CoveredTwice(w, uid)
    ensures CoveredTwice(RestoreSchedulable(s, call, w).w, uid)
  {
  }

  /** What the mode switch can do without touching the record of existing instances. */
  lemma EnsureModeCovers(p: Policy, env: Inputs, s: Script, w: World)
    requires w.mem == w.rec && CoveredTwice(w, p.uid)
    requires w.made != {} ==> !(ModeObservable(env.targets) && (NeedsModeEnable(env.targets) || NeedsReboot(env.targets))
                                && (NeedsReboot(env.targets) ==> w.rec.reboots < MAX_REBOOTS))
    ensures var r := EnsureModeEnabled(p, env, s, w);
            && CoveredTwice(r.w, p.uid) && r.w.made == w.made
            && (r.end == Going ==> SameButSettled(w, r.w))
            && (r.end == Going ==> !NeedsModeEnable(env.targets) && !NeedsReboot(env.targets))
  {
    hide CordonForApply, EnsureRebootJob, RestoreSchedulable, ModeObservable, NeedsModeEnable, NeedsReboot, RebootPath, QuiescePath,
         CoveredBy;
    NeverGoesOn(p, env, s, w);
    RestoreCovers(s, 0, w, p.uid);
    if w.mem.reboots >= MAX_REBOOTS { Exhausted(p, env, s, w); }
    if w.made == {} {
      assert RebootPath(p, env, s, w).w.made == {} && QuiescePath(p, env, s, w).w.made == {} by { SwitchMakesNothing(p, env, s, w); }
      NothingMade(RebootPath(p, env, s, w).w, p.uid);
      NothingMade(QuiescePath(p, env, s, w).w, p.uid);
    }
    SettleCovers(s, w, p.uid);
    SwitchMakesNothing(p, env, s, w);
    RestoreMakesNothing(s, 0, w);
  }

  lemma Exhausted(p: Policy, env: Inputs, s: Script, w: World)
    requires w.mem.reboots >= MAX_REBOOTS
    ensures RebootPath(p, env, s, w) == GiveUp(s, w, false)
  {
  }

  lemma NothingMade(w: World, uid: string)
    requires w.made == {}
    ensures CoveredTwice(w, uid)
  {
  }

  lemma SettleCovers(s: Script, w: World, uid: string)
    requires w.mem == w.rec && CoveredTwice(w, uid)
    ensures var r := Patch(s, SettleRecord, w.(jobs := 0),
                           w.mem.(reboots := 0, phase := if EnablePhase(w.mem.phase) then NoPhase else w.mem.phase));
            CoveredTwice(r.w, uid)
    ensures CoveredTwice(w.(jobs := 0), uid)
  {
  }

  predicate SameButSettled(a: World, b: World) {
    && b.mem == b.rec
    && b.rec == a.rec.(reboots := b.rec.reboots, phase := SettledPhase(a.rec))
    && b == a.(rec := b.rec, mem := b.mem, jobs := b.jobs)
  }

  lemma RestoreMakesNothing(s: Script, call: nat, w: World)
    ensures RestoreSchedulable(s, call, w).w.made == w.made
    ensures RestoreSchedulable(s, call, w).w.applies == w.applies
  {
  }

  lemma SwitchMakesNothing(p: Policy, env: Inputs, s: Script, w: World)
    ensures RebootPath(p, env, s, w).w.made == w.made && QuiescePath(p, env, s, w).w.made == w.made
    ensures RebootPath(p, env, s, w).w.applies == w.applies && QuiescePath(p, env, s, w).w.applies == w.applies
  {
    RebootMakesNothing(p, env, s, w);
    QuiesceMakesNothing(p, env, s, w);
  }

  lemma StepsMakeNothing(p: Policy, env: Inputs, s: Script, w: World)
    ensures var w1 := CordonForApply(s, w, p.uid, env.targets).w; w1.made == w.made && w1.applies == w.applies
    ensures var w1 := EnsureRebootJob(s, w, env.imageSet).w; w1.made == w.made && w1.applies == w.applies
  {
  }

  lemma RebootMakesNothing(p: Policy, env: Inputs, s: Script, w: World)
    ensures RebootPath(p, env, s, w).w.made == w.made && RebootPath(p, env, s, w).w.applies == w.applies
  {
    hide RestoreSchedulable, CordonForApply, EnsureRebootJob;
    StepsMakeNothing(p, env, s, w);
    var r1 := CordonForApply(s, w, p.uid, env.targets);
    var r2 := SetPhase(s, RecRebootRequested, r1.w, RebootRequested);
    StepsMakeNothing(p, env, s, r2.w);
    RestoreMakesNothing(s, 0, w);
    RestoreMakesNothing(s, 0, EnsureRebootJob(s, r2.w, env.imageSet).w);
  }

  lemma QuiesceMakesNothing(p: Policy, env: Inputs, s: Script, w: World)
    ensures QuiescePath(p, env, s, w).w.made == w.made && QuiescePath(p, env, s, w).w.applies == w.applies
  {
    hide RestoreSchedulable, CordonForApply, EnsureRebootJob, PciSet;
    StepsMakeNothing(p, env, s, w);
    var r1 := CordonForApply(s, w, p.uid, env.targets);
    var w3 := SetPhase(s, RecModeEnabling, r1.w, ModeEnabling).w;
    RestoreMakesNothing(s, 0, ModePending(w3, env.pendingNow * PciSet(env.targets)));
  }

  lemma AfterCovers(p: Policy, env: Inputs, s: Script, a: World, w: World)
    requires env.valid && AlwaysReady(env) && LockFree(p, a)
    requires !NeedsModeEnable(env.targets) && !NeedsReboot(env.targets)
    requires CoveredTwice(w, p.uid) && SameButSettled(a, w) && !Exposes(p, env, a.(owner := p.uid)) && a.owner == p.uid
    ensures CoveredTwice(AfterModeSettled(p, env, s, w).w, p.uid)
  {
    hide NeedsModeEnable, NeedsReboot, AlwaysReady, Changed, RecMatches, CreateInstances, VerifyTail, PciSet, AllEmpty, AllEnabled,
         CordonForApply, CoveredBy;
    CordonMakesNothing(s, w, p.uid, env.targets);
    VerifyCovers(env, s, w, p.uid);
    assert a.(owner := p.uid) == a;
    if WouldChange(p, env, a) {
      if InFlight(w.mem.phase) {
        CreateCovers(p, env, s, w);
      } else {
        var r := CheckHardware(p, env, s, w);
        if w.made == {} {
          assert r.w.made == {};
          if r.end == Going {
            assert r.w.mem == r.w.rec by { CheckJournals(p, env, s, w); }
            CreateCovers(p, env, s, r.w);
          }
        } else {
          assert !WouldCordon(p, env, a);
          assert r.w == w;
          if r.end == Going {
            CreateCovers(p, env, s, w);
          }
        }
      }
    }
  }

  lemma CordonMakesNothing(s: Script, w: World, uid: string, targets: seq<MigDevice>)
    ensures CordonForApply(s, w, uid, targets).w.made == w.made
    ensures w.made == {} ==> CoveredTwice(CordonForApply(s, w, uid, targets).w, uid)
  {
    hide Pcis;
  }

  lemma CheckJournals(p: Policy, env: Inputs, s: Script, w: World)
    requires w.mem == w.rec
    ensures var r := CheckHardware(p, env, s, w); r.end == Going ==> r.w.mem == r.w.rec
  {
    hide AllEmpty, AllEnabled;
    CordonJournals(s, w, p.uid, env.targets);
  }

  lemma WorkedCovers(p: Policy, env: Inputs, s: Script, w: World)
    requires w.mem == w.rec && CoveredTwice(w, p.uid) && !Exposes(p, env, w)
    ensures CoveredTwice(Worked(p, env, s, w).w, p.uid)
  {
    hide EnsureModeEnabled, AfterModeSettled, RestoreSchedulable, AlwaysReady, PciSet;
    if !env.valid {
      RestoreCovers(s, 0, w, p.uid);
    } else {
      var r := RunTarget(p, env, s, w);
      assert CoveredTwice(r.w, p.uid) by { RunTargetCovers(p, env, s, w); }
      RestoreCovers(s, 1, r.w, p.uid);
    }
  }

  lemma RunTargetCovers(p: Policy, env: Inputs, s: Script, w: World)
    requires env.valid && w.mem == w.rec && CoveredTwice(w, p.uid) && !Exposes(p, env, w)
    ensures CoveredTwice(RunTarget(p, env, s, w).w, p.uid)
  {
    hide EnsureModeEnabled, AfterModeSettled, AlwaysReady, PciSet, NeedsModeEnable, NeedsReboot, Changed;
    var r1 := TakeLock(p, s, w);
    if AlwaysReady(env) && r1.end == Going {
      assert Exposes(p, env, r1.w) ==> Exposes(p, env, w);
      EnsureModeCovers(p, env, s, r1.w);
      var r2 := EnsureModeEnabled(p, env, s, r1.w);
      if r2.end == Going {
        assert r1.w.(owner := p.uid) == r1.w;
        AfterCovers(p, env, s, r1.w, r2.w);
      }
    }
  }

  /** The crash points at which an exposing pass has already overwritten the record. */
  const CUT_AT_CORDON: Script := map[CordonNode := Dies]
  const CUT_AT_LABEL: Script := map[LabelOn := Dies]

  lemma DiedPass(p: Policy, env: Inputs, s: Script, w: World)
    requires env.valid && RunTarget(p, env, s, w.(mem := w.rec)).end == Died
    ensures Pass(p, env, s, w) == RunTarget(p, env, s, w.(mem := w.rec)).w
  {
    hide RunTarget, RestoreSchedulable;
  }

  /** The world a pass has once it owns the node and found the mode settled. */
  function Settled(p: Policy, w: World): World {
    var r := if w.rec.reboots > 0 || EnablePhase(w.rec.phase) then w.rec.(reboots := 0, phase := SettledPhase(w.rec)) else w.rec;
    w.(rec := r, mem := r, owner := p.uid, jobs := 0)
  }

  lemma ReachesDecision(p: Policy, env: Inputs, s: Script, w: World)
    requires AlwaysReady(env) && LockFree(p, w) && !NeedsModeEnable(env.targets) && !NeedsReboot(env.targets)
    requires At(s, OwnerLock) == Does && At(s, SettleRecord) == Does
    ensures RunTarget(p, env, s, w.(mem := w.rec)) == AfterModeSettled(p, env, s, Settled(p, w))
  {
    hide AlwaysReady, NeedsModeEnable, NeedsReboot, AfterModeSettled;
  }

  lemma CordonCut(w: World, uid: string, targets: seq<MigDevice>)
    requires w.mem == w.rec
    ensures var r := CordonForApply(CUT_AT_CORDON, w, uid, targets);
            r.end == Died && r.w.rec == Quiesced(w, uid, targets) && r.w.made == w.made
  {
    hide Pcis;
  }

  /** A pass that switches the mode leaves a Quiescing record behind, whatever was there. */
  lemma QuiescingCut(p: Policy, env: Inputs, w: World)
    requires WouldQuiesce(p, env, w)
    ensures Pass(p, env, CUT_AT_CORDON, w).rec.phase == Quiescing && Pass(p, env, CUT_AT_CORDON, w).made == w.made
  {
    hide AlwaysReady, NeedsModeEnable, NeedsReboot, ModeObservable, EnsureRebootJob, AfterModeSettled, Pass, CordonForApply,
         RestoreSchedulable, ModePending, PciSet, SetPhase;
    CordonCut(w.(mem := w.rec, owner := p.uid), p.uid, env.targets);
    DiedPass(p, env, CUT_AT_CORDON, w);
  }

  lemma QuiescingExposes(p: Policy, env: Inputs, w: World)
    requires w.made != {} && WouldQuiesce(p, env, w)
    ensures !Covered(Pass(p, env, CUT_AT_CORDON, w), p.uid)
  {
    hide Pass, WouldQuiesce;
    QuiescingCut(p, env, w);
  }

  lemma CordoningExposes(p: Policy, env: Inputs, w: World)
    requires w.made != {} && WouldCordon(p, env, w) && HardwareChanged(w.rec.phase)
    ensures !Covered(Pass(p, env, CUT_AT_CORDON, w), p.uid)
  {
    hide AlwaysReady, PciSet, Pcis, NeedsModeEnable, NeedsReboot, Changed, AllEmpty, AllEnabled, Pass, RunTarget, CreateInstances,
         CordonForApply, Resume, RecMatches;
    ReachesDecision(p, env, CUT_AT_CORDON, w);
    CordonCut(Settled(p, w), p.uid, env.targets);
    DiedPass(p, env, CUT_AT_CORDON, w);
  }

  lemma CreatingExposes(p: Policy, env: Inputs, w: World)
    requires w.made != {} && WouldCreate(p, env, w) && !WouldCordon(p, env, w) && !(w.made <= PciSet(env.targets))
    requires HardwareChanged(w.rec.phase)
    ensures !Covered(Pass(p, env, CUT_AT_LABEL, w), p.uid)
  {
    hide AlwaysReady, PciSet, Pcis, NeedsModeEnable, NeedsReboot, Changed, AllEmpty, AllEnabled, Pass, RunTarget, CreateInstances;
    ReachesDecision(p, env, CUT_AT_LABEL, w);
    CutAtLabel(p, env, Settled(p, w));
    DiedPass(p, env, CUT_AT_LABEL, w);
  }

  lemma ExposingPass(p: Policy, env: Inputs, w: World)
    requires Covered(w, p.uid) && Exposes(p, env, w)
    ensures !Covered(Pass(p, env, CUT_AT_CORDON, w), p.uid) || !Covered(Pass(p, env, CUT_AT_LABEL, w), p.uid)
  {
    hide Pass, WouldQuiesce, WouldCordon, WouldCreate;
    if WouldQuiesce(p, env, w) {
      QuiescingExposes(p, env, w);
    } else if WouldCordon(p, env, w) {
      CordoningExposes(p, env, w);
    } else {
      CreatingExposes(p, env, w);
    }
  }

  lemma CutAtLabel(p: Policy, env: Inputs, w: World)
    requires w.mem == w.rec && env.physical >= |env.targets| && !(w.made <= PciSet(env.targets))
    ensures var r := CreateInstances(p, env, CUT_AT_LABEL, w); r.end == Died && !Covered(r.w, p.uid)
  {
    hide PciSet, Pcis;
    var x :| x in w.made && x !in PciSet(env.targets);
    PcisAreSet(env.targets, x);
  }

  /** From a covered state, every instance the policy made stays covered at every crash point and under every
      failure of one pass, if and only if the pass does not expose them. */
  lemma CoverageKeptIff(p: Policy, env: Inputs, w: World)
    requires Covered(w, p.uid)
    ensures (forall s: Script :: Covered(Pass(p, env, s, w), p.uid)) <==> !Exposes(p, env, w)
  {
    if Exposes(p, env, w) {
      ExposingPass(p, env, w);
    } else {
      forall s: Script ensures Covered(Pass(p, env, s, w), p.uid) {
        PassCovers(p, env, s, w);
      }
    }
  }

  lemma PassCovers(p: Policy, env: Inputs, s: Script, w: World)
    requires Covered(w, p.uid) && !Exposes(p, env, w)
    ensures Covered(Pass(p, env, s, w), p.uid)
  {
    hide Worked, RestoreSchedulable, PciSet, AlwaysReady, NeedsModeEnable, NeedsReboot, Changed, AllEmpty, AllEnabled, ModeObservable;
    var w0 := w.(mem := w.rec);
    assert Exposes(p, env, w0) == Exposes(p, env, w);
    WorkedCovers(p, env, s, w0);
    RestoreCovers(s, 2, Worked(p, env, s, w0).w, p.uid);
  }
}
