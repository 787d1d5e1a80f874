/** What the partition journal guarantees over any number of passes, with a crash or a failure at any step. */
module MigJournal {
  import opened MigModel

  // ----- reboot budget and cordon ownership -----

  /** Every enable-reboot Job since the mode was last settled is on record, and there are at most two. */
  predicate Budgeted(w: World) {
    w.jobs <= w.rec.reboots <= MAX_REBOOTS && w.jobs <= w.mem.reboots <= MAX_REBOOTS
  }

  /** No record claims a cordon that the operator put on. */
  predicate Respectful(w: World) {
    w.cordon == ByOperator ==> !w.rec.cordoned && !w.mem.cordoned
  }

  /** A node about to reboot takes no new pods. */
  predicate Guarded(w: World) {
    w.job ==> w.cordon != Nobody
  }

  predicate Keeps(a: World, b: World) {
    && (Budgeted(a) ==> Budgeted(b))
    && (Guarded(a) ==> Guarded(b))
    && (Respectful(a) ==> Respectful(b) && (a.cordon == ByOperator ==> b.cordon == ByOperator))
  }

  lemma CordonKeeps(s: Script, w: World, uid: string, targets: seq<MigDevice>)
    ensures Keeps(w, CordonForApply(s, w, uid, targets).w)
  {
  }

  lemma RestoreKeeps(s: Script, call: nat, w: World)
    ensures Keeps(w, RestoreSchedulable(s, call, w).w)
    ensures Keeps(w, Logged(RestoreSchedulable(s, call, w)).w)
  {
  }

  lemma RebootJobKeeps(s: Script, w: World, imageSet: bool)
    requires w.mem.reboots < MAX_REBOOTS && w.mem == w.rec && w.cordon != Nobody
    ensures Keeps(w, EnsureRebootJob(s, w, imageSet).w)
  {
  }

  lemma RebootKeeps(p: Policy, env: Inputs, s: Script, w: World)
    requires w.mem == w.rec
    ensures Keeps(w, RebootPath(p, env, s, w).w)
  {
    hide Keeps;
    KeepsCompose();
    RestoreKeeps(s, 0, w);
    CordonKeeps(s, w, p.uid, env.targets);
    CordonJournals(s, w, p.uid, env.targets);
    var r1 := CordonForApply(s, w, p.uid, env.targets);
    if r1.end == Going && w.mem.reboots < MAX_REBOOTS {
      PhaseKeeps(s, RecRebootRequested, r1.w, RebootRequested);
      var r2 := SetPhase(s, RecRebootRequested, r1.w, RebootRequested);
      if r2.end == Going {
        RebootJobKeeps(s, r2.w, env.imageSet);
        var r3 := EnsureRebootJob(s, r2.w, env.imageSet);
        RestoreKeeps(s, 0, r3.w);
        PhaseKeeps(s, RecRebootWaiting, r3.w, RebootWaiting);
      }
    }
  }

  lemma KeepsCompose()
    ensures forall a :: Keeps(a, a)
    ensures forall a, b, c :: Keeps(a, b) && Keeps(b, c) ==> Keeps(a, c)
  {
  }

  lemma PhaseKeeps(s: Script, site: Site, w: World, p: MigPhase)
    ensures Keeps(w, SetPhase(s, site, w, p).w)
    ensures Keeps(w, Logged(SetPhase(s, site, w, p)).w)
    ensures w.mem == w.rec && SetPhase(s, site, w, p).end == Going ==> SetPhase(s, site, w, p).w.mem == SetPhase(s, site, w, p).w.rec
    ensures w.mem == w.rec ==> SetPhase(s, site, w, p).w.mem.reboots == w.mem.reboots
    ensures SetPhase(s, site, w, p).w.cordon == w.cordon
  {
  }

  /** A cordon that went through is on record. */
  lemma CordonJournals(s: Script, w: World, uid: string, targets: seq<MigDevice>)
    requires w.mem == w.rec
    ensures var r := CordonForApply(s, w, uid, targets);
            r.end == Going ==> r.w.mem == r.w.rec && r.w.mem == Quiesced(w, uid, targets) && r.w.cordon != Nobody
  {
  }

  lemma QuiesceKeeps(p: Policy, env: Inputs, s: Script, w: World)
    ensures Keeps(w, QuiescePath(p, env, s, w).w)
  {
    hide Keeps;
    KeepsCompose();
    CordonKeeps(s, w, p.uid, env.targets);
    var r1 := CordonForApply(s, w, p.uid, env.targets);
    PhaseKeeps(s, RecModeEnabling, r1.w, ModeEnabling);
    var w3 := SetPhase(s, RecModeEnabling, r1.w, ModeEnabling).w;
    PendingKeeps(w3, PciSet(env.targets));
    PendingKeeps(w3, env.pendingNow * PciSet(env.targets));
    RestoreKeeps(s, 0, ModePending(w3, env.pendingNow * PciSet(env.targets)));
  }

  lemma PendingKeeps(w: World, which: set<string>)
    ensures Keeps(w, ModePending(w, which))
  {
  }

  lemma SettleKeeps(p: Policy, env: Inputs, s: Script, w: World)
    requires !NeedsModeEnable(env.targets) && !NeedsReboot(env.targets)
    ensures Keeps(w, EnsureModeEnabled(p, env, s, w).w)
  {
  }

  lemma EnsureModeKeeps(p: Policy, env: Inputs, s: Script, w: World)
    requires w.mem == w.rec
    ensures Keeps(w, EnsureModeEnabled(p, env, s, w).w)
    ensures var r := EnsureModeEnabled(p, env, s, w); r.end == Going ==> r.w.mem == r.w.rec
  {
    hide Keeps, RebootPath, QuiescePath;
    KeepsCompose();
    NeverGoesOn(p, env, s, w);
    if !NeedsModeEnable(env.targets) && !NeedsReboot(env.targets) {
      SettleKeeps(p, env, s, w);
    } else {
      RebootKeeps(p, env, s, w);
      QuiesceKeeps(p, env, s, w);
    }
  }

  /** A mode switch always ends its pass. */
  lemma NeverGoesOn(p: Policy, env: Inputs, s: Script, w: World)
    ensures RebootPath(p, env, s, w).end != Going && QuiescePath(p, env, s, w).end != Going
  {
    hide CordonForApply, EnsureRebootJob, RestoreSchedulable, ModePending;
  }

  lemma RollBackKeeps(env: Inputs, s: Script, w: World, err: bool)
    ensures Keeps(w, RollBack(env, s, w, err).w)
  {
    var w1 := Cleared(w, PciSet(env.targets) - env.stuck);
    assert Keeps(w, w1);
    PhaseKeeps(s, RecRolledBack, w1, RolledBack);
  }

  lemma VerifyKeeps(env: Inputs, s: Script, w: World)
    ensures Keeps(w, VerifyTail(env, s, w).w)
  {
    hide Keeps, RollBack;
    KeepsCompose();
    PhaseKeeps(s, RecVerifying, w, Verifying);
    var w1 := Logged(SetPhase(s, RecVerifying, w, Verifying)).w;
    RollBackKeeps(env, s, w1, env.verify == VerifyError);
    PhaseKeeps(s, RecReady, w1, Ready);
  }

  lemma ResumeKeeps(env: Inputs, s: Script, w: World)
    ensures Keeps(w, Resume(env, s, w).w)
  {
    hide Keeps, VerifyTail;
    KeepsCompose();
    VerifyKeeps(env, s, w);
  }

  lemma ApplyKeeps(w: World, which: set<string>, g: Geometry, left: map<string, Geometry>)
    ensures Keeps(w, Created(w, which, g)) && Keeps(w, PartlyCreated(w, which, left))
  {
  }

  lemma JournalKeeps(p: Policy, env: Inputs, s: Script, w: World)
    ensures Keeps(w, Patch(s, JournalApplying, w, Baseline(p, env, w.mem).(phase := Applying)).w)
  {
  }

  lemma CreateKeeps(p: Policy, env: Inputs, s: Script, w: World)
    ensures Keeps(w, CreateInstances(p, env, s, w).w)
  {
    hide Keeps, RollBack, VerifyTail, SetPhase, Created, PartlyCreated, PciSet, Baseline;
    KeepsCompose();
    JournalKeeps(p, env, s, w);
    var w1 := Patch(s, JournalApplying, w, Baseline(p, env, w.mem).(phase := Applying)).w;
    ApplyKeeps(w1, PciSet(env.targets), Uniform(p.profile, p.count), env.left);
    RollBackKeeps(env, s, PartlyCreated(w1, PciSet(env.targets), env.left), true);
    var made := Created(w1, PciSet(env.targets), Uniform(p.profile, p.count));
    PhaseKeeps(s, RecApplied, made, Applied);
    VerifyKeeps(env, s, Logged(SetPhase(s, RecApplied, made, Applied)).w);
  }

  lemma CheckKeeps(p: Policy, env: Inputs, s: Script, w: World)
    ensures Keeps(w, CheckHardware(p, env, s, w).w)
  {
    hide Keeps, CordonForApply;
    KeepsCompose();
    CordonKeeps(s, w, p.uid, env.targets);
  }

  lemma AfterKeeps(p: Policy, env: Inputs, s: Script, w: World)
    ensures Keeps(w, AfterModeSettled(p, env, s, w).w)
  {
    hide Keeps, Resume, CheckHardware, CreateInstances, Changed, RecMatches;
    KeepsCompose();
    ResumeKeeps(env, s, w);
    CheckKeeps(p, env, s, w);
    CreateKeeps(p, env, s, w);
    CreateKeeps(p, env, s, CheckHardware(p, env, s, w).w);
  }

  lemma RunTargetKeeps(p: Policy, env: Inputs, s: Script, w: World)
    requires w.mem == w.rec
    ensures Keeps(w, RunTarget(p, env, s, w).w)
  {
    hide EnsureModeEnabled, AfterModeSettled, AlwaysReady;
    var r1 := TakeLock(p, s, w);
    assert Keeps(w, r1.w);
    EnsureModeKeeps(p, env, s, r1.w);
    var r2 := EnsureModeEnabled(p, env, s, r1.w);
    AfterKeeps(p, env, s, r2.w);
  }

  lemma WorkedKeeps(p: Policy, env: Inputs, s: Script, w: World)
    requires w.mem == w.rec
    ensures Keeps(w, Worked(p, env, s, w).w)
  {
    hide Keeps, RunTarget, RestoreSchedulable;
    KeepsCompose();
    RestoreKeeps(s, 0, w);
    RunTargetKeeps(p, env, s, w);
    RestoreKeeps(s, 1, RunTarget(p, env, s, w).w);
  }

  /** A whole pass, cut off or disturbed anywhere, keeps the reboot budget, leaves the operator's cordon, and never has a
      reboot scheduled on a schedulable node. */
  lemma PassKeeps(p: Policy, env: Inputs, s: Script, w: World)
    ensures Keeps(w.(mem := w.rec), Pass(p, env, s, w))
  {
    hide Worked, RestoreSchedulable;
    var w0 := w.(mem := w.rec);
    WorkedKeeps(p, env, s, w0);
    RestoreKeeps(s, 2, Worked(p, env, s, w0).w);
  }
}
