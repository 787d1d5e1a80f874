/** What a partition pass does and does not do, read off what it saw: when it leaves everything alone, when it switches the
    MIG mode or asks for a reboot, when it keeps a partition as it is, and when it gives the node back. */
module MigGuards {
  import opened MigModel
  import opened MigCoverage
  import opened MigRuns
  import opened MigOutcomes

  // ----- what keeps a pass from touching anything -----

  predicate Unknowable(d: MigDevice) {
    d.pci == "" || d.failed || d.current == Unknown
  }

  /** Everything stored is as it was; only the pass's own copy is new. */
  predicate SameNode(a: World, b: World) {
    b == a.(mem := b.mem)
  }

  /** With a driver that is not ready, or a target that could not be read, a pass of a valid policy changes nothing at all,
      whatever script it runs under. */
  lemma UnreadyIsLeftAlone(p: Policy, env: Inputs, s: Script, w: World)
    requires env.valid && (!env.driverReady || exists d :: d in env.targets && Unknowable(d))
    ensures SameNode(w, Pass(p, env, s, w))
    ensures Worked(p, env, s, w.(mem := w.rec)).end == Answer(TsWaitingForDrain, false)
  {
    hide EnsureModeEnabled, AfterModeSettled, RestoreSchedulable;
    if d :| d in env.targets && Unknowable(d) {
      var i :| 0 <= i < |env.targets| && env.targets[i] == d;
    }
  }

  /** So does one whose node another policy holds, but for a cordon or Job it still has to give back. */
  lemma ForeignIsLeftAlone(p: Policy, env: Inputs, s: Script, w: World)
    requires env.valid && w.owner != p.uid && w.owner != "" && !w.job && !w.rec.cordoned
    ensures SameNode(w, Pass(p, env, s, w))
  {
    hide AlwaysReady, EnsureModeEnabled, AfterModeSettled, RestoreSchedulable;
    NothingBack(s, 2, w.(mem := w.rec));
  }

  lemma NothingBack(s: Script, call: nat, w: World)
    requires !w.job && !w.mem.cordoned
    ensures RestoreSchedulable(s, call, w).w == w
  {
  }

  // ----- the mode switch -----

  /** All targets can be acted on: named, read, and with a mode that says something. */
  predicate AllReadable(targets: seq<MigDevice>) {
    forall d :: d in targets ==> d.pci != "" && !d.failed && d.current != Unknown
  }

  predicate AllModesRead(targets: seq<MigDevice>) {
    forall d :: d in targets ==> d.current != Unread
  }

  predicate SomeOff(targets: seq<MigDevice>) {
    exists d :: d in targets && d.current == Disabled
  }

  predicate SomePending(targets: seq<MigDevice>) {
    exists d :: d in targets && d.pending == Enabled && d.current != Enabled
  }

  predicate Workable(p: Policy, env: Inputs, w: World) {
    env.valid && env.driverReady && AllReadable(env.targets) && (w.owner == p.uid || w.owner == "")
  }

  lemma GuardsMean(env: Inputs)
    ensures AlwaysReady(env) <==> env.driverReady && AllReadable(env.targets)
    ensures AllReadable(env.targets) ==> (NeedsModeEnable(env.targets) <==> SomeOff(env.targets))
    ensures NeedsReboot(env.targets) <==> SomePending(env.targets)
    ensures AllReadable(env.targets) ==> (ModeObservable(env.targets) <==> AllModesRead(env.targets))
  {
    var ts := env.targets;
    forall i | 0 <= i < |ts| ensures ts[i] in ts {}
    if d :| d in ts && d.current == Disabled { var i :| 0 <= i < |ts| && ts[i] == d; }
    if d :| d in ts && d.pending == Enabled && d.current != Enabled { var i :| 0 <= i < |ts| && ts[i] == d; }
  }

  /** Where an undisturbed pass of a valid policy goes. */
  lemma TargetGoes(p: Policy, env: Inputs, w: World)
    requires env.valid && w.mem == w.rec
    ensures var r := RunTarget(p, env, UNDISTURBED, w); var w1 := w.(owner := p.uid);
            if !Workable(p, env, w) then r.w == w && r.end.Answer? && (r.end.phase == TsFailed || r.end.phase == TsWaitingForDrain)
            else if (SomePending(env.targets) || SomeOff(env.targets)) && !AllModesRead(env.targets) then r == R(w1, Answer(TsWaitingForDrain, false))
            else if SomePending(env.targets) then r == RebootPath(p, env, UNDISTURBED, w1)
            else if SomeOff(env.targets) then r == QuiescePath(p, env, UNDISTURBED, w1)
            else r.w.rec.phase != ModeEnabling && r.w.rec.phase != RebootWaiting && r.w.mem == r.w.rec && r.end != Going && r.end != Died
  {
    hide AlwaysReady, NeedsModeEnable, NeedsReboot, ModeObservable, RebootPath, QuiescePath, AfterModeSettled, AllReadable, AllModesRead,
         SomeOff, SomePending;
    GuardsMean(env);
    var w1 := w.(owner := p.uid);
    NeverGoesOnUndisturbed(p, env, w1);
    SettledEnds(p, env, w1);
    SettlesOrNot(env, w1);
  }

  lemma SettlesOrNot(env: Inputs, w: World)
    ensures Patch(UNDISTURBED, SettleRecord, w.(jobs := 0),
                  w.mem.(reboots := 0, phase := if EnablePhase(w.mem.phase) then NoPhase else w.mem.phase)).end == Going
  {
  }

  lemma InvalidPass(p: Policy, env: Inputs, w: World)
    requires !env.valid
    ensures var w' := Pass(p, env, UNDISTURBED, w);
            && w'.rec == w.rec.(cordoned := false) && !w'.job && w'.gpus == w.gpus && w'.made == w.made
            && w'.cordon == (if w.rec.cordoned then Nobody else w.cordon)
  {
    hide RestoreSchedulable;
    RestoreUndisturbed(0, w.(mem := w.rec));
    RestoreUndisturbed(2, RestoreSchedulable(UNDISTURBED, 0, w.(mem := w.rec)).w);
  }

  /** An undisturbed pass switches the MIG mode on exactly when it can act on all targets, one of them has its mode off, none
      waits for a reboot, and the node's pods are gone; it does so on a cordoned node, with the switch on record, and on all
      targets at once. */
  lemma SwitchesIff(p: Policy, env: Inputs, w: World)
    requires w.rec.phase != ModeEnabling
    ensures var w' := Pass(p, env, UNDISTURBED, w);
            && (w'.rec.phase == ModeEnabling <==>
                  && Workable(p, env, w) && AllModesRead(env.targets)
                  && SomeOff(env.targets) && !SomePending(env.targets) && env.drained)
            && (w'.rec.phase == ModeEnabling ==>
                  && w'.cordon != Nobody && w'.rec.owner == p.uid && w'.rec.pcis == Pcis(env.targets)
                  && w'.gpus == ModePending(w, PciSet(env.targets)).gpus)
  {
    hide RunTarget, RebootPath, QuiescePath, Pass, PciSet, Pcis, AllReadable, AllModesRead, SomeOff, SomePending;
    var w0 := w.(mem := w.rec);
    if env.valid {
      TargetGoes(p, env, w0);
      QuiesceUndisturbed(p, env, w0.(owner := p.uid));
      RebootUndisturbed(p, env, w0.(owner := p.uid));
      if RunTarget(p, env, UNDISTURBED, w0).end == Answer(TsReady, false) {
        ReadyPass(p, env, w);
      } else {
        NoReadyError(p, env, w0);
        UnreadyPass(p, env, w);
      }
    } else {
      InvalidPass(p, env, w);
    }
  }

  lemma RestoreKeepsPhase(s: Script, call: nat, w: World)
    requires w.mem == w.rec
    ensures var r := RestoreSchedulable(s, call, w);
            && r.w.rec.phase == w.rec.phase && r.w.mem.phase == w.rec.phase
            && (s == UNDISTURBED ==> r.end == Going && r.w.mem == r.w.rec)
  {
  }

  lemma QuiesceUndisturbed(p: Policy, env: Inputs, w: World)
    requires w.mem == w.rec
    ensures var r := QuiescePath(p, env, UNDISTURBED, w);
            && r.w.mem == r.w.rec && r.w.cordon != Nobody && r.w.rec.owner == p.uid && r.w.rec.pcis == Pcis(env.targets)
            && r.w.rec.phase == (if env.drained then ModeEnabling else Quiescing)
            && r.w.gpus == (if env.drained then ModePending(w, PciSet(env.targets)).gpus else w.gpus)
            && r.end == Answer(if env.drained then TsApplying else TsWaitingForDrain, false)
  {
    hide Pcis, PciSet;
  }

  lemma RebootUndisturbed(p: Policy, env: Inputs, w: World)
    requires w.mem == w.rec
    ensures var r := RebootPath(p, env, UNDISTURBED, w);
            && r.w.mem == r.w.rec
            && (if w.rec.reboots < 2 && (w.job || env.imageSet) then
                  && r.end == Answer(TsApplying, false) && r.w.rec.phase == RebootWaiting && r.w.job && r.w.cordon != Nobody
                  && r.w.rec.reboots == (if w.job then w.rec.reboots else w.rec.reboots + 1)
                  && r.w.jobs == (if w.job then w.jobs else w.jobs + 1)
                else
                  && r.end == Answer(TsFailed, w.rec.reboots < 2) && !r.w.job && !r.w.rec.cordoned && r.w.jobs == w.jobs
                  && r.w.rec.phase == if w.rec.reboots < 2 then RebootRequested else w.rec.phase)
  {
    hide CordonForApply, RestoreSchedulable;
    RestoreUndisturbed(0, w);
    CordonsForApply(w, p.uid, env.targets);
    CordonCounts(w, p.uid, env.targets);
    var w1 := CordonForApply(UNDISTURBED, w, p.uid, env.targets).w;
    var w2 := SetPhase(UNDISTURBED, RecRebootRequested, w1, RebootRequested).w;
    RestoreUndisturbed(0, w2);
  }

  lemma CordonCounts(w: World, uid: string, targets: seq<MigDevice>)
    requires w.mem == w.rec
    ensures var w1 := CordonForApply(UNDISTURBED, w, uid, targets).w;
            w1.job == w.job && w1.jobs == w.jobs && w1.mem.reboots == w.mem.reboots && w1.rec.owner == uid == w1.mem.owner
  {
    hide Pcis;
  }

  /** A pass is ready without an error, or not ready. */
  lemma NoReadyError(p: Policy, env: Inputs, w: World)
    requires w.mem == w.rec
    ensures RunTarget(p, env, UNDISTURBED, w).end != Answer(TsReady, true)
  {
    hide AlwaysReady, EnsureModeEnabled, AfterModeSettled;
    var w1 := TakeLock(p, UNDISTURBED, w).w;
    ModeIsNotReady(p, env, UNDISTURBED, w1);
    SettledEnds(p, env, w1);
    var r := EnsureModeEnabled(p, env, UNDISTURBED, w1);
    if r.end == Going { AfterPhase(p, env, r.w); }
  }

  lemma SettledEnds(p: Policy, env: Inputs, w: World)
    requires w.mem == w.rec
    ensures var r := EnsureModeEnabled(p, env, UNDISTURBED, w);
            r.end == Going ==>
              && r.w.mem == r.w.rec && !EnablePhase(r.w.rec.phase)
              && var q := AfterModeSettled(p, env, UNDISTURBED, r.w);
                 && q.w.rec.phase != ModeEnabling && q.w.rec.phase != RebootWaiting && q.w.mem == q.w.rec
                 && q.end.Answer? && (q.end.phase == TsReady ==> !q.end.err)
  {
    hide NeedsModeEnable, NeedsReboot, ModeObservable, RebootPath, QuiescePath, AfterModeSettled;
    NeverGoesOnUndisturbed(p, env, w);
    var r := EnsureModeEnabled(p, env, UNDISTURBED, w);
    if r.end == Going { AfterPhase(p, env, r.w); }
  }

  lemma NeverGoesOnUndisturbed(p: Policy, env: Inputs, w: World)
    requires w.mem == w.rec
    ensures RebootPath(p, env, UNDISTURBED, w).end != Going && QuiescePath(p, env, UNDISTURBED, w).end != Going
  {
    QuiesceUndisturbed(p, env, w);
    RebootUndisturbed(p, env, w);
  }

  /** An apply, a resumption and a cordon for an apply leave no phase of a mode switch but Quiescing behind, and report a
      ready partition without an error or not at all. */
  lemma AfterPhase(p: Policy, env: Inputs, w: World)
    requires w.mem == w.rec && !EnablePhase(w.rec.phase)
    ensures var q := AfterModeSettled(p, env, UNDISTURBED, w);
            && q.w.rec.phase != ModeEnabling && q.w.rec.phase != RebootWaiting && q.w.mem == q.w.rec
            && q.end.Answer? && q.end.phase != TsApplying && (q.end.phase == TsReady ==> !q.end.err)
  {
    hide CheckHardware, Changed, RecMatches, CreateInstances, VerifyTail;
    TailUndisturbed(env, w);
    CheckUndisturbed(p, env, w);
    CreatePhase(p, env, w);
    CreatePhase(p, env, CheckHardware(p, env, UNDISTURBED, w).w);
  }

  lemma CreatePhase(p: Policy, env: Inputs, w: World)
    requires w.mem == w.rec
    ensures var q := CreateInstances(p, env, UNDISTURBED, w);
            && (q.w.rec.phase == w.rec.phase || q.w.rec.phase == Ready || q.w.rec.phase == RolledBack) && q.w.mem == q.w.rec
            && q.end.Answer? && q.end.phase != TsApplying && (q.end.phase == TsReady ==> !q.end.err)
  {
    hide CreateInstances;
    if env.physical >= |env.targets| {
      CreateUndisturbed(p, env, w);
    } else {
      NoRoom(p, env, w);
    }
  }

  lemma CheckUndisturbed(p: Policy, env: Inputs, w: World)
    requires w.mem == w.rec
    ensures var r := CheckHardware(p, env, UNDISTURBED, w);
            && (r.end == Going || r.end == Answer(TsWaitingForDrain, false)) && r.w.mem == r.w.rec
            && (r.w.rec.phase == w.rec.phase || r.w.rec.phase == Quiescing)
  {
    hide CordonForApply, AllEmpty, AllEnabled;
    CordonsForApply(w, p.uid, env.targets);
    CordonPhase(w, p.uid, env.targets);
  }

  lemma CordonPhase(w: World, uid: string, targets: seq<MigDevice>)
    requires w.mem == w.rec
    ensures CordonForApply(UNDISTURBED, w, uid, targets).w.rec.phase == Quiescing
  {
    hide Pcis;
  }

  lemma NoRoom(p: Policy, env: Inputs, w: World)
    requires env.physical < |env.targets|
    ensures CreateInstances(p, env, UNDISTURBED, w) == R(w, Answer(TsFailed, false))
  {
  }

  /** It asks for a reboot exactly when a target waits for one and the budget and the image allow it, or finds one asked for;
      the reboot is counted once and the node is cordoned. Without budget it asks for none and gives the node back. */
  lemma RebootsIff(p: Policy, env: Inputs, w: World)
    requires w.rec.phase != RebootWaiting
    ensures var w' := Pass(p, env, UNDISTURBED, w);
            && (w'.rec.phase == RebootWaiting <==>
                  && Workable(p, env, w) && AllModesRead(env.targets)
                  && SomePending(env.targets) && w.rec.reboots < 2 && (w.job || env.imageSet))
            && (w'.rec.phase == RebootWaiting ==>
                  && w'.job && w'.cordon != Nobody
                  && w'.rec.reboots == (if w.job then w.rec.reboots else w.rec.reboots + 1)
                  && w'.jobs == (if w.job then w.jobs else w.jobs + 1))
            && (Workable(p, env, w) && AllModesRead(env.targets) && SomePending(env.targets) && w'.rec.phase != RebootWaiting ==>
                  && !w'.job && !w'.rec.cordoned && w'.jobs == w.jobs)
  {
    hide RunTarget, RebootPath, QuiescePath, Pass, PciSet, Pcis, AllReadable, AllModesRead, SomeOff, SomePending;
    var w0 := w.(mem := w.rec);
    if env.valid {
      TargetGoes(p, env, w0);
      QuiesceUndisturbed(p, env, w0.(owner := p.uid));
      RebootUndisturbed(p, env, w0.(owner := p.uid));
      if RunTarget(p, env, UNDISTURBED, w0).end == Answer(TsReady, false) {
        ReadyPass(p, env, w);
      } else {
        NoReadyError(p, env, w0);
        UnreadyPass(p, env, w);
      }
    } else {
      InvalidPass(p, env, w);
    }
  }

  const ENABLE_FAILS: Script := map[EnableRun := Fails]

  /** A mode switch that fails reports it and gives the node back, with the switch still on record; on the GPUs it did reach
      the mode is pending. */
  lemma FailedSwitchGivesBack(p: Policy, env: Inputs, w: World)
    requires Workable(p, env, w) && AllModesRead(env.targets) && SomeOff(env.targets) && !SomePending(env.targets) && env.drained
    ensures var w' := Pass(p, env, ENABLE_FAILS, w);
            && w'.rec.phase == ModeEnabling && !w'.rec.cordoned && !w'.job
            && ((if EnablePhase(w.rec.phase) then w.rec.cordoned else w.cordon == Nobody) ==> w'.cordon == Nobody)
            && w'.gpus == ModePending(w, env.pendingNow * PciSet(env.targets)).gpus
    ensures Worked(p, env, ENABLE_FAILS, w.(mem := w.rec)).end == Answer(TsFailed, true)
  {
    hide AlwaysReady, NeedsModeEnable, NeedsReboot, ModeObservable, RebootPath, QuiescePath, AfterModeSettled, RestoreSchedulable, PciSet,
         AllReadable, AllModesRead, SomeOff, SomePending, ModePending;
    GuardsMean(env);
    var w1 := w.(mem := w.rec, owner := p.uid);
    SwitchFails(p, env, w1);
    RestoreFails(2, QuiescePath(p, env, ENABLE_FAILS, w1).w);
    PendingIgnoresRecords(w, w1, env.pendingNow * PciSet(env.targets));
  }

  lemma SwitchFails(p: Policy, env: Inputs, w: World)
    requires w.mem == w.rec && env.drained
    ensures var r := QuiescePath(p, env, ENABLE_FAILS, w);
            && r.end == Answer(TsFailed, true) && r.w.mem == r.w.rec && r.w.rec.phase == ModeEnabling && !r.w.rec.cordoned && !r.w.job
            && ((if EnablePhase(w.rec.phase) then w.rec.cordoned else w.cordon == Nobody) ==> r.w.cordon == Nobody)
            && r.w.gpus == ModePending(w, env.pendingNow * PciSet(env.targets)).gpus
  {
    hide RestoreSchedulable, PciSet, Pcis;
    var r1 := CordonForApply(ENABLE_FAILS, w, p.uid, env.targets);
    var w3 := SetPhase(ENABLE_FAILS, RecModeEnabling, r1.w, ModeEnabling).w;
    RestoreFails(0, ModePending(w3, env.pendingNow * PciSet(env.targets)));
  }

  lemma RestoreFails(call: nat, w: World)
    requires w.mem == w.rec
    ensures var r := RestoreSchedulable(ENABLE_FAILS, call, w);
            && r.end == Going && r.w.mem == r.w.rec && r.w.rec == w.rec.(cordoned := false) && !r.w.job && r.w.gpus == w.gpus
            && r.w.cordon == (if w.rec.cordoned then Nobody else w.cordon)
  {
  }

  lemma PendingIgnoresRecords(a: World, b: World, which: set<string>)
    requires a.gpus == b.gpus
    ensures ModePending(a, which).gpus == ModePending(b, which).gpus
  {
  }

  // ----- keeping, resuming -----

  /** Targets that can be acted on, none of which has to be switched. */
  predicate ModeSettled(p: Policy, env: Inputs, w: World) {
    Workable(p, env, w) && !SomeOff(env.targets) && !SomePending(env.targets)
  }

  /** There are targets, and every one has the layout that was asked for. */
  predicate AsAsked(p: Policy, env: Inputs) {
    env.targets != [] && forall d :: d in env.targets ==> d.geometry == Uniform(p.profile, p.count)
  }

  /** The record is the policy's, and lists this layout on exactly these GPUs. */
  predicate Listed(p: Policy, env: Inputs, r: Record) {
    && r.owner == p.uid && r.profile == p.profile && r.count == p.count
    && |r.pcis| == |env.targets| && forall d :: d in env.targets ==> d.pci in r.pcis
  }

  lemma DecisionsMean(p: Policy, env: Inputs, r: Record)
    ensures Changed(p, env) <==> !AsAsked(p, env)
    ensures r.owner == p.uid && RecMatches(r, p, env.targets) <==> Listed(p, env, r)
  {
    var ts := env.targets;
    forall i | 0 <= i < |ts| ensures ts[i] in ts {}
    if d :| d in ts && d.geometry != Uniform(p.profile, p.count) { var i :| 0 <= i < |ts| && ts[i] == d; }
    if d :| d in ts && d.pci !in r.pcis { var i :| 0 <= i < |ts| && ts[i] == d; }
  }

  lemma Decides(p: Policy, env: Inputs, s: Script, w: World)
    requires ModeSettled(p, env, w) && At(s, OwnerLock) == Does && At(s, SettleRecord) == Does
    ensures RunTarget(p, env, s, w.(mem := w.rec)) == AfterModeSettled(p, env, s, Settled(p, w))
  {
    GuardsMean(env);
    ReachesDecision(p, env, s, w);
  }

  /** An undisturbed pass over a ready partition reports it ready without applying it again exactly when every target has the
      layout that was asked for and the record lists just this; then it leaves record and GPUs as they are. */
  lemma KeptIff(p: Policy, env: Inputs, w: World)
    requires ModeSettled(p, env, w) && w.rec.phase == Ready && env.verify == Converged
    ensures var w' := Pass(p, env, UNDISTURBED, w);
            && (Worked(p, env, UNDISTURBED, w.(mem := w.rec)).end == Answer(TsReady, false) && w'.applies == w.applies
                <==> AsAsked(p, env) && Listed(p, env, w.rec))
            && (AsAsked(p, env) ==> w'.gpus == w.gpus && w'.made == w.made && w'.rec == w.rec.(cordoned := false, reboots := 0))
  {
    hide AfterModeSettled, RestoreSchedulable, Changed, RecMatches, AsAsked, Listed, ModeSettled, RunTarget;
    var w0 := w.(mem := w.rec);
    assert env.valid by { SettledIsValid(p, env, w); }
    Decides(p, env, UNDISTURBED, w);
    KeepsOrChanges(p, env, Settled(p, w));
    DecisionsMean(p, env, w.rec);
    DecisionsMean(p, env, Settled(p, w).rec);
    assert Listed(p, env, w.rec) == Listed(p, env, Settled(p, w).rec) by { SameListing(p, env, w.rec, Settled(p, w).rec); }
    var r := RunTarget(p, env, UNDISTURBED, w0);
    RestoreUndisturbed(1, r.w);
    RestoreUndisturbed(2, r.w);
  }

  lemma SettledIsValid(p: Policy, env: Inputs, w: World)
    requires ModeSettled(p, env, w)
    ensures env.valid
  {
  }

  lemma SameListing(p: Policy, env: Inputs, a: Record, b: Record)
    requires b == a.(reboots := b.reboots, phase := b.phase)
    ensures Listed(p, env, a) == Listed(p, env, b)
  {
  }

  lemma KeepsOrChanges(p: Policy, env: Inputs, w: World)
    requires w.mem == w.rec && w.rec.phase == Ready && env.verify == Converged
    ensures var r := AfterModeSettled(p, env, UNDISTURBED, w);
            && r.w.mem == r.w.rec && r.end.Answer? && (r.end.phase == TsReady ==> !r.end.err)
            && (if !Changed(p, env) then
                  r.w == w && r.end == Answer(if w.rec.owner == p.uid && RecMatches(w.rec, p, env.targets) then TsReady else TsFailed, false)
                else r.end.phase == TsReady ==> r.w.applies == w.applies + 1)
  {
    hide CheckHardware, Changed, RecMatches, CreateInstances;
    CheckUndisturbed(p, env, w);
    CheckMakesNothing(p, env, UNDISTURBED, w);
    CreateCounts(p, env, CheckHardware(p, env, UNDISTURBED, w).w);
  }

  lemma CreateCounts(p: Policy, env: Inputs, w: World)
    requires w.mem == w.rec
    ensures var r := CreateInstances(p, env, UNDISTURBED, w);
            && r.w.mem == r.w.rec && r.end.Answer? && (r.end.phase == TsReady ==> !r.end.err && r.w.applies == w.applies + 1)
  {
    hide CreateInstances;
    CreatePhase(p, env, w);
    if env.physical >= |env.targets| { CreateUndisturbed(p, env, w); } else { NoRoom(p, env, w); }
  }

  /** An apply found half way, its instances in place, is finished exactly when it is the policy's own. */
  lemma ResumesIff(p: Policy, env: Inputs, w: World)
    requires ModeSettled(p, env, w) && AsAsked(p, env) && env.verify == Converged
    requires w.rec.phase == Applying || w.rec.phase == Applied || w.rec.phase == RestartingPlugin || w.rec.phase == Verifying
    ensures var w' := Pass(p, env, UNDISTURBED, w);
            && (w'.rec.phase == Ready <==> w.rec.owner == p.uid)
            && w'.gpus == w.gpus && w'.made == w.made
            && (w.rec.owner != p.uid ==> w'.rec.phase == w.rec.phase)
  {
    hide AfterModeSettled, RestoreSchedulable, Changed, RecMatches, AsAsked, ModeSettled, RunTarget;
    assert env.valid by { SettledIsValid(p, env, w); }
    Decides(p, env, UNDISTURBED, w);
    DecisionsMean(p, env, w.rec);
    ResumesOwn(p, env, Settled(p, w));
    var r := RunTarget(p, env, UNDISTURBED, w.(mem := w.rec));
    RestoreUndisturbed(1, r.w);
    RestoreUndisturbed(2, r.w);
  }

  lemma ResumesOwn(p: Policy, env: Inputs, w: World)
    requires w.mem == w.rec && !Changed(p, env) && InFlight(w.rec.phase) && env.verify == Converged
    ensures var r := AfterModeSettled(p, env, UNDISTURBED, w);
            && r.w.mem == r.w.rec && r.w.gpus == w.gpus && r.w.made == w.made
            && r.w.rec == w.rec.(phase := if w.rec.owner == p.uid then Ready else w.rec.phase)
            && r.end == Answer(if w.rec.owner == p.uid then TsReady else TsFailed, false)
  {
    hide Changed, RecMatches, VerifyTail;
    TailUndisturbed(env, w);
  }

  const RESTART_FAILS: Script := map[RestartPlugin := Fails]

  /** It restarts the plugin first exactly when the record says that the instances were made and nothing after that. */
  lemma ResumeRestartsIff(p: Policy, env: Inputs, w: World)
    requires WouldResume(p, env, w) && env.verify == Converged
    ensures Worked(p, env, RESTART_FAILS, w.(mem := w.rec)).end == Answer(TsRestartingPlugin, true) <==> w.rec.phase == Applied
  {
    hide AlwaysReady, NeedsModeEnable, NeedsReboot, Changed, RecMatches, RestoreSchedulable, RunTarget;
    ReachesDecision(p, env, RESTART_FAILS, w);
    ResumeOrNot(p, env, Settled(p, w));
  }

  lemma ResumeOrNot(p: Policy, env: Inputs, w: World)
    requires !Changed(p, env) && InFlight(w.mem.phase) && w.mem.owner == p.uid && env.verify == Converged
    ensures AfterModeSettled(p, env, RESTART_FAILS, w).end
         == if w.mem.phase == Applied then Answer(TsRestartingPlugin, true) else Answer(TsReady, false)
  {
    hide Changed, RecMatches;
  }

  // ----- an apply that fails -----

  const APPLY_FAILS: Script := map[ApplyRun := Fails]
  const BOTH_FAIL: Script := map[ApplyRun := Fails, RollbackRun := Fails]

  /** An apply that fails half way is taken back as well, and closes its generation; if taking it back fails too, the pass says
      so. The node stays cordoned for the retry. */
  lemma FailedApplyIsTakenBack(p: Policy, env: Inputs, s: Script, w: World)
    requires WouldCreate(p, env, w) && (s == APPLY_FAILS || s == BOTH_FAIL)
    ensures var w' := Pass(p, env, s, w);
            && ClosedAt(w'.rec, p.generation)
            && w'.made !! Clearable(env)
            && (forall x :: x in w'.gpus && x in Clearable(env) ==> w'.gpus[x].geometry == NoInstances)
            && (w.rec.cordoned ==> w'.rec.cordoned) && (w.cordon != Nobody ==> w'.cordon == w.cordon)
    ensures Worked(p, env, s, w.(mem := w.rec)).end == Answer(if s == APPLY_FAILS then TsRollingBack else TsRollbackFailed, true)
  {
    hide RunTarget, CreateInstances, RestoreSchedulable, WouldCreate, PciSet;
    var w0 := w.(mem := w.rec);
    assert env.valid && env.physical >= |env.targets| by { CreatingIsSound(p, env, w); }
    DecidesToFail(p, env, s, w);
    var v: World :| v.mem == v.rec && (w.rec.cordoned ==> v.rec.cordoned) && (w.cordon != Nobody ==> v.cordon == w.cordon)
                    && RunTarget(p, env, s, w0) == CreateInstances(p, env, s, v);
    CreateFails(p, env, s, v);
  }

  lemma DecidesToFail(p: Policy, env: Inputs, s: Script, w: World)
    requires WouldCreate(p, env, w) && (s == APPLY_FAILS || s == BOTH_FAIL)
    ensures exists v: World ::
              && v.mem == v.rec && (w.rec.cordoned ==> v.rec.cordoned) && (w.cordon != Nobody ==> v.cordon == w.cordon)
              && RunTarget(p, env, s, w.(mem := w.rec)) == CreateInstances(p, env, s, v)
  {
    hide AlwaysReady, NeedsModeEnable, NeedsReboot, Changed, HardwareFree, RunTarget, CreateInstances, RecMatches, Resume, CheckHardware;
    ReachesDecision(p, env, s, w);
    var v := Settled(p, w);
    if InFlight(v.mem.phase) {
      assert RunTarget(p, env, s, w.(mem := w.rec)) == CreateInstances(p, env, s, v);
    } else {
      ChecksAnyway(p, env, s, v);
      var v1 := CheckHardware(p, env, s, v).w;
      assert RunTarget(p, env, s, w.(mem := w.rec)) == CreateInstances(p, env, s, v1);
    }
  }

  lemma ChecksAnyway(p: Policy, env: Inputs, s: Script, w: World)
    requires w.mem == w.rec && !EnablePhase(w.rec.phase) && (s == APPLY_FAILS || s == BOTH_FAIL) && HardwareFree(env) && !env.gpuBusy
    ensures var r := CheckHardware(p, env, s, w);
            && r.end == Going && r.w.mem == r.w.rec && (w.rec.cordoned ==> r.w.rec.cordoned)
            && (w.cordon != Nobody ==> r.w.cordon == w.cordon)
  {
    hide AllEmpty, AllEnabled, CordonForApply;
    CordonsAnyway(s, w, p.uid, env.targets);
  }

  lemma CordonsAnyway(s: Script, w: World, uid: string, targets: seq<MigDevice>)
    requires w.mem == w.rec && !EnablePhase(w.rec.phase) && (s == APPLY_FAILS || s == BOTH_FAIL)
    ensures var r := CordonForApply(s, w, uid, targets);
            && r.end == Going && r.w.cordon != Nobody && r.w.mem == r.w.rec
            && (w.cordon == Nobody ==> r.w.rec.cordoned)
  {
    hide Pcis;
  }

  lemma CreateFails(p: Policy, env: Inputs, s: Script, w: World)
    requires w.mem == w.rec && env.physical >= |env.targets| && (s == APPLY_FAILS || s == BOTH_FAIL)
    ensures var r := CreateInstances(p, env, s, w);
            && r.end == Answer(if s == APPLY_FAILS then TsRollingBack else TsRollbackFailed, true)
            && r.w.mem == r.w.rec && ClosedAt(r.w.rec, p.generation) && r.w.rec.cordoned == w.rec.cordoned && r.w.cordon == w.cordon
            && r.w.made !! Clearable(env)
            && (forall x :: x in r.w.gpus && x in Clearable(env) ==> r.w.gpus[x].geometry == NoInstances)
  {
    hide PciSet, Pcis;
  }

  // ----- giving the node back -----

  predicate NeverDies(s: Script) {
    forall site :: site in s ==> s[site] != Dies
  }

  predicate GivesBackAt(s: Script, call: nat) {
    At(s, DeleteJob(call)) == Does && At(s, Uncordon(call)) == Does && At(s, RecUncordoned(call)) == Does
  }

  predicate Back(w: World, w': World) {
    !w'.job && (w.rec.cordoned ==> w'.cordon == Nobody)
  }

  lemma OneAttempt(s: Script, call: nat, w: World)
    requires NeverDies(s) && w.mem.cordoned == w.rec.cordoned
    ensures var r := RestoreSchedulable(s, call, w);
            && r.end != Died
            && (GivesBackAt(s, call) ==> r.end == Going && !r.w.job && (w.rec.cordoned ==> r.w.cordon == Nobody))
            && (w.cordon == Nobody ==> r.w.cordon == Nobody) && (!w.job ==> !r.w.job)
            && (w.rec.cordoned && r.w.cordon != Nobody ==> r.w.mem.cordoned && r.w.rec.cordoned)
            && (r.w.cordon != Nobody ==> r.w.mem.cordoned == r.w.rec.cordoned)
  {
  }

  /** A rejected policy gives its node back, its reboot cancelled, as soon as its own attempt goes through, whatever becomes of
      the one at the end of the pass. */
  lemma RejectionGivesBackAtOnce(p: Policy, env: Inputs, s: Script, w: World)
    requires !env.valid && NeverDies(s) && GivesBackAt(s, 0)
    ensures Back(w, Pass(p, env, s, w))
  {
    hide RestoreSchedulable;
    var w0 := w.(mem := w.rec);
    OneAttempt(s, 0, w0);
    BackStays(s, 2, RestoreSchedulable(s, 0, w0).w);
  }

  lemma BackStays(s: Script, call: nat, w: World)
    ensures var w' := RestoreSchedulable(s, call, w).w; (w.cordon == Nobody ==> w'.cordon == Nobody) && (!w.job ==> !w'.job)
  {
  }

  /** A policy out of reboots gives its node back if either of its two attempts goes through. */
  lemma ExhaustedGivesBackByEither(p: Policy, env: Inputs, s: Script, w: World)
    requires Workable(p, env, w) && AllModesRead(env.targets) && SomePending(env.targets) && w.rec.reboots >= 2
    requires NeverDies(s) && At(s, OwnerLock) == Does && (GivesBackAt(s, 0) || GivesBackAt(s, 2))
    ensures Back(w, Pass(p, env, s, w))
  {
    hide AlwaysReady, NeedsModeEnable, NeedsReboot, ModeObservable, QuiescePath, AfterModeSettled, RestoreSchedulable, AllReadable,
         AllModesRead, SomePending;
    GuardsMean(env);
    var w1 := w.(mem := w.rec, owner := p.uid);
    OneAttempt(s, 0, w1);
    var u := RestoreSchedulable(s, 0, w1).w;
    BackStays(s, 2, u);
    if u.cordon != Nobody { OneAttempt(s, 2, u); } else { LastAttempt(s, 2, u); }
  }

  lemma LastAttempt(s: Script, call: nat, w: World)
    requires NeverDies(s)
    ensures RestoreSchedulable(s, call, w).end != Died
    ensures GivesBackAt(s, call) ==> !RestoreSchedulable(s, call, w).w.job
  {
  }

  /** A closed generation gives the node back, whatever its rollback came to, and says which of the two it was. */
  lemma ClosedGivesBack(p: Policy, env: Inputs, w: World)
    requires ModeSettled(p, env, w) && ClosedAt(w.rec, p.generation)
    ensures var w' := Pass(p, env, UNDISTURBED, w); Back(w, w') && !w'.rec.cordoned && ClosedAt(w'.rec, p.generation)
    ensures Worked(p, env, UNDISTURBED, w.(mem := w.rec)).end
         == Answer(if env.rollbackFailedBefore then TsRollbackFailed else TsFailed, false)
  {
    hide AfterModeSettled, RestoreSchedulable, ModeSettled, RunTarget;
    assert env.valid by { SettledIsValid(p, env, w); }
    Decides(p, env, UNDISTURBED, w);
    ClosedAnswer(p, env, Settled(p, w));
    RestoreUndisturbed(2, RunTarget(p, env, UNDISTURBED, w.(mem := w.rec)).w);
  }

  lemma ClosedAnswer(p: Policy, env: Inputs, w: World)
    requires w.mem == w.rec && ClosedAt(w.rec, p.generation)
    ensures AfterModeSettled(p, env, UNDISTURBED, w)
         == R(w, Answer(if env.rollbackFailedBefore then TsRollbackFailed else TsFailed, false))
  {
    hide Changed, RecMatches, CheckHardware, CreateInstances, Resume;
  }
}
