/** The partition pass as the program runs it: a reconciler that rewrites its record in place, cordons the node,
    creates and deletes Jobs and runs hardware commands. Every method leaves exactly what the function of the same
    step in module MigModel says. */
module MigReconciler {
  import opened MigModel

  class PolicyReconciler {
    const policy: Policy
    const env: Inputs
    const script: Script

    var rec: Record              // the journal on the API server
    var mem: Record              // the copy this pass rewrites
    var gpus: map<string, Gpu>
    var owner: string
    var cordon: Cordon
    var job: bool
    ghost var made: set<string>
    ghost var jobs: nat
    ghost var disables: nat
    ghost var applies: nat

    ghost function W(): World
      reads this
    {
      World(rec, mem, gpus, owner, cordon, job, made, jobs, disables, applies)
    }

    constructor (policy: Policy, env: Inputs, script: Script, rec: Record, gpus: map<string, Gpu>, owner: string, cordon: Cordon,
                 job: bool, ghost w: World)
      requires w == World(rec, w.mem, gpus, owner, cordon, job, w.made, w.jobs, w.disables, w.applies)
      ensures this.policy == policy && this.env == env && this.script == script
      ensures W() == w.(mem := rec)
    {
      this.policy, this.env, this.script := policy, env, script;
      this.rec, this.mem, this.gpus, this.owner, this.cordon, this.job := rec, rec, gpus, owner, cordon, job;
      this.made, this.jobs, this.disables, this.applies := w.made, w.jobs, w.disables, w.applies;
    }

    /** A call without an effect of its own here: reads, evictions, labels, plugin restarts. */
    method Call(site: Site) returns (e: End)
      ensures R(W(), e) == Do(script, site, W(), W())
    {
      match At(script, site) {
        case Does => return Going;
        case Fails => return Answer(NoTarget, true);
        case Dies => return Died;
      }
    }

    method PatchApplyRecord(site: Site, r: Record) returns (e: End)
      modifies this`mem, this`rec
      ensures R(W(), e) == Patch(script, site, old(W()), r)
    {
      match At(script, site) {
        case Does =>
          if r != mem {
            mem := r;
            rec := r;
          } else {
            mem := rec;
          }
          return Going;
        case Fails =>
          mem := r;
          return Answer(NoTarget, true);
        case Dies =>
          return Died;
      }
    }

    method SetRecordPhase(site: Site, p: MigPhase) returns (e: End)
      modifies this`mem, this`rec
      ensures R(W(), e) == SetPhase(script, site, old(W()), p)
    {
      e := PatchApplyRecord(site, mem.(phase := p));
    }

    /** A phase write whose error is dropped. */
    method NotePhase(site: Site, p: MigPhase) returns (e: End)
      modifies this`mem, this`rec
      ensures R(W(), e) == Logged(SetPhase(script, site, old(W()), p))
    {
      e := SetRecordPhase(site, p);
      if e.Answer? {
        e := Going;
      }
    }

    method TargetPcis() returns (pcis: seq<string>)
      ensures pcis == Pcis(env.targets)
    {
      pcis := [];
      for i := 0 to |env.targets|
        invariant |pcis| == i
        invariant forall k :: 0 <= k < i ==> pcis[k] == env.targets[k].pci
      {
        pcis := pcis + [env.targets[i].pci];
      }
    }

    method JournalQuiesce() returns (e: End)
      modifies this`mem, this`rec
      ensures var w := old(W());
              R(W(), e) == (var w0 :- if EnablePhase(w.mem.phase) then R(w, Going) else Do(script, ReadNode, w, w);
                            Patch(script, JournalQuiescing, w0, Quiesced(w0, policy.uid, env.targets)))
    {
      var r := mem;
      if !EnablePhase(r.phase) {
        :- Call(ReadNode);
        r := r.(cordoned := cordon == Nobody);
      }
      r := r.(owner := policy.uid);
      var pcis := TargetPcis();
      r := r.(pcis := pcis);
      r := r.(phase := Quiescing);
      e := PatchApplyRecord(JournalQuiescing, r);
    }

    method CordonForApply() returns (e: End)
      modifies this`mem, this`rec, this`cordon
      ensures R(W(), e) == MigModel.CordonForApply(script, old(W()), policy.uid, env.targets)
    {
      hide Quiesced, Patch;
      :- JournalQuiesce();
      :- Call(CordonNode);
      if cordon == Nobody {
        cordon := ByPolicy;
      }
      return Going;
    }

    method RestoreSchedulable(call: nat) returns (e: End)
      modifies this`mem, this`rec, this`cordon, this`job
      ensures R(W(), e) == MigModel.RestoreSchedulable(script, call, old(W()))
    {
      e := Going;
      :- Call(DeleteJob(call));
      job := false;
      if !mem.cordoned {
        return Going;
      }
      :- Call(Uncordon(call));
      cordon := Nobody;
      e := PatchApplyRecord(RecUncordoned(call), mem.(cordoned := false));
    }

    method GiveUp(err: bool) returns (e: End)
      modifies this`mem, this`rec, this`cordon, this`job
      ensures R(W(), e) == MigModel.GiveUp(script, old(W()), err)
    {
      hide MigModel.RestoreSchedulable;
      e := RestoreSchedulable(0);
      if e == Died {
        return;
      }
      return Answer(TsFailed, err);
    }

    method EnsureRebootJob() returns (e: End)
      modifies this`mem, this`rec, this`job, this`jobs
      ensures R(W(), e) == MigModel.EnsureRebootJob(script, old(W()), env.imageSet)
    {
      e := Going;
      :- Call(LookupJob);
      if job {
        return Going;
      }
      if !env.imageSet {
        return Answer(NoTarget, true);
      }
      :- PatchApplyRecord(CountReboot, mem.(reboots := mem.reboots + 1));
      :- Call(CreateJob);
      job := true;
      jobs := jobs + 1;
      return Going;
    }

    method RequestReboot() returns (e: End)
      modifies this`mem, this`rec, this`cordon, this`job, this`jobs
      ensures R(W(), e) == RebootPath(policy, env, script, old(W()))
    {
      hide MigModel.CordonForApply, MigModel.EnsureRebootJob, MigModel.GiveUp, SetPhase;
      if mem.reboots >= MAX_REBOOTS {
        e := GiveUp(false);
        return;
      }
      :- CordonForApply();
      :- SetRecordPhase(RecRebootRequested, RebootRequested);
      var r := EnsureRebootJob();
      if r.Answer? {
        e := GiveUp(true);
        return;
      }
      :- r;
      :- SetRecordPhase(RecRebootWaiting, RebootWaiting);
      return Answer(TsApplying, false);
    }

    method EnableMode() returns (e: End)
      modifies this`mem, this`rec, this`cordon, this`job, this`gpus
      ensures R(W(), e) == QuiescePath(policy, env, script, old(W()))
    {
      hide MigModel.CordonForApply, MigModel.GiveUp, SetPhase, PciSet;
      :- CordonForApply();
      :- Call(EvictPods);
      if !env.drained {
        return Answer(TsWaitingForDrain, false);
      }
      :- SetRecordPhase(RecModeEnabling, ModeEnabling);
      match At(script, EnableRun) {
        case Does =>
          SetPending(PciSet(env.targets));
          return Answer(TsApplying, false);
        case Fails =>
          SetPending(env.pendingNow * PciSet(env.targets));
          e := GiveUp(true);
        case Dies =>
          SetPending(env.pendingNow * PciSet(env.targets));
          return Died;
      }
    }

    method SetPending(which: set<string>)
      modifies this`gpus
      ensures W() == ModePending(old(W()), which)
    {
      gpus := map x | x in gpus :: if x in which && gpus[x].current == Disabled then gpus[x].(pending := Enabled) else gpus[x];
    }

    method EnsureModeEnabled() returns (e: End)
      modifies this`mem, this`rec, this`cordon, this`job, this`jobs, this`gpus
      ensures R(W(), e) == MigModel.EnsureModeEnabled(policy, env, script, old(W()))
    {
      hide RebootPath, QuiescePath, NeedsModeEnable, NeedsReboot, ModeObservable;
      if !NeedsModeEnable(env.targets) && !NeedsReboot(env.targets) {
        jobs := 0;
        if mem.reboots > 0 || EnablePhase(mem.phase) {
          var r := mem.(reboots := 0);
          if EnablePhase(r.phase) {
            r := r.(phase := NoPhase);
          }
          e := PatchApplyRecord(SettleRecord, r);
          return;
        }
        return Going;
      }
      if !ModeObservable(env.targets) {
        return Answer(TsWaitingForDrain, false);
      }
      if NeedsReboot(env.targets) {
        e := RequestReboot();
        return;
      }
      e := EnableMode();
    }

    method RollBackTargets(err: bool) returns (e: End)
      modifies this`mem, this`rec, this`gpus, this`made
      ensures R(W(), e) == RollBack(env, script, old(W()), err)
    {
      hide PciSet, SetPhase;
      var which := PciSet(env.targets) - env.stuck;
      gpus := map x | x in gpus :: if x in which then gpus[x].(geometry := NoInstances) else gpus[x];
      made := made - which;
      assert W() == Cleared(old(W()), which);
      var outcome := At(script, RollbackRun);
      if outcome == Dies {
        return Died;
      }
      :- NotePhase(RecRolledBack, RolledBack);
      var l := Call(LabelOff);
      if l == Died {
        return Died;
      }
      return Answer(if outcome == Does then TsRollingBack else TsRollbackFailed, err);
    }

    method VerifyAndFinish() returns (e: End)
      modifies this`mem, this`rec, this`gpus, this`made
      ensures R(W(), e) == VerifyTail(env, script, old(W()))
    {
      hide RollBack, SetPhase;
      :- NotePhase(RecVerifying, Verifying);
      if env.verify != Converged {
        e := RollBackTargets(env.verify == VerifyError);
        return;
      }
      :- NotePhase(RecReady, Ready);
      return Answer(TsReady, false);
    }

    method RestartDevicePlugin() returns (e: End)
      ensures R(W(), e) == Restarted(script, W())
    {
      e := Call(RestartPlugin);
      if e.Answer? {
        e := Answer(TsRestartingPlugin, true);
      }
    }

    method ResumeRecovery() returns (e: End)
      modifies this`mem, this`rec, this`gpus, this`made
      ensures R(W(), e) == Resume(env, script, old(W()))
    {
      hide VerifyTail;
      if mem.phase == Applied {
        :- RestartDevicePlugin();
      }
      e := VerifyAndFinish();
    }

    method CreateInstances() returns (e: End)
      modifies this`mem, this`rec, this`gpus, this`made, this`applies
      ensures R(W(), e) == MigModel.CreateInstances(policy, env, script, old(W()))
    {
      hide RollBack, VerifyTail, PciSet, Pcis, SetPhase;
      if env.physical < |env.targets| {
        return Answer(TsFailed, false);
      }
      var pcis := TargetPcis();
      var r := mem.(pcis := pcis, owner := policy.uid, baseline := env.allocatable,
                    expectedMig := policy.count * |env.targets|, expectedFull := env.physical - |env.targets|,
                    profile := policy.profile, count := policy.count, generation := policy.generation);
      :- PatchApplyRecord(JournalApplying, r.(phase := Applying));
      :- Call(LabelOn);
      var which := PciSet(env.targets);
      if At(script, ApplyRun) == Does {
        RunApply(which);
        :- NotePhase(RecApplied, Applied);
        :- RestartDevicePlugin();
        e := VerifyAndFinish();
      } else {
        RunPartly(which);
        if At(script, ApplyRun) == Dies {
          return Died;
        }
        e := RollBackTargets(true);
      }
    }

    method RunApply(which: set<string>)
      modifies this`gpus, this`made, this`applies
      ensures W() == Created(old(W()), which, Uniform(policy.profile, policy.count))
    {
      gpus := map x | x in gpus :: if x in which then gpus[x].(geometry := Uniform(policy.profile, policy.count)) else gpus[x];
      made := made + which;
      applies := applies + 1;
    }

    method RunPartly(which: set<string>)
      modifies this`gpus, this`made, this`applies
      ensures W() == PartlyCreated(old(W()), which, env.left)
    {
      gpus := map x | x in gpus :: if x in which && x in env.left then gpus[x].(geometry := env.left[x]) else gpus[x];
      made := made - (set x | x in made && x in which && x in env.left && env.left[x] == NoInstances)
              + (set x | x in which && x in env.left && env.left[x] != NoInstances);
      applies := applies + 1;
    }

    method CheckHardwareChange() returns (e: End)
      modifies this`mem, this`rec, this`cordon
      ensures R(W(), e) == CheckHardware(policy, env, script, old(W()))
    {
      hide AllEnabled, AllEmpty, MigModel.CordonForApply;
      :- Call(ReadHardware);
      if cordon == Nobody && AllEnabled(env.targets) && AllEmpty(env.targets) {
        :- CordonForApply();
      }
      if !AllEnabled(env.targets) || !AllEmpty(env.targets) || cordon == Nobody || env.gpuBusy {
        return Answer(TsWaitingForDrain, false);
      }
      return Going;
    }

    method ApplyPartition() returns (e: End)
      modifies this`mem, this`rec, this`cordon, this`gpus, this`made, this`applies
      ensures R(W(), e) == AfterModeSettled(policy, env, script, old(W()))
    {
      hide Changed, RecMatches, Resume, CheckHardware, MigModel.CreateInstances;
      if !Changed(policy, env) {
        var mine := mem.owner == policy.uid;
        if mem.phase == Ready && mine && RecMatches(mem, policy, env.targets) {
          match env.verify {
            case VerifyError => return Answer(TsFailed, true);
            case NotConverged => return Answer(TsVerifyingAllocatable, false);
            case Converged => return Answer(TsReady, false);
          }
        }
        if mine && InFlight(mem.phase) {
          e := ResumeRecovery();
          return;
        }
        if !EnablePhase(mem.phase) && mem.phase != RolledBack {
          return Answer(TsFailed, false);
        }
      }
      if mem.phase == RolledBack && mem.generation == policy.generation {
        return Answer(if env.rollbackFailedBefore then TsRollbackFailed else TsFailed, false);
      }
      if !InFlight(mem.phase) {
        :- CheckHardwareChange();
      }
      e := CreateInstances();
    }

    method RunNvidiaTarget() returns (e: End)
      modifies this
      ensures R(W(), e) == RunTarget(policy, env, script, old(W()))
    {
      hide AlwaysReady, MigModel.EnsureModeEnabled, AfterModeSettled;
      if !AlwaysReady(env) {
        return Answer(TsWaitingForDrain, false);
      }
      if owner != policy.uid {
        if owner != "" {
          return Answer(TsFailed, false);
        }
        :- Call(OwnerLock);
        owner := policy.uid;
      }
      :- EnsureModeEnabled();
      e := ApplyPartition();
    }

    method RunValidated() returns (e: End)
      modifies this
      ensures R(W(), e) == Worked(policy, env, script, old(W()))
    {
      hide RunTarget, MigModel.RestoreSchedulable;
      if !env.valid {
        :- RestoreSchedulable(0);
        return Answer(TsFailed, false);
      }
      e := RunNvidiaTarget();
      if e == Answer(TsReady, false) {
        var q := RestoreSchedulable(1);
        return if q == Died then Died else Answer(TsReady, q.Answer?);
      }
    }

    method Reconcile()
      modifies this
      ensures W() == Pass(policy, env, script, old(W()))
    {
      hide Worked, MigModel.RestoreSchedulable;
      mem := rec;
      var e := RunValidated();
      if e == Died {
        return;
      }
      if Restores(e) {
        var q := RestoreSchedulable(2);
        if q == Died {
          return;
        }
      }
      if At(script, StatusWrite) == Does {
        rec := mem;
      }
    }
  }
}
