/** A partition policy whose node is observed truthfully and whose targets stay in MIG mode: nothing it makes ever drops
    out of its record. */
module MigSteady {
  import opened MigModel
  import opened MigJournal
  import opened MigCoverage
  import opened MigRuns

  /** The GPUs the policy made instances on exist and carry instances. */
  predicate Present(w: World) {
    forall x :: x in w.made ==> x in w.gpus && w.gpus[x].geometry != NoInstances
  }

  /** Present, and all targets of the pass are GPUs of the node. */
  predicate Placed(w: World, targets: seq<MigDevice>) {
    Present(w) && PciSet(targets) <= w.gpus.Keys
  }

  predicate SameGpus(a: World, b: World) {
    b.gpus == a.gpus && b.made == a.made
  }

  lemma SamePlaced(a: World, b: World, targets: seq<MigDevice>)
    requires Placed(a, targets) && SameGpus(a, b)
    ensures Placed(b, targets)
  {
  }

  lemma StepsTouchNoGpu(s: Script, call: nat, w: World, uid: string, targets: seq<MigDevice>)
    ensures SameGpus(w, RestoreSchedulable(s, call, w).w) && SameGpus(w, CordonForApply(s, w, uid, targets).w)
  {
    hide Pcis;
  }

  lemma RollBackPlaces(env: Inputs, s: Script, w: World, err: bool)
    requires Placed(w, env.targets)
    ensures Placed(RollBack(env, s, w, err).w, env.targets)
  {
    hide PciSet;
    ClearedPlaced(w, PciSet(env.targets) - env.stuck, env.targets);
    SamePlaced(Cleared(w, PciSet(env.targets) - env.stuck), RollBack(env, s, w, err).w, env.targets);
  }

  lemma ClearedPlaced(w: World, which: set<string>, targets: seq<MigDevice>)
    requires Placed(w, targets)
    ensures Placed(Cleared(w, which), targets)
  {
    hide PciSet;
  }

  lemma VerifyPlaces(env: Inputs, s: Script, w: World)
    requires Placed(w, env.targets)
    ensures Placed(VerifyTail(env, s, w).w, env.targets)
  {
    hide RollBack, Placed;
    var w1 := Logged(SetPhase(s, RecVerifying, w, Verifying)).w;
    SamePlaced(w, w1, env.targets);
    SamePlaced(w, Logged(SetPhase(s, RecReady, w1, Ready)).w, env.targets);
    RollBackPlaces(env, s, w1, env.verify == VerifyError);
  }

  lemma CreatedPlaced(w: World, targets: seq<MigDevice>, g: Geometry, left: map<string, Geometry>)
    requires Placed(w, targets) && g != NoInstances
    ensures Placed(Created(w, PciSet(targets), g), targets) && Placed(PartlyCreated(w, PciSet(targets), left), targets)
  {
    hide PciSet;
  }

  lemma CreatePlaces(p: Policy, env: Inputs, s: Script, w: World)
    requires Placed(w, env.targets)
    ensures Placed(CreateInstances(p, env, s, w).w, env.targets)
  {
    hide RollBack, VerifyTail, PciSet, Pcis, Created, PartlyCreated, Baseline, Placed;
    var w1 := Patch(s, JournalApplying, w, Baseline(p, env, w.mem).(phase := Applying)).w;
    SamePlaced(w, w1, env.targets);
    CreatedPlaced(w1, env.targets, Uniform(p.profile, p.count), env.left);
    RollBackPlaces(env, s, PartlyCreated(w1, PciSet(env.targets), env.left), true);
    var made := Created(w1, PciSet(env.targets), Uniform(p.profile, p.count));
    var w3 := Logged(SetPhase(s, RecApplied, made, Applied)).w;
    SamePlaced(made, w3, env.targets);
    VerifyPlaces(env, s, w3);
  }

  lemma TargetPlaces(p: Policy, env: Inputs, s: Script, w: World)
    requires Placed(w, env.targets) && !NeedsModeEnable(env.targets) && !NeedsReboot(env.targets)
    ensures Placed(RunTarget(p, env, s, w).w, env.targets)
  {
    hide AlwaysReady, NeedsModeEnable, NeedsReboot, AfterModeSettled, Placed;
    var w1 := TakeLock(p, s, w).w;
    var w2 := EnsureModeEnabled(p, env, s, w1).w;
    SamePlaced(w, w1, env.targets);
    SamePlaced(w, w2, env.targets);
    AfterPlaces(p, env, s, w2);
  }

  lemma AfterPlaces(p: Policy, env: Inputs, s: Script, w: World)
    requires Placed(w, env.targets)
    ensures Placed(AfterModeSettled(p, env, s, w).w, env.targets)
  {
    hide CordonForApply, AllEmpty, AllEnabled, Changed, RecMatches, CreateInstances, VerifyTail, Placed;
    StepsTouchNoGpu(s, 0, w, p.uid, env.targets);
    var w1 := CheckHardware(p, env, s, w).w;
    SamePlaced(w, w1, env.targets);
    VerifyPlaces(env, s, w);
    CreatePlaces(p, env, s, w);
    CreatePlaces(p, env, s, w1);
  }

  lemma PassPlaces(p: Policy, env: Inputs, s: Script, w: World)
    requires Placed(w, env.targets) && !NeedsModeEnable(env.targets) && !NeedsReboot(env.targets)
    ensures Placed(Pass(p, env, s, w), env.targets)
  {
    hide RunTarget, RestoreSchedulable, NeedsModeEnable, NeedsReboot, Placed;
    var w0 := w.(mem := w.rec);
    SamePlaced(w, w0, env.targets);
    TargetPlaces(p, env, s, w0);
    var r := RunTarget(p, env, s, w0).w;
    StepsTouchNoGpu(s, 0, w0, p.uid, env.targets);
    StepsTouchNoGpu(s, 1, r, p.uid, env.targets);
    var w1 := Worked(p, env, s, w0).w;
    SamePlaced(if env.valid then r else w0, w1, env.targets);
    StepsTouchNoGpu(s, 2, w1, p.uid, env.targets);
    SamePlaced(w1, Pass(p, env, s, w), env.targets);
  }

  /** A pass of the policy that sees every GPU with its instances as it is, none of the targets to be switched. */
  predicate Steady(uid: string, w: World, e: Event) {
    e.PassOf? ==>
      && e.p.uid == uid && Truthful(e.env, w) && w.made <= PciSet(e.env.targets)
      && !NeedsModeEnable(e.env.targets) && !NeedsReboot(e.env.targets)
  }

  predicate SteadyRun(uid: string, w: World, events: seq<Event>) {
    forall i :: 0 <= i < |events| ==> Steady(uid, Run(w, events[..i]), events[i])
  }

  /** As long as the policy sees its GPUs as they are and none has to be switched into MIG mode, the instances it made
      stay where they were made and deletion would find them all, whatever crashes, fails, boots or is edited. */
  lemma {:induction false} SteadyRunsStayCovered(uid: string, gpus: map<string, Gpu>, owner: string, cordon: Cordon, events: seq<Event>)
    requires SteadyRun(uid, Start(gpus, owner, cordon), events)
    ensures var w := Run(Start(gpus, owner, cordon), events); Covered(w, uid) && Present(w)
  {
    hide Pass, Exposes, Steady, Covered, Present;
    var w := Start(gpus, owner, cordon);
    if events == [] {
      StartsCovered(gpus, owner, cordon, uid);
    } else {
      var k := |events| - 1;
      forall i | 0 <= i < k ensures Steady(uid, Run(w, events[..k][..i]), events[..k][i]) {
        assert events[..k][..i] == events[..i];
        assert Steady(uid, Run(w, events[..i]), events[i]);
      }
      SteadyRunsStayCovered(uid, gpus, owner, cordon, events[..k]);
      assert Steady(uid, Run(w, events[..k]), events[k]);
      SteadyStep(uid, Run(w, events[..k]), events[k]);
    }
  }

  lemma StartsCovered(gpus: map<string, Gpu>, owner: string, cordon: Cordon, uid: string)
    ensures Covered(Start(gpus, owner, cordon), uid) && Present(Start(gpus, owner, cordon))
  {
  }

  lemma SteadyStep(uid: string, w: World, e: Event)
    requires Covered(w, uid) && Present(w) && Steady(uid, w, e)
    ensures Covered(Next(w, e), uid) && Present(Next(w, e))
  {
    hide Pass, Exposes, NeedsModeEnable, NeedsReboot;
    if e.PassOf? {
      SteadyTargetsAreQuiet(e.p, e.env, w);
      PassCovers(e.p, e.env, e.s, w);
      assert PciSet(e.env.targets) <= w.gpus.Keys;
      PassPlaces(e.p, e.env, e.s, w);
    }
  }
}
