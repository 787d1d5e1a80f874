/** A policy with a partition layout, with or without sharing on top of it (runTarget in
    internal/controller/acceleratorpartitionpolicy_controller.go): one pass first makes the partition ready and then
    shares it. The node is that of module MigModel, the configuration and the daemon are those of module SharingModel. */
module Layered {
  import M = MigModel
  import MigCoverage
  import MigRuns
  import S = SharingModel
  import Sharing
  import SharingRuns
  import SharingOutcomes

  datatype Policy = Policy(
    name: string, uid: string, generation: int, profile: string, count: nat, mode: S.Mode, replicas: nat)

  function Part(p: Policy): M.Policy {
    M.Policy(p.uid, p.generation, p.profile, p.count)
  }

  function Share(p: Policy): S.Policy {
    S.Policy(p.name, p.generation, p.mode, p.replicas)
  }

  /** wired counts the device-plugin wirings of the policy's own passes. */
  datatype World = World(m: M.World, s: S.World, wired: nat)

  /** Both halves are one record: a write of one half takes unwritten changes of the other along, and one that changes
      nothing brings the other up to what is stored. Which of it happened is an input. */
  datatype Tie = Apart | Taken | Refreshed

  datatype Inputs = Inputs(part: M.Inputs, share: S.Inputs, partTie: Tie, shareTie: Tie)

  function TiedPart(t: Tie, w: M.World): M.World {
    match t
    case Apart => w
    case Taken => w.(rec := w.mem)
    case Refreshed => w.(mem := w.rec)
  }

  function TiedShare(t: Tie, self: string, w: S.World): S.World {
    match t
    case Apart => w
    case Taken => S.Saved(w, self)
    case Refreshed => w.(mem := S.RecordOf(w, self))
  }

  // ----- a pass -----

  datatype End = Died | Parted(part: M.End) | Shared(phase: S.TargetPhase, err: bool)

  datatype Step = Step(m: M.World, s: S.World, end: End)

  /** Whether the sharing request itself can be served; without one there is nothing to refuse. */
  function Precheck(p: Policy, env: Inputs): S.Precheck {
    if p.mode == S.NoMode then S.Accepts else env.share.precheck
  }

  function Sharings(p: Policy, env: Inputs, ss: S.Script, w: S.World): S.R {
    if p.mode == S.NoMode then
      var r := S.DisableSharing(ss, Share(p), w);
      S.R(r.w, if r.end == S.Died then S.Died else S.Answer(S.TsReady, r.end != S.Going))
    else S.RunSharing(Share(p), env.share, ss, w)
  }

  function SharedEnd(e: S.End): End {
    match e
    case Died => Died
    case Answer(phase, err) => Shared(phase, err)
    case _ => Shared(S.TsFailed, true)
  }

  /** Validation, the sharing request, the partition, and sharing once the partition is ready and its node given back. */
  function RunTarget(p: Policy, env: Inputs, ms: M.Script, ss: S.Script, m: M.World, s: S.World): Step {
    if env.part.valid && Precheck(p, env) == S.CannotTell then Step(m, s, Shared(S.NoTarget, true))
    else if env.part.valid && Precheck(p, env) == S.Refuses then
      var r := S.Rejected(ss, Share(p), s);
      Step(m, r.w, SharedEnd(r.end))
    else
      var r := M.Worked(Part(p), env.part, ms, m);
      if r.end == M.Answer(M.TsReady, false) then
        var q := Sharings(p, env, ss, s);
        Step(r.w, q.w, SharedEnd(q.end))
      else Step(r.w, s, if r.end == M.Died then Died else Parted(r.end))
  }

  predicate GivesBack(e: End) {
    match e
    case Died => false
    case Parted(part) => M.Restores(part)
    case Shared(phase, err) =>
      phase == S.TsFailed || phase == S.TsRejected || phase == S.TsRestored || (phase == S.TsRollbackFailed && !err)
  }

  function Pass(p: Policy, env: Inputs, ms: M.Script, ss: S.Script, w: World): World {
    var r := RunTarget(p, env, ms, ss, w.m.(mem := w.m.rec), S.Loaded(Share(p), w.s));
    var m := TiedPart(env.partTie, r.m);
    var q := if GivesBack(r.end) then M.Logged(M.RestoreSchedulable(ms, 2, m))
             else M.R(m, if r.end == Died then M.Died else M.Going);
    var s := TiedShare(env.shareTie, p.name, r.s);
    var wired := w.wired + if s.applies > w.s.applies then s.applies - w.s.applies else 0;
    if q.end == M.Going && M.At(ms, M.StatusWrite) == M.Does then
      World(q.w.(rec := q.w.mem), S.Saved(s, p.name), wired)
    else World(q.w, s, wired)
  }

  // ----- a rollback of the partition ends both -----

  lemma TieStaysClosed(t: Tie, w: M.World, generation: int)
    requires MigRuns.ClosedTwice(w, generation)
    ensures MigRuns.ClosedTwice(TiedPart(t, w), generation)
  {
  }

  lemma WorkedStaysClosed(p: M.Policy, env: M.Inputs, s: M.Script, w: M.World)
    requires w.mem == w.rec && MigRuns.ClosedAt(w.rec, p.generation)
    ensures var r := M.Worked(p, env, s, w);
            && r.w.applies == w.applies && r.end != M.Answer(M.TsReady, false)
            && (!MigCoverage.WouldQuiesce(p, env, w) ==> MigRuns.ClosedTwice(r.w, p.generation))
  {
    hide M.RunTarget, M.RestoreSchedulable, MigCoverage.WouldQuiesce;
    MigRuns.RestoreStaysClosed(s, 0, w, p.generation);
    MigRuns.ClosedIsNotReady(p, env, s, w);
    if env.valid {
      MigRuns.TargetStaysClosed(p, env, s, w);
      MigRuns.RestoreStaysClosed(s, 1, M.RunTarget(p, env, s, w).w, p.generation);
    }
  }

  lemma RejectedWiresNothing(p: Policy, ss: S.Script, w: S.World)
    ensures S.Rejected(ss, Share(p), w).w.applies == w.applies
  {
    hide S.DisableSharing;
    SharingRuns.DisableWiresNothing(ss, Share(p), w);
  }

  lemma TargetAfterPartition(p: Policy, env: Inputs, ms: M.Script, ss: S.Script, m: M.World, s: S.World)
    requires m.mem == m.rec && MigRuns.ClosedAt(m.rec, p.generation)
    ensures var r := RunTarget(p, env, ms, ss, m, s);
            && r.m.applies == m.applies && r.s.applies == s.applies
            && (!MigCoverage.WouldQuiesce(Part(p), env.part, m) ==> MigRuns.ClosedTwice(r.m, p.generation))
  {
    hide M.Worked, S.Rejected, Sharings, MigCoverage.WouldQuiesce;
    WorkedStaysClosed(Part(p), env.part, ms, m);
    RejectedWiresNothing(p, ss, s);
  }

  /** Once a rollback of the partition is on record for the generation, no pass of it begins a partition apply or wires
      the plugin, and the record stays if no mode switch starts, whatever crashes or fails in either half. */
  lemma PartitionRollbackEndsBoth(p: Policy, env: Inputs, ms: M.Script, ss: S.Script, w: World)
    requires MigRuns.ClosedAt(w.m.rec, p.generation)
    ensures var w' := Pass(p, env, ms, ss, w);
            && w'.m.applies == w.m.applies && w'.wired == w.wired
            && (!MigCoverage.WouldQuiesce(Part(p), env.part, w.m) ==> MigRuns.ClosedAt(w'.m.rec, p.generation))
  {
    hide RunTarget, M.RestoreSchedulable, MigCoverage.WouldQuiesce;
    var m, s := w.m.(mem := w.m.rec), S.Loaded(Share(p), w.s);
    TargetAfterPartition(p, env, ms, ss, m, s);
    assert MigCoverage.WouldQuiesce(Part(p), env.part, m) == MigCoverage.WouldQuiesce(Part(p), env.part, w.m) by {
      CopyDecidesNothing(Part(p), env.part, w.m, m);
    }
    var r := RunTarget(p, env, ms, ss, m, s);
    if !MigCoverage.WouldQuiesce(Part(p), env.part, w.m) { TieStaysClosed(env.partTie, r.m, p.generation); }
    MigRuns.RestoreStaysClosed(ms, 2, TiedPart(env.partTie, r.m), p.generation);
  }

  lemma CopyDecidesNothing(p: M.Policy, env: M.Inputs, a: M.World, b: M.World)
    requires b == a.(mem := b.mem)
    ensures MigCoverage.WouldQuiesce(p, env, a) == MigCoverage.WouldQuiesce(p, env, b)
    ensures MigCoverage.WouldCreate(p, env, a) == MigCoverage.WouldCreate(p, env, b)
  {
  }

  // ----- a rollback of sharing ends sharing -----

  predicate ShareClosed(w: S.World, name: string, generation: int) {
    S.Closed(S.RecordOf(w, name), generation)
  }

  predicate ShareClosedTwice(w: S.World, name: string, generation: int) {
    ShareClosed(w, name, generation) && S.Closed(w.mem, generation)
  }

  lemma SharingsStayClosed(p: Policy, env: Inputs, ss: S.Script, w: S.World)
    requires ShareClosedTwice(w, p.name, p.generation)
    ensures var r := Sharings(p, env, ss, w).w; r.applies == w.applies && ShareClosedTwice(r, p.name, p.generation)
    ensures var r := S.Rejected(ss, Share(p), w).w; r.applies == w.applies && ShareClosedTwice(r, p.name, p.generation)
  {
    hide S.DisableSharing, S.ReleaseDaemon, S.ApplySharing, S.EnsureDaemon;
    SharingRuns.DisableKeepsClosed(ss, Share(p), w, p.generation);
    SharingRuns.ReleaseRecords(ss, 0, p.name, w);
  }

  /** Once a rollback of sharing is on record for the generation, no pass of it wires the plugin again, and the record
      stays, whatever the partition does meanwhile. */
  lemma SharingRollbackEndsSharing(p: Policy, env: Inputs, ms: M.Script, ss: S.Script, w: World)
    requires ShareClosed(w.s, p.name, p.generation)
    ensures var w' := Pass(p, env, ms, ss, w); w'.wired == w.wired && ShareClosed(w'.s, p.name, p.generation)
  {
    hide M.Worked, S.Rejected, Sharings, M.RestoreSchedulable;
    var s := S.Loaded(Share(p), w.s);
    SharingsStayClosed(p, env, ss, s);
  }

  // ----- but not the partition -----

  /** Some pass with these observations begins a partition apply if and only if the partition asks for one and the sharing
      request can be served: a rollback of sharing on record does not matter. */
  lemma PartitionAppliesIff(p: Policy, env: Inputs, w: World)
    ensures (exists ms: M.Script, ss: S.Script :: Pass(p, env, ms, ss, w).m.applies != w.m.applies)
       <==> MigCoverage.WouldCreate(Part(p), env.part, w.m) && (p.mode == S.NoMode || env.share.precheck == S.Accepts)
  {
    hide Pass, MigCoverage.WouldCreate;
    if MigCoverage.WouldCreate(Part(p), env.part, w.m) && Precheck(p, env) == S.Accepts {
      BeginsApply(p, env, w);
    } else {
      forall ms: M.Script, ss: S.Script ensures Pass(p, env, ms, ss, w).m.applies == w.m.applies {
        BeginsNoApply(p, env, ms, ss, w);
      }
    }
  }

  lemma BeginsApply(p: Policy, env: Inputs, w: World)
    requires MigCoverage.WouldCreate(Part(p), env.part, w.m) && Precheck(p, env) == S.Accepts
    ensures Pass(p, env, MigRuns.CUT_IN_APPLY, S.UNDISTURBED, w).m.applies == w.m.applies + 1
  {
    hide M.RunTarget, Sharings, S.Rejected, M.RestoreSchedulable;
    assert env.part.valid by { Validated(p, env, w); }
    MigRuns.CreatesUpToCut(Part(p), env.part, w.m);
  }

  lemma Validated(p: Policy, env: Inputs, w: World)
    requires MigCoverage.WouldCreate(Part(p), env.part, w.m)
    ensures env.part.valid
  {
  }

  lemma TargetBeginsNothing(p: Policy, env: Inputs, ms: M.Script, ss: S.Script, m: M.World, s: S.World)
    requires m.mem == m.rec && !(MigCoverage.WouldCreate(Part(p), env.part, m) && Precheck(p, env) == S.Accepts)
    ensures RunTarget(p, env, ms, ss, m, s).m.applies == m.applies
  {
    hide M.RunTarget, Sharings, S.Rejected, M.RestoreSchedulable, MigCoverage.WouldCreate;
    MigCoverage.RestoreMakesNothing(ms, 0, m);
    if env.part.valid && Precheck(p, env) == S.Accepts {
      MigRuns.TargetAppliesNothing(Part(p), env.part, ms, m);
      MigCoverage.RestoreMakesNothing(ms, 1, M.RunTarget(Part(p), env.part, ms, m).w);
    }
  }

  lemma BeginsNoApply(p: Policy, env: Inputs, ms: M.Script, ss: S.Script, w: World)
    requires !(MigCoverage.WouldCreate(Part(p), env.part, w.m) && Precheck(p, env) == S.Accepts)
    ensures Pass(p, env, ms, ss, w).m.applies == w.m.applies
  {
    hide RunTarget, M.RestoreSchedulable, MigCoverage.WouldCreate;
    var m, s := w.m.(mem := w.m.rec), S.Loaded(Share(p), w.s);
    CopyDecidesNothing(Part(p), env.part, w.m, m);
    TargetBeginsNothing(p, env, ms, ss, m, s);
    MigCoverage.RestoreMakesNothing(ms, 2, TiedPart(env.partTie, RunTarget(p, env, ms, ss, m, s).m));
  }

  /** A generation whose sharing was rolled back applies its partition again, for instance after a boot took the instances
      of a ready policy. */
  lemma SharingRollbackLeavesPartition()
    ensures exists p: Policy, env: Inputs, ms: M.Script, ss: S.Script, w: World ::
              && ShareClosed(w.s, p.name, p.generation) && w.m.rec.phase == M.Ready && w.m.rec.generation == p.generation
              && MigRuns.Truthful(env.part, w.m)
              && Pass(p, env, ms, ss, w).m.applies == w.m.applies + 1
  {
    hide Pass;
    var p := Policy("a", "u", 1, "1g", 2, S.TimeSliced, 4);
    var g := M.Gpu(M.Enabled, M.Enabled, M.NoInstances);
    var r := M.Record("u", ["x"], M.Ready, 1, false, 0, 0, "1g", 2, 1, 2, 0);
    var m := M.World(r, r, map["x" := g], "u", M.Nobody, false, {}, 0, 0, 1);
    var shared := S.Record(S.NoMode, 0, 1, 1);
    var w := World(m, S.World(map["a" := shared], shared, S.None, "", false, false, 1), 1);
    var part := M.Inputs([M.MigDevice("x", M.Enabled, M.Enabled, M.NoInstances, false)], true, true, true, false, true, 1, 1, false,
                         M.Converged, map[], {}, {});
    var env := Inputs(part, S.Inputs(1, S.Accepts, S.Accepts, true, {}, true, true, false), Apart, Apart);
    assert part.targets[0].pci == "x" && part.targets[0].geometry != M.Uniform("1g", 2);
    assert MigCoverage.WouldCreate(Part(p), part, m);
    BeginsApply(p, env, w);
  }

  // ----- what an undisturbed pass makes of sharing -----

  /** A sharing request that is refused up front takes sharing away, leaves the partition alone and gives the node back. */
  lemma RefusedGivesUp(p: Policy, env: Inputs, w: World)
    requires env.part.valid && p.mode != S.NoMode && env.share.precheck == S.Refuses && env.partTie == Apart && env.shareTie == Apart
    requires S.RecordOf(w.s, p.name).mode != S.NoMode && S.ConfigFree(w.s, p.name)
    ensures var w' := Pass(p, env, M.UNDISTURBED, S.UNDISTURBED, w);
            && SharingOutcomes.Bared(w'.s, p.name)
            && w'.m.gpus == w.m.gpus && w'.m.made == w.m.made && w'.m.rec == w.m.rec.(cordoned := false)
            && !w'.m.job && (w.m.rec.cordoned ==> w'.m.cordon == M.Nobody)
  {
    hide S.DisableSharing, M.RestoreSchedulable, S.ConfigFree;
    var s0 := S.Loaded(Share(p), w.s);
    SharingRuns.SameConfigFree(w.s, s0, p.name);
    SharingOutcomes.DisableBaresAll(Share(p), s0);
    RestoreUndisturbed(2, w.m.(mem := w.m.rec));
  }

  lemma RestoreUndisturbed(call: nat, w: M.World)
    requires w.mem == w.rec
    ensures var r := M.RestoreSchedulable(M.UNDISTURBED, call, w);
            && r.end == M.Going && r.w.mem == r.w.rec && r.w.rec == w.rec.(cordoned := false) && !r.w.job
            && r.w.cordon == (if w.rec.cordoned then M.Nobody else w.cordon) && r.w.gpus == w.gpus && r.w.made == w.made
  {
  }

  /** A policy that no longer asks for sharing loses it once its partition is ready, whatever a precheck would have said. */
  lemma ReadyWithoutRequestIsBared(p: Policy, env: Inputs, w: World)
    requires p.mode == S.NoMode && env.partTie == Apart && env.shareTie == Apart
    requires M.Worked(Part(p), env.part, M.UNDISTURBED, w.m.(mem := w.m.rec)).end == M.Answer(M.TsReady, false)
    requires S.RecordOf(w.s, p.name).mode != S.NoMode && S.ConfigFree(w.s, p.name)
    ensures var w' := Pass(p, env, M.UNDISTURBED, S.UNDISTURBED, w); SharingOutcomes.Bared(w'.s, p.name) && w'.wired == w.wired
  {
    hide S.DisableSharing, M.RestoreSchedulable, M.Worked, S.ConfigFree;
    var s0 := S.Loaded(Share(p), w.s);
    SharingRuns.SameConfigFree(w.s, s0, p.name);
    SharingOutcomes.DisableBaresAll(Share(p), s0);
    SharingRuns.DisableWiresNothing(S.UNDISTURBED, Share(p), s0);
  }

  /** A pass that ends sharing without success, but for a failed rollback, gives the node back. */
  lemma UnsharedGivesBack(p: Policy, env: Inputs, ms: M.Script, ss: S.Script, w: World)
    requires var r := RunTarget(p, env, ms, ss, w.m.(mem := w.m.rec), S.Loaded(Share(p), w.s));
             r.end.Shared? && (r.end.phase == S.TsRestored || r.end.phase == S.TsRejected || r.end.phase == S.TsFailed)
    requires M.At(ms, M.DeleteJob(2)) == M.Does && env.partTie == Apart
    ensures !Pass(p, env, ms, ss, w).m.job
  {
    hide RunTarget;
  }

  // ----- runs -----

  /** Outside: a boot, an expiring Job, an operator. Other: a pass or the removal of another policy that shares. */
  datatype Event =
    | PassOf(p: Policy, env: Inputs, ms: M.Script, ss: S.Script)
    | Outside(e: MigRuns.Event)
    | Other(o: SharingRuns.Event)

  function Next(w: World, e: Event): World {
    match e
    case PassOf(p, env, ms, ss) => Pass(p, env, ms, ss, w)
    case Outside(e) => w.(m := MigRuns.Next(w.m, e))
    case Other(o) => w.(s := SharingRuns.Next(w.s, o))
  }

  function Run(w: World, events: seq<Event>): World {
    if events == [] then w else Next(Run(w, events[..|events| - 1]), events[|events| - 1])
  }

  predicate Own(name: string, generation: int, e: Event) {
    match e
    case PassOf(p, _, _, _) => p.name == name && p.generation == generation
    case Outside(e) => !e.PassOf?
    case Other(o) => o.p.name != name
  }

  /** A run of one policy in one generation. */
  predicate OwnRun(name: string, generation: int, events: seq<Event>) {
    forall i :: 0 <= i < |events| ==> Own(name, generation, events[i])
  }

  predicate Switches(w: World, e: Event) {
    e.PassOf? && MigCoverage.WouldQuiesce(Part(e.p), e.env.part, w.m)
  }

  predicate NoSwitch(w: World, events: seq<Event>) {
    forall i :: 0 <= i < |events| ==> !Switches(Run(w, events[..i]), events[i])
  }

  /** After a journaled rollback of the partition neither a partition apply nor a wiring of the policy begins, while the
      generation lasts and no mode switch starts. */
  lemma {:induction false} NeitherAppliesAgain(name: string, generation: int, w: World, events: seq<Event>)
    requires MigRuns.ClosedAt(w.m.rec, generation) && OwnRun(name, generation, events) && NoSwitch(w, events)
    ensures var w' := Run(w, events);
            w'.m.applies == w.m.applies && w'.wired == w.wired && MigRuns.ClosedAt(w'.m.rec, generation)
  {
    hide Pass, Switches, SharingRuns.Next;
    if events != [] {
      var k := |events| - 1;
      forall i | 0 <= i < k ensures !Switches(Run(w, events[..k][..i]), events[..k][i]) {
        assert events[..k][..i] == events[..i] && events[..k][i] == events[i];
      }
      NeitherAppliesAgain(name, generation, w, events[..k]);
      var v := Run(w, events[..k]);
      var e := events[k];
      assert Own(name, generation, e) && !Switches(v, e);
      if e.PassOf? {
        PartitionRollbackEndsBoth(e.p, e.env, e.ms, e.ss, v);
        assert !MigCoverage.WouldQuiesce(Part(e.p), e.env.part, v.m) by { DoesNotSwitch(v, e); }
      }
    }
  }

  lemma DoesNotSwitch(w: World, e: Event)
    requires e.PassOf? && !Switches(w, e)
    ensures !MigCoverage.WouldQuiesce(Part(e.p), e.env.part, w.m)
  {
  }

  /** After a journaled rollback of sharing no wiring of the policy begins while the generation lasts, mode switches and
      partition applies included. */
  lemma {:induction false} SharingNeverAppliesAgain(name: string, generation: int, w: World, events: seq<Event>)
    requires ShareClosed(w.s, name, generation) && OwnRun(name, generation, events)
    ensures Run(w, events).wired == w.wired && ShareClosed(Run(w, events).s, name, generation)
  {
    hide Pass, SharingRuns.Next, MigRuns.Next;
    if events != [] {
      var k := |events| - 1;
      SharingNeverAppliesAgain(name, generation, w, events[..k]);
      var v := Run(w, events[..k]);
      var e := events[k];
      assert Own(name, generation, e);
      match e {
        case PassOf(p, env, ms, ss) => SharingRollbackEndsSharing(p, env, ms, ss, v);
        case Outside(_) =>
        case Other(o) => OthersKeepClosed(name, generation, v.s, o);
      }
    }
  }

  lemma OthersKeepClosed(name: string, generation: int, w: S.World, o: SharingRuns.Event)
    requires o.p.name != name && ShareClosed(w, name, generation)
    ensures ShareClosed(SharingRuns.Next(w, o), name, generation)
  {
    hide S.Pass, S.Removal;
    if o.PassOf? {
      SharingRuns.PassSpares(o.p, o.env, o.s, w);
    } else {
      SharingRuns.RemovalSpares(o.p, o.s, w);
    }
  }
}
