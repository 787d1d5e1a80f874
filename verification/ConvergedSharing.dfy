/** The same gate in front of a sharing-only pass, over the cluster-wide configuration and the MPS daemon of module
    SharingModel, with any number of other policies at work. */
module ConvergedSharing {
  import opened SharingModel
  import opened Sharing
  import SharingRuns
  import C = Converged

  /** What the cluster stores, and the status of one policy. */
  datatype Stored = Stored(w: World, st: C.Status)

  /** graded: the evidence gathered for a ready policy has a grade; conditions: what the applying path writes. */
  datatype Turn = Turn(p: Policy, env: Inputs, s: Script, look: C.Look, graded: bool, conditions: seq<C.Condition>)

  function StatusPhase(t: Turn, e: End): C.Phase {
    if e.Answer? && e.phase == TsReady && (e.err || t.graded) then C.Ready else C.Elsewhere
  }

  /** A whole pass: the gate, the target, the status write. */
  function Pass(t: Turn, x: Stored): Stored {
    var g := t.p.generation;
    var w := Loaded(t.p, x.w);
    var r := if t.look.lostConflict || !C.ShouldReverify(x.st, g) then R(w, Going) else RunSharingOnly(t.p, t.env, t.s, w);
    if r.end != Died && At(t.s, StatusWrite) == Does then
      Stored(Saved(r.w, t.p.name), C.Reconcile(x.st, g, t.look, C.Status(StatusPhase(t, r.end), t.conditions, g)))
    else Stored(r.w, x.st)
  }

  /** Where the gate is open a pass is the pass of the run theorems. */
  lemma OpenGateIsPass(t: Turn, x: Stored)
    requires C.ShouldReverify(x.st, t.p.generation) && !t.look.lostConflict
    ensures Pass(t, x).w == SharingModel.Pass(t.p, t.env, t.s, x.w)
  {
    hide RunSharingOnly;
  }

  /** A policy becomes Ready exactly when its pass reports it so and the evidence has a grade; otherwise it is tried again. */
  lemma BecomesReadyIff(t: Turn, x: Stored)
    requires C.ShouldReverify(x.st, t.p.generation) && !t.look.lostConflict && At(t.s, StatusWrite) == Does
    requires PassEnd(t.p, t.env, t.s, x.w).end.Answer?
    ensures var e := PassEnd(t.p, t.env, t.s, x.w).end;
            && (Pass(t, x).st.phase == C.Ready <==> e.phase == TsReady && (t.graded || e.err))
            && (Pass(t, x).st.phase != C.Ready ==> C.ShouldReverify(Pass(t, x).st, t.p.generation))
  {
    hide RunSharingOnly;
  }

  // ----- one pass -----

  /** Records, configuration, wiring, daemon and every count are as they were; only the pass's own copy is new. */
  predicate Untouched(a: World, b: World) {
    b == a.(mem := b.mem, sawReady := b.sawReady)
  }

  lemma SettledPass(t: Turn, x: Stored)
    requires C.Settled(x.st, t.p.generation) && !t.look.lostConflict
    ensures Untouched(x.w, Pass(t, x).w) && C.Settled(Pass(t, x).st, t.p.generation)
  {
    hide C.Monitor;
    MonitorStays(x.st, t.p.generation, t.look);
    var w := Loaded(t.p, x.w);
    assert Saved(w, t.p.name).recs == x.w.recs;
  }

  lemma MonitorStays(st: C.Status, generation: int, l: C.Look)
    requires st.phase != C.Elsewhere
    ensures C.Monitor(st, generation, l).phase != C.Elsewhere
  {
    hide C.SetCond, C.Evaluate;
  }

  /** An exclusive policy with nothing journaled, and no daemon it would have to take away. */
  predicate Idle(p: Policy, w: World) {
    p.mode == NoMode && RecordOf(w, p.name).mode == NoMode && (w.daemon ==> OthersUseMps(w.recs, p.name))
  }

  lemma IdlePass(t: Turn, x: Stored)
    requires Idle(t.p, x.w)
    ensures Untouched(x.w, Pass(t, x).w)
  {
    hide OthersUseMps, C.Reconcile;
    var w := Loaded(t.p, x.w);
    assert ReleaseDaemon(t.s, 3, t.p.name, w).w == w;
    assert Saved(w, t.p.name).recs == x.w.recs;
  }

  /** Whatever a pass sees, and wherever it is cut off or disturbed, it leaves records, configuration, wiring and daemon
      alone, if and only if the stored status has converged on the generation, or the policy asks for exclusive devices
      and has nothing to take back. */
  lemma PassLeavesAloneIff(p: Policy, x: Stored)
    ensures (forall t: Turn :: t.p == p && !t.look.lostConflict ==> Untouched(x.w, Pass(t, x).w))
       <==> C.Settled(x.st, p.generation) || Idle(p, x.w)
  {
    hide Pass, Untouched, Idle;
    if C.Settled(x.st, p.generation) || Idle(p, x.w) {
      forall t: Turn | t.p == p && !t.look.lostConflict ensures Untouched(x.w, Pass(t, x).w) {
        if Idle(p, x.w) { IdlePass(t, x); } else { SettledPass(t, x); }
      }
    } else {
      var t := Meddling(p, x);
      OpenGateIsPass(t, x);
      Meddles(p, x);
    }
  }

  const CALM := C.Look(0, 0, true, false, false, false, false)

  /** A pass that takes back what is journaled, or journals another base where nothing is. */
  function Meddling(p: Policy, x: Stored): Turn {
    var r := RecordOf(x.w, p.name);
    var base := if r.baseline > 0 then r.baseline + 1 else 1;
    Turn(p, Inputs(base, if r.mode == NoMode then Accepts else Refuses, CannotTell, true, {}, true, true, false),
         UNDISTURBED, CALM, true, [])
  }

  lemma Meddles(p: Policy, x: Stored)
    requires !Idle(p, x.w)
    ensures var t := Meddling(p, x); !Untouched(x.w, SharingModel.Pass(p, t.env, t.s, x.w))
  {
    hide OthersUseMps;
    var t := Meddling(p, x);
    if RecordOf(x.w, p.name).mode != NoMode {
      TakesRecordBack(p, t.env, x.w);
    } else if p.mode != NoMode {
      JournalsBase(p, t.env, x.w);
    } else {
      TakesDaemon(p, t.env, x.w);
    }
  }

  lemma TakesRecordBack(p: Policy, env: Inputs, w: World)
    requires RecordOf(w, p.name).mode != NoMode && env.precheck == Refuses
    ensures !Untouched(w, SharingModel.Pass(p, env, UNDISTURBED, w))
  {
    hide RollbackSharing, ReleaseDaemon;
    var w0 := Loaded(p, w);
    SharingRuns.RollbackRecords(UNDISTURBED, p.name, Before(None), w0);
    var u := RollbackSharing(UNDISTURBED, p.name, Before(None), w0).w;
    var v := Logged(Patch(UNDISTURBED, RestoreRecord, p.name, u, u.mem.(mode := NoMode, replicas := 0))).w;
    SharingRuns.ReleaseRecords(UNDISTURBED, 3, p.name, v);
    assert DisableSharing(UNDISTURBED, p, w0).w.mem.mode == NoMode;
    var w' := SharingModel.Pass(p, env, UNDISTURBED, w);
    assert p.name in w'.recs && w'.recs[p.name].mode == NoMode;
  }

  lemma JournalsBase(p: Policy, env: Inputs, w: World)
    requires p.mode != NoMode && RecordOf(w, p.name).mode == NoMode && env.precheck == Accepts && env.again == CannotTell
    requires env.allocatable > 0 && env.allocatable != RecordOf(w, p.name).baseline
    ensures !Untouched(w, SharingModel.Pass(p, env, UNDISTURBED, w))
  {
    var w' := SharingModel.Pass(p, env, UNDISTURBED, w);
    assert p.name in w'.recs && w'.recs[p.name].baseline == env.allocatable;
  }

  lemma TakesDaemon(p: Policy, env: Inputs, w: World)
    requires p.mode == NoMode && RecordOf(w, p.name).mode == NoMode && w.daemon && !OthersUseMps(w.recs, p.name)
    ensures !Untouched(w, SharingModel.Pass(p, env, UNDISTURBED, w))
  {
    hide OthersUseMps;
  }

  // ----- runs -----

  /** Other: a pass or the removal of another policy. */
  datatype Happening = Turned(t: Turn) | Other(e: SharingRuns.Event)

  function Next(x: Stored, h: Happening): Stored {
    match h
    case Turned(t) => Pass(t, x)
    case Other(e) => x.(w := SharingRuns.Next(x.w, e))
  }

  function Run(x: Stored, hs: seq<Happening>): Stored {
    if hs == [] then x else Next(Run(x, hs[..|hs| - 1]), hs[|hs| - 1])
  }

  /** What happened besides the passes of the policy. */
  function Others(hs: seq<Happening>): seq<SharingRuns.Event> {
    if hs == [] then []
    else
      var k := |hs| - 1;
      Others(hs[..k]) + if hs[k].Other? then [hs[k].e] else []
  }

  predicate Undisputed(generation: int, h: Happening) {
    h.Turned? ==> h.t.p.generation == generation && !h.t.look.lostConflict
  }

  /** A converged policy is invisible to the others: over any run in which its generation stays and it loses no
      conflict, the cluster is what it would have been without any of its passes, and its status stays converged. */
  lemma {:induction false} ConvergedIsInvisible(x: Stored, generation: int, hs: seq<Happening>)
    requires C.Settled(x.st, generation)
    requires forall i :: 0 <= i < |hs| ==> Undisputed(generation, hs[i])
    ensures Untouched(SharingRuns.RunFrom(x.w, Others(hs)), Run(x, hs).w)
    ensures C.Settled(Run(x, hs).st, generation)
  {
    hide Pass, SharingRuns.Next, C.Settled;
    if hs != [] {
      var k := |hs| - 1;
      ConvergedIsInvisible(x, generation, hs[..k]);
      assert Undisputed(generation, hs[k]);
      var y := Run(x, hs[..k]);
      match hs[k] {
        case Turned(t) =>
          assert Others(hs) == Others(hs[..k]);
          SettledPass(t, y);
        case Other(e) =>
          assert Others(hs)[..|Others(hs)| - 1] == Others(hs[..k]);
          CopyIsPrivate(SharingRuns.RunFrom(x.w, Others(hs[..k])), y.w, e);
      }
    }
  }

  /** Every pass loads its own copy. */
  lemma CopyIsPrivate(a: World, b: World, e: SharingRuns.Event)
    requires Untouched(a, b)
    ensures Untouched(SharingRuns.Next(a, e), SharingRuns.Next(b, e))
  {
    hide RunSharingOnly, RollbackSharing, ReleaseDaemon;
    assert Loaded(e.p, a) == Loaded(e.p, b);
  }
}
