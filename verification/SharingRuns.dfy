/** Runs of any number of sharing policies, and the life of the cluster-wide MPS daemon. */
module SharingRuns {
  import opened SharingModel
  import opened Sharing

  datatype Event = PassOf(p: Policy, env: Inputs, s: Script) | RemovalOf(p: Policy, s: Script)

  const EMPTY := World(map[], NO_RECORD, None, "", false, false, 0)

  function Next(w: World, e: Event): World {
    match e
    case PassOf(p, env, s) => Pass(p, env, s, w)
    case RemovalOf(p, s) => Removal(p, s, w)
  }

  function Run(events: seq<Event>): World {
    if events == [] then EMPTY else Next(Run(events[..|events| - 1]), events[|events| - 1])
  }

  // ----- the base over runs -----

  /** GPUs of the node each policy targets. */
  type Nodes = map<string, int>

  function Physical(nodes: Nodes, name: string): int {
    if name in nodes && nodes[name] > 0 then nodes[name] else 1
  }

  /** Passes read their node honestly, and not under another policy's configuration with nothing journaled. */
  predicate FairEvent(nodes: Nodes, w: World, e: Event) {
    e.p.name != "" && (e.PassOf? ==> Fair(e.p, e.env, w, Physical(nodes, e.p.name)))
  }

  predicate FairRun(nodes: Nodes, events: seq<Event>) {
    forall i :: 0 <= i < |events| ==> FairEvent(nodes, Run(events[..i]), events[i])
  }

  /** The pass abandons the policy's first configuration, cannot take it back, and forgets it all the same. */
  predicate ForgetsAt(w: World, e: Event) {
    e.PassOf? && Forgets(e.p, e.env, e.s, w)
  }

  predicate Remembers(events: seq<Event>) {
    forall i :: 0 <= i < |events| ==> !ForgetsAt(Run(events[..i]), events[i])
  }

  ghost predicate AllSound(nodes: Nodes, w: World) {
    Tidy(w) && forall n: string :: Sound(w, n, Physical(nodes, n))
  }

  lemma NextSoundIff(nodes: Nodes, w: World, e: Event)
    requires AllSound(nodes, w) && FairEvent(nodes, w, e)
    ensures AllSound(nodes, Next(w, e)) <==> !ForgetsAt(w, e)
  {
    hide Pass, Removal, Fair, Forgets;
    var name := e.p.name;
    assert Sound(w, name, Physical(nodes, name));
    if e.PassOf? {
      PassSoundIff(e.p, e.env, e.s, w, Physical(nodes, name));
    } else {
      RemovalSound(e.p, e.s, w, Physical(nodes, name));
    }
    var w' := Next(w, e);
    forall n: string | n != name ensures Sound(w', n, Physical(nodes, n)) {
      assert Sound(w, n, Physical(nodes, n));
    }
  }

  lemma {:induction false} RememberingRunSound(nodes: Nodes, events: seq<Event>)
    requires FairRun(nodes, events) && Remembers(events)
    ensures AllSound(nodes, Run(events))
  {
    hide Next, FairEvent, ForgetsAt, Sound;
    if events == [] {
      forall n: string ensures Sound(EMPTY, n, Physical(nodes, n)) { EmptySound(nodes, n); }
    } else {
      var k := |events| - 1;
      Prefix(nodes, events, k);
      RememberingRunSound(nodes, events[..k]);
      NextSoundIff(nodes, Run(events[..k]), events[k]);
    }
  }

  lemma Prefix(nodes: Nodes, events: seq<Event>, k: nat)
    requires k <= |events| && FairRun(nodes, events)
    ensures FairRun(nodes, events[..k])
    ensures (forall i :: 0 <= i < k ==> !ForgetsAt(Run(events[..i]), events[i])) ==> Remembers(events[..k])
    ensures k < |events| ==> FairEvent(nodes, Run(events[..k]), events[k])
  {
    hide FairEvent, ForgetsAt, Run;
    forall i | 0 <= i < k ensures events[..k][..i] == events[..i] && events[..k][i] == events[i] {}
  }

  lemma EmptySound(nodes: Nodes, n: string)
    ensures Sound(EMPTY, n, Physical(nodes, n))
  {
  }

  /** In a run of any policies, with edits, rollbacks, disables, removals, and a failure or crash at any call, journal and
      configuration stay consistent throughout if and only if no pass forgets a configuration it could not take back. */
  lemma SoundThroughoutIff(nodes: Nodes, events: seq<Event>)
    requires FairRun(nodes, events)
    ensures (forall i :: 0 <= i <= |events| ==> AllSound(nodes, Run(events[..i]))) <==> Remembers(events)
  {
    hide Next, FairEvent, ForgetsAt, AllSound, Run;
    if Remembers(events) {
      forall i | 0 <= i <= |events| ensures AllSound(nodes, Run(events[..i])) {
        Prefix(nodes, events, i);
        RememberingRunSound(nodes, events[..i]);
      }
    } else {
      var i :| 0 <= i < |events| && ForgetsAt(Run(events[..i]), events[i]);
      Prefix(nodes, events, i);
      if AllSound(nodes, Run(events[..i])) {
        NextSoundIff(nodes, Run(events[..i]), events[i]);
        OneMore(events, i);
      }
    }
  }

  lemma OneMore(events: seq<Event>, i: nat)
    requires i < |events|
    ensures Run(events[..i + 1]) == Next(Run(events[..i]), events[i])
  {
    hide Next;
    assert events[..i + 1][..i] == events[..i];
  }

  /** In such a run the base a pass goes on with is the physical count of its node, never a multiplied one. */
  lemma BaseStaysPhysical(nodes: Nodes, events: seq<Event>, p: Policy, env: Inputs, s: Script)
    requires FairRun(nodes, events) && Remembers(events)
    requires p.mode != NoMode && FairEvent(nodes, Run(events), PassOf(p, env, s))
    ensures var r := BaseOf(p, env, s, Run(events)); r.end == Going ==> r.w.mem.baseline == Physical(nodes, p.name)
  {
    RememberingRunSound(nodes, events);
    assert Sound(Run(events), p.name, Physical(nodes, p.name));
  }

  // ----- another policy's configuration poisons the journal -----

  const A := Policy("a", 1, TimeSliced, 4)
  const B := Policy("b", 1, TimeSliced, 4)

  function Reading(n: int): Inputs {
    Inputs(n, Accepts, Accepts, true, {}, true, true, false)
  }

  const AFTER_B := World(map["b" := Record(TimeSliced, 4, 2, 0)], Record(TimeSliced, 4, 2, 0),
                         Some(Config("b", TimeSliced, 4)), "b", false, false, 1)

  lemma FirstPolicyApplies()
    ensures Pass(B, Reading(2), UNDISTURBED, EMPTY) == AFTER_B
  {
    var w0 := Loaded(B, EMPTY);
    var w1 := w0.(mem := Record(NoMode, 0, 2, 0), recs := map["b" := Record(NoMode, 0, 2, 0)]);
    assert SharingOnlyBase(B, Reading(2), UNDISTURBED, w0) == R(w1, Going);
    assert ApplySharing(B, Reading(2), UNDISTURBED, w1) == R(AFTER_B, Answer(TsReady, false));
    assert RunSharing(B, Reading(2), UNDISTURBED, w1) == R(AFTER_B, Answer(TsReady, false));
  }

  const CUT: Script := map[RestoreRecord := Dies]

  lemma SecondPolicyIsCut()
    ensures Pass(A, Reading(8), CUT, AFTER_B).recs == AFTER_B.recs["a" := Record(TimeSliced, 4, 8, 0)]
    ensures Pass(A, Reading(8), CUT, AFTER_B).config == AFTER_B.config && Pass(A, Reading(8), CUT, AFTER_B).wiredBy == "b"
    ensures Pass(A, Reading(8), CUT, AFTER_B).daemon == false
  {
    var w0 := Loaded(A, AFTER_B);
    var w1 := w0.(mem := Record(NoMode, 0, 8, 0), recs := w0.recs["a" := Record(NoMode, 0, 8, 0)]);
    assert SharingOnlyBase(A, Reading(8), CUT, w0) == R(w1, Going);
    var w2 := w1.(mem := Record(TimeSliced, 4, 8, 0), recs := w1.recs["a" := Record(TimeSliced, 4, 8, 0)]);
    assert Patch(CUT, JournalSharing, "a", w1, w1.mem.(mode := TimeSliced, replicas := 4)) == R(w2, Going);
    assert PutConfig(CUT, WriteConfig, A, Reading(8), w2) == R(w2, Answer(NoTarget, true));
    assert RunSharing(A, Reading(8), CUT, w1) == R(w2, Died);
    assert w2.recs == AFTER_B.recs["a" := Record(TimeSliced, 4, 8, 0)];
  }

  lemma FirstPolicyLeaves(w: World)
    requires w.config == AFTER_B.config && w.wiredBy == "b" && !w.daemon
    requires w.recs == AFTER_B.recs["a" := Record(TimeSliced, 4, 8, 0)]
    ensures Removal(B, UNDISTURBED, w).recs == map["a" := Record(TimeSliced, 4, 8, 0)]
    ensures Removal(B, UNDISTURBED, w).config == None
  {
    assert w.recs - {"b"} == map["a" := Record(TimeSliced, 4, 8, 0)];
  }

  /** Without the foreign-read condition the promise fails: a policy that read the node under another policy's
      configuration and was cut off before it took its journal back keeps the multiplied count for good. */
  lemma ForeignReadPoisonsBase()
    ensures var w := Run([PassOf(B, Reading(2), UNDISTURBED), PassOf(A, Reading(8), CUT), RemovalOf(B, UNDISTURBED)]);
            && w.config == None && Honest(Reading(2), w, 2)
            && BaseOf(A, Reading(2), UNDISTURBED, w).end == Going
            && BaseOf(A, Reading(2), UNDISTURBED, w).w.mem.baseline == 8
  {
    hide Pass, Removal;
    var e := [PassOf(B, Reading(2), UNDISTURBED), PassOf(A, Reading(8), CUT), RemovalOf(B, UNDISTURBED)];
    FirstPolicyApplies();
    SecondPolicyIsCut();
    FirstPolicyLeaves(Pass(A, Reading(8), CUT, AFTER_B));
    assert e[..2][..1] == e[..1] && e[..1][..0] == [];
    assert Run(e[..1]) == AFTER_B;
    assert Run(e[..2]) == Pass(A, Reading(8), CUT, AFTER_B);
  }

  // ----- a forgotten configuration poisons it as well -----

  const STUCK: Script := map[WirePlugin := Fails, RestoreConfig := Fails]

  const LEFT_BEHIND := World(map["a" := Record(NoMode, 0, 2, 0)], Record(NoMode, 0, 2, 0),
                             Some(Config("a", TimeSliced, 4)), "", false, false, 0)

  lemma FirstApplySticks()
    ensures Pass(A, Reading(2), STUCK, EMPTY) == LEFT_BEHIND
    ensures Forgets(A, Reading(2), STUCK, EMPTY)
  {
    var w0 := Loaded(A, EMPTY);
    var w1 := w0.(mem := Record(NoMode, 0, 2, 0), recs := map["a" := Record(NoMode, 0, 2, 0)]);
    assert SharingOnlyBase(A, Reading(2), STUCK, w0) == R(w1, Going);
    assert ApplySharing(A, Reading(2), STUCK, w1) == R(LEFT_BEHIND, Answer(TsFailed, true));
    assert RunSharing(A, Reading(2), STUCK, w1) == R(LEFT_BEHIND, Answer(TsFailed, true));
  }

  /** A policy whose first wiring fails and whose configuration cannot be taken back journals the multiplied count in its
      next pass, although every reading is honest and no other policy exists. */
  lemma ForgottenConfigPoisonsBase()
    ensures var w := Run([PassOf(A, Reading(2), STUCK)]);
            && ForgetsAt(EMPTY, PassOf(A, Reading(2), STUCK)) && w.config == Some(Config("a", TimeSliced, 4))
            && Fair(A, Reading(2), EMPTY, 2) && Fair(A, Reading(8), w, 2)
            && BaseOf(A, Reading(8), UNDISTURBED, w).end == Going
            && BaseOf(A, Reading(8), UNDISTURBED, w).w.mem.baseline == 8
  {
    hide Pass, Forgets;
    FirstApplySticks();
    var e := [PassOf(A, Reading(2), STUCK)];
    assert e[..0] == [] && Run(e) == LEFT_BEHIND;
  }

  // ----- the daemon -----

  /** Records of the others stay, and the daemon is deleted only when none of them journals mps. */
  ghost predicate Spared(a: World, b: World, self: string) {
    && (forall n :: n != self ==> (n in b.recs <==> n in a.recs) && (n in a.recs ==> b.recs[n] == a.recs[n]))
    && (a.daemon && !b.daemon ==> !OthersUseMps(a.recs, self))
  }

  lemma SparedCompose(self: string)
    ensures forall a :: Spared(a, a, self)
    ensures forall a, b, c :: Spared(a, b, self) && Spared(b, c, self) ==> Spared(a, c, self)
  {
    forall a, b, c | Spared(a, b, self) && Spared(b, c, self) ensures Spared(a, c, self) {
      assert OthersUseMps(a.recs, self) ==> OthersUseMps(b.recs, self);
    }
  }

  lemma PatchSpares(s: Script, site: Site, p: Policy, w: World, r: Record)
    ensures Spared(w, Patch(s, site, p.name, w, r).w, p.name)
  {
  }

  lemma ConfigSpares(s: Script, site: Site, p: Policy, env: Inputs, w: World)
    ensures Spared(w, PutConfig(s, site, p, env, w).w, p.name)
  {
    hide ConfigFree;
  }

  lemma RollbackSpares(s: Script, p: Policy, w: World, b: Before)
    ensures Spared(w, RollbackSharing(s, p.name, b, w).w, p.name)
  {
    hide ConfigFree;
  }

  lemma StepsSpare(s: Script, site: Site, p: Policy, env: Inputs, w: World, r: Record, b: Before)
    ensures Spared(w, Patch(s, site, p.name, w, r).w, p.name)
    ensures Spared(w, PutConfig(s, site, p, env, w).w, p.name)
    ensures Spared(w, RollbackSharing(s, p.name, b, w).w, p.name)
  {
    hide *;
    PatchSpares(s, site, p, w, r);
    ConfigSpares(s, site, p, env, w);
    RollbackSpares(s, p, w, b);
  }

  lemma DaemonSpares(s: Script, p: Policy, env: Inputs, w: World, call: nat, mode: Mode)
    ensures Spared(w, ReleaseDaemon(s, call, p.name, w).w, p.name)
    ensures Spared(w, EnsureDaemon(s, call, mode, p.name, env, w).w, p.name)
  {
    hide OthersUseMps;
  }

  lemma DisableSpares(s: Script, p: Policy, env: Inputs, w: World)
    ensures Spared(w, DisableSharing(s, p, w).w, p.name)
  {
    hide Spared, ReleaseDaemon, RollbackSharing, Patch;
    SparedCompose(p.name);
    var u1 := RollbackSharing(s, p.name, Before(None), w);
    var back := u1.w.mem.(mode := NoMode, replicas := 0);
    StepsSpare(s, RestoreRecord, p, env, w, back, Before(None));
    StepsSpare(s, RestoreRecord, p, env, u1.w, back, Before(None));
    DaemonSpares(s, p, env, w, 3, NoMode);
    DaemonSpares(s, p, env, Patch(s, RestoreRecord, p.name, u1.w, back).w, 3, NoMode);
  }

  lemma FailedSpares(s: Script, p: Policy, env: Inputs, w: World, prior: Record, b: Option<Before>)
    ensures Spared(w, ApplyFailed(s, p, w, prior, b).w, p.name)
  {
    hide Spared, RollbackSharing, Patch;
    SparedCompose(p.name);
    var b0 := if b.Some? then b.value else Before(None);
    var w1 := if b.Some? then RollbackSharing(s, p.name, b0, w).w else w;
    StepsSpare(s, RestoreRecord, p, env, w, prior, b0);
    StepsSpare(s, RestoreRecord, p, env, w1, w1.mem.(mode := prior.mode, replicas := prior.replicas), b0);
  }

  lemma NotConvergedSpares(s: Script, p: Policy, env: Inputs, w: World, prior: Record, b: Before)
    ensures Spared(w, NotConverged(s, p, env, w, prior, b).w, p.name)
  {
    hide Spared, RollbackSharing, Reverted, ReleaseDaemon;
    SparedCompose(p.name);
    RollbackSpares(s, p, w, b);
    var w1 := RollbackSharing(s, p.name, b, w).w;
    RevertedSpares(s, p, w1, prior);
    DaemonSpares(s, p, env, Reverted(s, p, w1, prior).w, 2, NoMode);
  }

  lemma RevertedSpares(s: Script, p: Policy, w: World, prior: Record)
    ensures Spared(w, Reverted(s, p, w, prior).w, p.name)
  {
    hide Spared, Patch;
    SparedCompose(p.name);
    var back := w.mem.(mode := prior.mode, replicas := prior.replicas);
    PatchSpares(s, RestoreRecord, p, w, back);
    var w1 := Patch(s, RestoreRecord, p.name, w, back).w;
    PatchSpares(s, MarkRolledBack, p, w1, w1.mem.(rolledBackAt := p.generation));
  }

  lemma WireSpares(p: Policy, env: Inputs, s: Script, w: World, prior: Record, b: Before)
    ensures Spared(w, Wire(p, env, s, w, prior, b).w, p.name)
  {
    hide Spared, NotConverged, ApplyFailed, PutConfig;
    SparedCompose(p.name);
    StepsSpare(s, RewriteConfig, p, env, w, prior, b);
    var w1 := PutConfig(s, RewriteConfig, p, env, w).w;
    FailedSpares(s, p, env, w1, prior, Some(b));
    var w2 := w1.(wiredBy := p.name, applies := w1.applies + 1);
    assert Spared(w1, w2, p.name) by { SameSpared(w1, w2, p.name); }
    NotConvergedSpares(s, p, env, w2, prior, b);
  }

  lemma SameSpared(a: World, b: World, self: string)
    requires a.recs == b.recs && a.daemon == b.daemon
    ensures Spared(a, b, self)
  {
  }

  lemma ApplySpares(p: Policy, env: Inputs, s: Script, w: World)
    ensures Spared(w, ApplySharing(p, env, s, w).w, p.name)
  {
    hide Spared, Wire, ApplyFailed, EnsureDaemon, PutConfig, Patch;
    SparedCompose(p.name);
    var r := w.mem.(mode := p.mode, replicas := p.replicas);
    StepsSpare(s, JournalSharing, p, env, w, r, Before(None));
    var w1 := Patch(s, JournalSharing, p.name, w, r).w;
    var b := Before(w1.config);
    StepsSpare(s, WriteConfig, p, env, w1, r, b);
    var w2 := PutConfig(s, WriteConfig, p, env, w1).w;
    FailedSpares(s, p, env, w2, w.mem, None);
    DaemonSpares(s, p, env, w2, 1, p.mode);
    var w3 := EnsureDaemon(s, 1, p.mode, p.name, env, w2).w;
    FailedSpares(s, p, env, w3, w.mem, Some(b));
    WireSpares(p, env, s, w3, w.mem, b);
  }

  lemma PassSpares(p: Policy, env: Inputs, s: Script, w: World)
    ensures Spared(w, Pass(p, env, s, w), p.name)
  {
    hide Spared, ApplySharing, DisableSharing, EnsureDaemon, ReleaseDaemon, Patch;
    SparedCompose(p.name);
    var w0 := Loaded(p, w);
    SameSpared(w, w0, p.name);
    DisableSpares(s, p, env, w0);
    var w1 := SharingOnlyBase(p, env, s, w0).w;
    StepsSpare(s, JournalBase, p, env, w0, w0.mem.(baseline := env.allocatable), Before(None));
    DisableSpares(s, p, env, w1);
    DaemonSpares(s, p, env, w1, 0, p.mode);
    ApplySpares(p, env, s, w1);
    ApplySpares(p, env, s, EnsureDaemon(s, 0, p.mode, p.name, env, w1).w);
    var r := PassEnd(p, env, s, w);
    assert Spared(r.w, Saved(r.w, p.name), p.name) by { WriteSpares(p, r.w); }
  }

  lemma WriteSpares(p: Policy, w: World)
    ensures Spared(w, Saved(w, p.name), p.name) && Spared(w, w.(recs := w.recs - {p.name}), p.name)
  {
  }

  lemma RemovalSpares(p: Policy, s: Script, w: World)
    ensures Spared(w, Removal(p, s, w), p.name)
  {
    hide Spared, ReleaseDaemon, RollbackSharing;
    SparedCompose(p.name);
    var env := Inputs(0, Accepts, Accepts, true, {}, true, true, false);
    var w0 := Loaded(p, w);
    SameSpared(w, w0, p.name);
    StepsSpare(s, RestoreConfig, p, env, w0, w0.mem, Before(None));
    var w1 := if w0.mem.mode == NoMode then w0 else RollbackSharing(s, p.name, Before(None), w0).w;
    DaemonSpares(s, p, env, w1, 0, NoMode);
    WriteSpares(p, ReleaseDaemon(s, 0, p.name, w1).w);
  }

  /** In any run, no pass and no removal of one policy deletes the daemon while another policy's stored record
      journals mps, whatever crashes or fails. */
  lemma DaemonKeptForOthers(events: seq<Event>, e: Event, other: string)
    requires var w := Run(events); w.daemon && other in w.recs && other != e.p.name && w.recs[other].mode == Mps
    ensures var w' := Next(Run(events), e);
            && w'.daemon && other in w'.recs && w'.recs[other].mode == Mps
  {
    hide Pass, Removal;
    var w := Run(events);
    if e.PassOf? { PassSpares(e.p, e.env, e.s, w); } else { RemovalSpares(e.p, e.s, w); }
    assert OthersUseMps(w.recs, e.p.name);
  }

  lemma WireSaw(p: Policy, env: Inputs, s: Script, w: World, prior: Record, b: Before)
    requires Wire(p, env, s, w, prior, b).end.Answer? && Wire(p, env, s, w, prior, b).end.phase == TsReady
    ensures var w' := Wire(p, env, s, w, prior, b).w; w'.sawReady == w.sawReady && w'.daemon == w.daemon
  {
    hide NotConverged, ApplyFailed;
    FailedNotReady(p, env, s, prior, b);
  }

  lemma FailedNotReady(p: Policy, env: Inputs, s: Script, prior: Record, b: Before)
    ensures forall w: World :: var e := ApplyFailed(s, p, w, prior, Some(b)).end; e.Answer? ==> e.phase != TsReady
    ensures forall w: World :: var e := ApplyFailed(s, p, w, prior, None).end; e.Answer? ==> e.phase != TsReady
    ensures forall w: World :: var e := NotConverged(s, p, env, w, prior, b).end; e.Answer? ==> e.phase != TsReady
  {
    hide RollbackSharing, ReleaseDaemon, Patch;
  }

  lemma ApplySaw(p: Policy, env: Inputs, s: Script, w: World)
    requires p.mode == Mps
    requires ApplySharing(p, env, s, w).end.Answer? && ApplySharing(p, env, s, w).end.phase == TsReady
    ensures ApplySharing(p, env, s, w).w.sawReady && ApplySharing(p, env, s, w).w.daemon
  {
    hide Wire, ApplyFailed, NotConverged, ConfigFree;
    var prior := w.mem;
    var w1 := Patch(s, JournalSharing, p.name, w, w.mem.(mode := p.mode, replicas := p.replicas)).w;
    var b := Before(w1.config);
    FailedNotReady(p, env, s, prior, b);
    var w2 := PutConfig(s, WriteConfig, p, env, w1).w;
    var w3 := EnsureDaemon(s, 1, p.mode, p.name, env, w2).w;
    if Wire(p, env, s, w3, prior, b).end.Answer? && Wire(p, env, s, w3, prior, b).end.phase == TsReady {
      WireSaw(p, env, s, w3, prior, b);
    }
  }

  /** A pass that reports Ready in mps mode saw a ready daemon pod on its node during that very pass, and leaves the
      daemon in place. */
  lemma ReadyMpsSawDaemon(p: Policy, env: Inputs, s: Script, w: World)
    requires p.mode == Mps && PassEnd(p, env, s, w).end.Answer? && PassEnd(p, env, s, w).end.phase == TsReady
    ensures PassEnd(p, env, s, w).w.sawReady && Pass(p, env, s, w).daemon
  {
    hide ApplySharing, DisableSharing, OthersUseMps, SharingOnlyBase;
    var w1 := SharingOnlyBase(p, env, s, Loaded(p, w)).w;
    if ApplySharing(p, env, s, w1).end.Answer? && ApplySharing(p, env, s, w1).end.phase == TsReady {
      ApplySaw(p, env, s, w1);
    }
    var w2 := EnsureDaemon(s, 0, p.mode, p.name, env, w1).w;
    if ApplySharing(p, env, s, w2).end.Answer? && ApplySharing(p, env, s, w2).end.phase == TsReady {
      ApplySaw(p, env, s, w2);
    }
    BaseNotReady(p, env, s, Loaded(p, w));
  }

  /** The plugin of an mps policy is wired only after a ready daemon pod was seen on the node in that very pass, at
      every crash point. */
  lemma WiredAfterDaemon(p: Policy, env: Inputs, s: Script, w: World)
    requires p.mode == Mps
    ensures Pass(p, env, s, w).applies > w.applies ==> PassEnd(p, env, s, w).w.sawReady
  {
    hide RunSharing, DisableSharing;
    var w0 := Loaded(p, w);
    SharingWiresAfter(p, env, s, SharingOnlyBase(p, env, s, w0).w);
    DisableWiresNothing(s, p, w0);
  }

  lemma SharingWiresAfter(p: Policy, env: Inputs, s: Script, w: World)
    requires p.mode == Mps
    ensures var w' := RunSharing(p, env, s, w).w; w'.applies > w.applies ==> w'.sawReady
  {
    hide ApplySharing, DisableSharing, ReleaseDaemon, EnsureDaemon;
    DisableWiresNothing(s, p, w);
    ReleaseRecords(s, 0, p.name, w);
    EnsureWiresNothing(s, p, env, w);
    ApplyWiresAfter(p, env, s, w);
    ApplyWiresAfter(p, env, s, EnsureDaemon(s, 0, p.mode, p.name, env, w).w);
  }

  lemma EnsureWiresNothing(s: Script, p: Policy, env: Inputs, w: World)
    requires p.mode == Mps
    ensures EnsureDaemon(s, 0, p.mode, p.name, env, w).w.applies == w.applies
  {
  }

  lemma DisableWiresNothing(s: Script, p: Policy, w: World)
    ensures DisableSharing(s, p, w).w.applies == w.applies
  {
    hide RollbackSharing, ReleaseDaemon;
    RollbackRecords(s, p.name, Before(None), w);
    ReleaseRecords(s, 3, p.name, w);
    var u1 := RollbackSharing(s, p.name, Before(None), w).w;
    ReleaseRecords(s, 3, p.name, Logged(Patch(s, RestoreRecord, p.name, u1, u1.mem.(mode := NoMode, replicas := 0))).w);
  }

  lemma ApplyWiresAfter(p: Policy, env: Inputs, s: Script, w: World)
    requires p.mode == Mps
    ensures var w' := ApplySharing(p, env, s, w).w; (w.sawReady ==> w'.sawReady) && (w'.applies > w.applies ==> w'.sawReady)
    ensures ApplySharing(p, env, s, w).w.applies >= w.applies
  {
    hide Wire, ApplyFailed, ConfigFree;
    var prior := w.mem;
    var w1 := Patch(s, JournalSharing, p.name, w, w.mem.(mode := p.mode, replicas := p.replicas)).w;
    var b := Before(w1.config);
    var w2 := PutConfig(s, WriteConfig, p, env, w1).w;
    FailedWiresNothing(s, p, w2, prior, None);
    var w3 := EnsureDaemon(s, 1, p.mode, p.name, env, w2).w;
    FailedWiresNothing(s, p, w3, prior, Some(b));
    WireKeepsSeen(p, env, s, w3, prior, b);
  }

  lemma FailedWiresNothing(s: Script, p: Policy, w: World, prior: Record, b: Option<Before>)
    ensures var w' := ApplyFailed(s, p, w, prior, b).w; w'.applies == w.applies && w'.sawReady == w.sawReady
  {
    hide RollbackSharing;
    if b.Some? { RollbackRecords(s, p.name, b.value, w); }
  }

  lemma WireKeepsSeen(p: Policy, env: Inputs, s: Script, w: World, prior: Record, b: Before)
    ensures var w' := Wire(p, env, s, w, prior, b).w; w'.sawReady == w.sawReady && w'.applies >= w.applies
  {
    hide ApplyFailed, NotConverged, ConfigFree;
    var w1 := PutConfig(s, RewriteConfig, p, env, w).w;
    FailedWiresNothing(s, p, w1, prior, Some(b));
    NotConvergedKeepsSeen(p, env, s, w1.(wiredBy := p.name, applies := w1.applies + 1), prior, b);
  }

  lemma NotConvergedKeepsSeen(p: Policy, env: Inputs, s: Script, w: World, prior: Record, b: Before)
    ensures var w' := NotConverged(s, p, env, w, prior, b).w; w'.sawReady == w.sawReady && w'.applies == w.applies
  {
    hide RollbackSharing, ReleaseDaemon, Reverted;
    RollbackRecords(s, p.name, b, w);
    var u := RollbackSharing(s, p.name, b, w).w;
    RevertedKeeps(s, p, u, prior);
    ReleaseRecords(s, 2, p.name, Reverted(s, p, u, prior).w);
  }

  lemma RevertedKeeps(s: Script, p: Policy, w: World, prior: Record)
    ensures var r := Reverted(s, p, w, prior);
            && r.w == w.(mem := r.w.mem, recs := r.w.recs) && OthersUseMps(r.w.recs, p.name) == OthersUseMps(w.recs, p.name)
            && (s == UNDISTURBED && RecordOf(w, p.name) == w.mem ==> r.end == Going && r.w.mem.mode == prior.mode)
  {
    hide OthersUseMps;
    RevertedOthers(s, p, w, prior);
  }

  lemma RevertedOthers(s: Script, p: Policy, w: World, prior: Record)
    ensures OthersUseMps(Reverted(s, p, w, prior).w.recs, p.name) == OthersUseMps(w.recs, p.name)
  {
    hide OthersUseMps;
    var back := w.mem.(mode := prior.mode, replicas := prior.replicas);
    OthersUnaffected(p.name, w.recs, back);
    var w1 := Patch(s, RestoreRecord, p.name, w, back).w;
    OthersUnaffected(p.name, w1.recs, w1.mem.(rolledBackAt := p.generation));
  }

  lemma BaseNotReady(p: Policy, env: Inputs, s: Script, w: World)
    ensures var e := SharingOnlyBase(p, env, s, w).end; e.Answer? ==> e.phase != TsReady
  {
  }

  /** An undisturbed pass of a policy that asks for exclusive devices keeps the daemon exactly when another policy's
      record still journals mps. */
  lemma ExclusiveReleasesIff(p: Policy, env: Inputs, w: World)
    requires p.mode == NoMode
    ensures Pass(p, env, UNDISTURBED, w).daemon <==> w.daemon && OthersUseMps(w.recs, p.name)
  {
    hide OthersUseMps;
    var w0 := Loaded(p, w);
    OthersUnaffected(p.name, w.recs, w0.mem.(mode := NoMode, replicas := 0));
  }

  lemma OthersUnaffected(self: string, recs: map<string, Record>, r: Record)
    ensures OthersUseMps(recs[self := r], self) == OthersUseMps(recs, self)
  {
    if OthersUseMps(recs, self) {
      var n :| n in recs && n != self && recs[n].mode == Mps;
      assert recs[self := r][n].mode == Mps;
    }
  }

  // ----- a rollback closes its generation -----

  lemma DisableKeepsClosed(s: Script, p: Policy, w: World, g: int)
    requires Closed(w.mem, g) && Closed(RecordOf(w, p.name), g)
    ensures var r := DisableSharing(s, p, w); r.w.applies == w.applies && Closed(r.w.mem, g) && Closed(RecordOf(r.w, p.name), g)
  {
    hide OthersUseMps, RollbackSharing, ReleaseDaemon;
    RollbackRecords(s, p.name, Before(None), w);
    ReleaseRecords(s, 3, p.name, w);
    var u1 := RollbackSharing(s, p.name, Before(None), w).w;
    ReleaseRecords(s, 3, p.name, Logged(Patch(s, RestoreRecord, p.name, u1, u1.mem.(mode := NoMode, replicas := 0))).w);
  }

  lemma RollbackRecords(s: Script, self: string, b: Before, w: World)
    ensures var r := RollbackSharing(s, self, b, w);
            && r.w.recs == w.recs && r.w.mem == w.mem && r.w.applies == w.applies && r.w.daemon == w.daemon && r.w.sawReady == w.sawReady
            && (s == UNDISTURBED ==> r.end == Going)
  {
  }

  lemma ReleaseRecords(s: Script, call: nat, self: string, w: World)
    ensures var r := ReleaseDaemon(s, call, self, w);
            && r.w.recs == w.recs && r.w.mem == w.mem && r.w.applies == w.applies
            && r.w.config == w.config && r.w.wiredBy == w.wiredBy && r.w.sawReady == w.sawReady
            && (s == UNDISTURBED ==> r.end == Going && (r.w.daemon <==> w.daemon && OthersUseMps(w.recs, self)))
  {
    hide OthersUseMps;
  }

  /** A policy that was never rolled back is open, whatever its generation. */
  lemma NeverClosed(r: Record, generation: int)
    requires r.rolledBackAt == 0
    ensures !Closed(r, generation)
  {
  }

  /** Once a rollback of the generation is on record, no pass of that generation wires the device plugin again, and the
      record stays, whatever crashes or fails. */
  lemma RolledBackIsTerminal(p: Policy, env: Inputs, s: Script, w: World)
    requires Closed(RecordOf(w, p.name), p.generation)
    ensures Pass(p, env, s, w).applies == w.applies
    ensures Closed(RecordOf(Pass(p, env, s, w), p.name), p.generation)
  {
    hide ApplySharing, DisableSharing, EnsureDaemon, ReleaseDaemon;
    var w0 := Loaded(p, w);
    assert Closed(w0.mem, p.generation);
    DisableKeepsClosed(s, p, w0, p.generation);
    var r1 := SharingOnlyBase(p, env, s, w0);
    assert Closed(r1.w.mem, p.generation) && Closed(RecordOf(r1.w, p.name), p.generation) && r1.w.applies == w.applies;
    DisableKeepsClosed(s, p, r1.w, p.generation);
    ReleaseRecords(s, 0, p.name, r1.w);
  }

  /** In a run in which a policy keeps its generation, a closed record stays closed. */
  lemma {:induction false} ClosedForGood(w: World, events: seq<Event>, name: string, g: int)
    requires Closed(RecordOf(w, name), g)
    requires forall i :: 0 <= i < |events| && events[i].p.name == name ==> events[i].PassOf? && events[i].p.generation == g
    ensures Closed(RecordOf(RunFrom(w, events), name), g)
  {
    hide Pass, Removal, Closed;
    if events != [] {
      var k := |events| - 1;
      var e := events[k];
      ClosedForGood(w, events[..k], name, g);
      var v := RunFrom(w, events[..k]);
      if e.p.name == name {
        RolledBackIsTerminal(e.p, e.env, e.s, v);
      } else if e.PassOf? {
        PassSpares(e.p, e.env, e.s, v);
      } else {
        RemovalSpares(e.p, e.s, v);
      }
    }
  }

  function RunFrom(w: World, events: seq<Event>): World {
    if events == [] then w else Next(RunFrom(w, events[..|events| - 1]), events[|events| - 1])
  }

  // ----- a policy that keeps mps and loses its daemon -----

  /** Its own record asks for mps, and there is no daemon. */
  predicate Bare(w: World, name: string) {
    RecordOf(w, name).mode == Mps && !w.daemon
  }

  /** The pass wires the plugin and the new advertisement does not converge. */
  predicate FallsBack(p: Policy, env: Inputs, w: World) {
    var r := RecordOf(w, p.name);
    var same := r.mode == p.mode && r.replicas == p.replicas;
    && env.layoutValid && ConfigFree(w, p.name)
    && (p.mode == Mps ==> 1 in env.readyAt)
    && (same ==> 0 in env.readyAt && !env.probeConverged)
    && (!env.converged || env.verifyErr)
  }

  predicate LosesDaemon(p: Policy, env: Inputs, w: World) {
    && RecordOf(w, p.name).mode == Mps && !OthersUseMps(w.recs, p.name)
    && (Closed(RecordOf(w, p.name), p.generation) || FallsBack(p, env, w))
  }

  /** ApplySharing of a policy that journals mps, without disturbance. */
  lemma ApplyBareIff(p: Policy, env: Inputs, w: World)
    requires p.name != "" && p.mode != NoMode && w.mem.mode == Mps && RecordOf(w, p.name) == w.mem && w.daemon
    ensures var r := ApplySharing(p, env, UNDISTURBED, w);
            && r.end != Died
            && (r.w.mem.mode == Mps && !r.w.daemon <==>
                  && !OthersUseMps(w.recs, p.name) && env.layoutValid && ConfigFree(w, p.name)
                  && (p.mode == Mps ==> 1 in env.readyAt) && (!env.converged || env.verifyErr))
  {
    hide OthersUseMps, Wire, ApplyFailed, ReleaseDaemon;
    var j := w.mem.(mode := p.mode, replicas := p.replicas);
    OthersUnaffected(p.name, w.recs, j);
    var w1 := Patch(UNDISTURBED, JournalSharing, p.name, w, j).w;
    FailedUndisturbed(p, w1, w.mem, None);
    var w2 := w1.(config := Some(Config(p.name, p.mode, p.replicas)));
    ReleaseRecords(UNDISTURBED, 1, p.name, w2);
    var d := EnsureDaemon(UNDISTURBED, 1, p.mode, p.name, env, w2);
    if env.layoutValid && ConfigFree(w, p.name) {
      WireUndisturbed(p, env, d.w, w.mem, Before(w1.config));
    }
  }

  lemma FailedUndisturbed(p: Policy, w: World, prior: Record, b: Option<Before>)
    requires RecordOf(w, p.name) == w.mem
    ensures var r := ApplyFailed(UNDISTURBED, p, w, prior, b);
            r.end == Answer(TsFailed, true) && r.w.mem.mode == prior.mode && r.w.daemon == w.daemon
  {
    hide RollbackSharing;
    if b.Some? { RollbackRecords(UNDISTURBED, p.name, b.value, w); }
  }

  lemma NotConvergedUndisturbed(p: Policy, env: Inputs, w: World, prior: Record, b: Before)
    requires RecordOf(w, p.name) == w.mem
    ensures var r := NotConverged(UNDISTURBED, p, env, w, prior, b);
            && r.end == Answer(TsRestored, env.verifyErr) && r.w.mem.mode == prior.mode
            && (r.w.daemon <==> w.daemon && OthersUseMps(w.recs, p.name))
  {
    hide RollbackSharing, ReleaseDaemon, Reverted, OthersUseMps;
    RollbackRecords(UNDISTURBED, p.name, b, w);
    var u := RollbackSharing(UNDISTURBED, p.name, b, w).w;
    RevertedKeeps(UNDISTURBED, p, u, prior);
    ReleaseRecords(UNDISTURBED, 2, p.name, Reverted(UNDISTURBED, p, u, prior).w);
  }

  lemma WireUndisturbed(p: Policy, env: Inputs, w: World, prior: Record, b: Before)
    requires env.layoutValid && ConfigFree(w, p.name) && RecordOf(w, p.name) == w.mem
    ensures var r := Wire(p, env, UNDISTURBED, w, prior, b);
            && r.end != Died
            && (if env.converged && !env.verifyErr then r.w.mem == w.mem && r.w.daemon == w.daemon
                else r.w.mem.mode == prior.mode && (r.w.daemon <==> w.daemon && OthersUseMps(w.recs, p.name)))
  {
    hide NotConverged, ApplyFailed, OthersUseMps;
    var w1 := w.(config := Some(Config(p.name, p.mode, p.replicas)));
    NotConvergedUndisturbed(p, env, w1.(wiredBy := p.name, applies := w1.applies + 1), prior, b);
  }

  /** A pass takes the daemon from a policy whose own record keeps asking for mps if and only if nobody else uses mps
      and the pass either ends an edit that did not converge by going back to the mps configuration, or finds the
      generation closed by such an end: the release that follows does not count the policy's own record. */
  lemma LeftWithoutDaemonIff(p: Policy, env: Inputs, w: World)
    requires p.name != "" && p.mode != NoMode && env.precheck == Accepts && env.again == Accepts
    requires RecordOf(w, p.name).mode == Mps && RecordOf(w, p.name).baseline > 0 && w.daemon
    ensures Bare(Pass(p, env, UNDISTURBED, w), p.name) <==> LosesDaemon(p, env, w)
  {
    hide OthersUseMps, ApplySharing;
    var w0 := Loaded(p, w);
    ApplyBareIff(p, env, w0);
    var w1 := w0.(sawReady := true);
    ApplyBareIff(p, env, w1);
    assert SharingOnlyBase(p, env, UNDISTURBED, w0) == R(w0, Going);
  }

  // ----- when a failure or a cut can take it -----

  /** The pass can get as far as wiring the plugin, or as far as taking the new wiring back. */
  predicate MayFallBack(p: Policy, env: Inputs, w: World) {
    && env.layoutValid && ConfigFree(w, p.name)
    && (p.mode == TimeSliced || (1 in env.readyAt && (!env.converged || env.verifyErr)))
  }

  predicate Reapplies(p: Policy, env: Inputs, w: World) {
    var r := RecordOf(w, p.name);
    r.mode == p.mode && r.replicas == p.replicas ==> 0 in env.readyAt && !env.probeConverged
  }

  /** Nobody else uses mps, and the pass gives sharing up, finds the generation closed, or edits the configuration. */
  predicate MayLoseDaemon(p: Policy, env: Inputs, w: World) {
    var r := RecordOf(w, p.name);
    && !OthersUseMps(w.recs, p.name)
    && (|| p.mode == NoMode
        || env.precheck == Refuses
        || (&& env.precheck == Accepts && (r.baseline > 0 || env.allocatable > 0)
            && (|| env.again == Refuses
                || (env.again == Accepts
                    && (Closed(r, p.generation) || (Reapplies(p, env, w) && MayFallBack(p, env, w)))))))
  }

  lemma FailedKeepsDaemon(s: Script, p: Policy, w: World, prior: Record, b: Option<Before>)
    ensures ApplyFailed(s, p, w, prior, b).w.daemon == w.daemon
  {
    hide RollbackSharing;
    if b.Some? { RollbackRecords(s, p.name, b.value, w); }
  }

  lemma ApplyKeepsDaemon(p: Policy, env: Inputs, s: Script, w: World)
    requires p.mode != NoMode && w.daemon && !MayFallBack(p, env, w)
    ensures ApplySharing(p, env, s, w).w.daemon
  {
    hide ApplyFailed, NotConverged, ConfigFree;
    var prior := w.mem;
    var w1 := Patch(s, JournalSharing, p.name, w, w.mem.(mode := p.mode, replicas := p.replicas)).w;
    assert ConfigFree(w1, p.name) == ConfigFree(w, p.name) by { SameConfigFree(w, w1, p.name); }
    var b := Before(w1.config);
    FailedKeepsDaemon(s, p, w1, prior, None);
    var w2 := PutConfig(s, WriteConfig, p, env, w1).w;
    FailedKeepsDaemon(s, p, w2, prior, None);
    var w3 := EnsureDaemon(s, 1, p.mode, p.name, env, w2).w;
    FailedKeepsDaemon(s, p, w3, prior, Some(b));
    var w4 := PutConfig(s, RewriteConfig, p, env, w3).w;
    FailedKeepsDaemon(s, p, w4, prior, Some(b));
  }

  lemma SameConfigFree(a: World, b: World, self: string)
    requires a.config == b.config && a.wiredBy == b.wiredBy
    ensures ConfigFree(a, self) == ConfigFree(b, self)
  {
  }

  lemma DaemonStays(p: Policy, env: Inputs, s: Script, w: World)
    requires w.daemon && RecordOf(w, p.name).mode == Mps && !MayLoseDaemon(p, env, w)
    ensures Pass(p, env, s, w).daemon
  {
    hide ApplySharing, DisableSharing, OthersUseMps, MayFallBack, ConfigFree;
    if OthersUseMps(w.recs, p.name) {
      PassSpares(p, env, s, w);
    } else if p.mode != NoMode && env.precheck == Accepts && env.again == Accepts {
      var w1 := SharingOnlyBase(p, env, s, Loaded(p, w)).w;
      assert w1 == w.(mem := w1.mem, recs := w1.recs, sawReady := w1.sawReady) && w1.mem == RecordOf(w, p.name).(baseline := w1.mem.baseline);
      assert MayFallBack(p, env, w1) == MayFallBack(p, env, w) by { SameFallBack(p, env, w, w1); }
      var w2 := EnsureDaemon(s, 0, p.mode, p.name, env, w1).w;
      assert p.mode == Mps ==> w2.daemon && w2 == w1.(daemon := true, sawReady := w2.sawReady);
      assert p.mode == Mps ==> MayFallBack(p, env, w2) == MayFallBack(p, env, w) by { if p.mode == Mps { SameFallBack(p, env, w, w2); } }
      if !MayFallBack(p, env, w) {
        ApplyKeepsDaemon(p, env, s, w1);
        if p.mode == Mps { ApplyKeepsDaemon(p, env, s, w2); }
      }
    }
  }

  lemma SameFallBack(p: Policy, env: Inputs, a: World, b: World)
    requires a.config == b.config && a.wiredBy == b.wiredBy
    ensures MayFallBack(p, env, a) == MayFallBack(p, env, b)
  {
  }

  const KEEPS_RECORD: Script := map[RestoreRecord := Fails, StatusWrite := Fails]
  const FAILS_WIRING: Script := map[RewriteConfig := Fails]

  /** Giving sharing up without getting it on record. */
  lemma DisableBares(p: Policy, w: World)
    requires w.mem.mode == Mps && RecordOf(w, p.name).mode == Mps && !OthersUseMps(w.recs, p.name)
    ensures var r := DisableSharing(KEEPS_RECORD, p, w); r.end == Going && Bare(r.w, p.name)
  {
    hide OthersUseMps;
  }

  /** An edit to time-slicing takes the daemon away before it fails and goes back to mps. */
  lemma EditBares(p: Policy, env: Inputs, w: World)
    requires p.name != "" && p.mode == TimeSliced && w.mem.mode == Mps && RecordOf(w, p.name) == w.mem
    requires env.layoutValid && ConfigFree(w, p.name) && !OthersUseMps(w.recs, p.name)
    ensures var r := ApplySharing(p, env, FAILS_WIRING, w); r.end != Died && Bare(r.w, p.name) && r.w.mem.mode == Mps
  {
    hide OthersUseMps, RollbackSharing;
    var j := w.mem.(mode := p.mode, replicas := p.replicas);
    OthersUnaffected(p.name, w.recs, j);
    var w1 := w.(mem := j, recs := w.recs[p.name := j]);
    assert Patch(FAILS_WIRING, JournalSharing, p.name, w, j) == R(w1, Going);
    var w2 := w1.(config := Some(Config(p.name, p.mode, p.replicas)));
    var w3 := w2.(daemon := false);
    assert EnsureDaemon(FAILS_WIRING, 1, p.mode, p.name, env, w2).w == w3 && EnsureDaemon(FAILS_WIRING, 1, p.mode, p.name, env, w2).end == Going;
    RollbackRecords(FAILS_WIRING, p.name, Before(w1.config), w3);
    RollbackGoes(FAILS_WIRING, p.name, Before(w1.config), w3);
  }

  lemma RollbackGoes(s: Script, self: string, b: Before, w: World)
    requires At(s, RestoreConfig) == Does && At(s, Unwire) == Does
    ensures RollbackSharing(s, self, b, w).end == Going
  {
    hide ConfigFree;
  }

  /** Some failure or cut leaves a policy that journals mps without its daemon if and only if nobody else uses mps and the
      pass gives sharing up, finds its generation closed, or may have to go back from an edit. */
  lemma DaemonLossPossibleIff(p: Policy, env: Inputs, w: World)
    requires p.name != "" && RecordOf(w, p.name).mode == Mps && w.daemon
    ensures (exists s: Script :: Bare(Pass(p, env, s, w), p.name)) <==> MayLoseDaemon(p, env, w)
  {
    hide Pass, MayLoseDaemon;
    if MayLoseDaemon(p, env, w) {
      LosesDaemonSomehow(p, env, w);
    } else {
      forall s: Script ensures !Bare(Pass(p, env, s, w), p.name) {
        DaemonStays(p, env, s, w);
      }
    }
  }

  lemma LosesDaemonSomehow(p: Policy, env: Inputs, w: World)
    requires p.name != "" && RecordOf(w, p.name).mode == Mps && w.daemon && MayLoseDaemon(p, env, w)
    ensures exists s: Script :: Bare(Pass(p, env, s, w), p.name)
  {
    hide OthersUseMps, ApplySharing, DisableSharing, ConfigFree;
    var w0 := Loaded(p, w);
    if p.mode == NoMode || env.precheck == Refuses {
      DisableBares(p, w0);
      assert Bare(Pass(p, env, KEEPS_RECORD, w), p.name);
    } else {
      var s := if env.again == Refuses then KEEPS_RECORD
               else if !Closed(w0.mem, p.generation) && p.mode == TimeSliced then FAILS_WIRING else UNDISTURBED;
      var w1 := SharingOnlyBase(p, env, s, w0).w;
      BaseGoes(p, env, s, w);
      if env.again == Refuses {
        DisableBares(p, w1);
      } else if Closed(w0.mem, p.generation) {
      } else if p.mode == TimeSliced {
        EditBares(p, env, w1) by { SameConfigFree(w, w1, p.name); }
      } else {
        EditFallsBack(p, env, w, w1);
      }
      assert Bare(Pass(p, env, s, w), p.name);
    }
  }

  lemma BaseGoes(p: Policy, env: Inputs, s: Script, w: World)
    requires RecordOf(w, p.name).mode == Mps && (RecordOf(w, p.name).baseline > 0 || env.allocatable > 0)
    requires At(s, ReadNode) == Does && At(s, JournalBase) == Does
    ensures var r := SharingOnlyBase(p, env, s, Loaded(p, w));
            && r.end == Going && RecordOf(r.w, p.name) == r.w.mem && r.w.mem == RecordOf(w, p.name).(baseline := r.w.mem.baseline)
            && r.w == w.(mem := r.w.mem, recs := r.w.recs, sawReady := false)
            && OthersUseMps(r.w.recs, p.name) == OthersUseMps(w.recs, p.name)
  {
    hide OthersUseMps;
    OthersUnaffected(p.name, w.recs, Loaded(p, w).mem.(baseline := env.allocatable));
  }

  /** The undisturbed edit that does not converge. */
  lemma EditFallsBack(p: Policy, env: Inputs, w: World, w1: World)
    requires p.name != "" && p.mode == Mps && env.precheck == Accepts && env.again == Accepts && w.daemon
    requires RecordOf(w, p.name).mode == Mps && !OthersUseMps(w.recs, p.name) && !Closed(RecordOf(w, p.name), p.generation)
    requires Reapplies(p, env, w) && MayFallBack(p, env, w)
    requires SharingOnlyBase(p, env, UNDISTURBED, Loaded(p, w)) == R(w1, Going)
    requires RecordOf(w1, p.name) == w1.mem && w1.mem == RecordOf(w, p.name).(baseline := w1.mem.baseline)
    requires w1 == w.(mem := w1.mem, recs := w1.recs, sawReady := false) && OthersUseMps(w1.recs, p.name) == OthersUseMps(w.recs, p.name)
    ensures Bare(Pass(p, env, UNDISTURBED, w), p.name)
  {
    hide OthersUseMps, ApplySharing, ConfigFree;
    SameConfigFree(w, w1, p.name);
    ApplyBareIff(p, env, w1);
    var w2 := w1.(sawReady := true);
    SameConfigFree(w, w2, p.name);
    ApplyBareIff(p, env, w2);
  }
}
