/** What a sharing-only pass leaves in the cluster when its calls succeed: nothing of an exclusive policy, the new
    configuration of one that converged, and the old one of an edit that did not. */
module SharingOutcomes {
  import opened SharingModel
  import opened Sharing
  import opened SharingRuns

  /** The configuration, the wiring and the journal agree on what the policy shares. */
  predicate Serves(w: World, name: string, mode: Mode, replicas: nat) {
    && w.config == Some(Config(name, mode, replicas)) && w.wiredBy == name
    && RecordOf(w, name).mode == mode && RecordOf(w, name).replicas == replicas
  }

  /** Nothing is shared by anybody, and the policy's journal says so. */
  predicate Bared(w: World, name: string) {
    w.config == None && w.wiredBy == "" && RecordOf(w, name).mode == NoMode
  }

  /** The pass gives sharing up: the policy is exclusive, or its request is refused, before or after the base is there. */
  predicate GivesUpSharing(p: Policy, env: Inputs, w: World) {
    || p.mode == NoMode
    || env.precheck == Refuses
    || (&& env.precheck == Accepts && env.again == Refuses
        && ((RecordOf(w, p.name).mode != NoMode && RecordOf(w, p.name).baseline > 0) || env.allocatable > 0))
  }

  lemma DisableBaresAll(p: Policy, w: World)
    requires w.mem.mode != NoMode && RecordOf(w, p.name) == w.mem && ConfigFree(w, p.name)
    ensures var r := DisableSharing(UNDISTURBED, p, w);
            r.end == Going && Bared(r.w, p.name) && r.w.mem == RecordOf(r.w, p.name) && p.name in r.w.recs
  {
    hide OthersUseMps;
  }

  /** An undisturbed pass that gives sharing up takes configuration, wiring and journal away. */
  lemma GivenUpLeavesNothing(p: Policy, env: Inputs, w: World)
    requires RecordOf(w, p.name).mode != NoMode && ConfigFree(w, p.name) && GivesUpSharing(p, env, w)
    ensures Bared(Pass(p, env, UNDISTURBED, w), p.name)
  {
    hide DisableSharing, ConfigFree;
    var w0 := Loaded(p, w);
    var w1 := SharingOnlyBase(p, env, UNDISTURBED, w0).w;
    SameConfigFree(w, w0, p.name);
    SameConfigFree(w, w1, p.name);
    DisableBaresAll(p, w0);
    if p.mode != NoMode && env.precheck == Accepts {
      DisableBaresAll(p, w1);
    }
  }

  /** So does the removal of the policy. */
  lemma RemovalLeavesNothing(p: Policy, w: World)
    requires RecordOf(w, p.name).mode != NoMode && ConfigFree(w, p.name)
    ensures var w' := Removal(p, UNDISTURBED, w); Bared(w', p.name) && p.name !in w'.recs
  {
    hide OthersUseMps;
  }

  /** An apply that gets as far as wiring the plugin: its daemon is there where it needs one. */
  predicate ReachesWiring(p: Policy, env: Inputs, w: World) {
    && p.name != "" && p.mode != NoMode && env.precheck == Accepts && env.again == Accepts
    && ((RecordOf(w, p.name).mode != NoMode && RecordOf(w, p.name).baseline > 0) || env.allocatable > 0)
    && !Closed(RecordOf(w, p.name), p.generation)
    && !(RecordOf(w, p.name).mode == p.mode && RecordOf(w, p.name).replicas == p.replicas)
    && env.layoutValid && ConfigFree(w, p.name)
    && (p.mode == Mps ==> 1 in env.readyAt)
  }

  /** What the apply itself does, once the base is there. */
  lemma ApplyUndisturbed(p: Policy, env: Inputs, w: World)
    requires p.name != "" && p.mode != NoMode && RecordOf(w, p.name) == w.mem && env.layoutValid && ConfigFree(w, p.name)
    requires p.mode == Mps ==> 1 in env.readyAt
    requires !(w.mem.mode == p.mode && w.mem.replicas == p.replicas)
    ensures var r := ApplySharing(p, env, UNDISTURBED, w);
            && r.end.Answer? && r.w.mem == RecordOf(r.w, p.name)
            && (if env.converged && !env.verifyErr then r.end == Answer(TsReady, false) && Serves(r.w, p.name, p.mode, p.replicas)
                else
                  && r.end == Answer(TsRestored, env.verifyErr)
                  && r.w.config == (if w.config.Some? then Some(w.config.value.(owner := p.name)) else None)
                  && r.w.wiredBy == (if w.config.Some? then p.name else "")
                  && RecordOf(r.w, p.name) == w.mem.(rolledBackAt := p.generation))
            && (p.mode == Mps && env.converged && !env.verifyErr ==> r.w.daemon)
  {
    hide OthersUseMps, ReleaseDaemon, NotConverged, ApplyFailed;
    var j := w.mem.(mode := p.mode, replicas := p.replicas);
    var w1 := w.(mem := j, recs := w.recs[p.name := j]);
    assert Patch(UNDISTURBED, JournalSharing, p.name, w, j) == R(w1, Going);
    var w2 := w1.(config := Some(Config(p.name, p.mode, p.replicas)));
    assert PutConfig(UNDISTURBED, WriteConfig, p, env, w1) == R(w2, Going);
    ReleaseRecords(UNDISTURBED, 1, p.name, w2);
    var d := EnsureDaemon(UNDISTURBED, 1, p.mode, p.name, env, w2);
    assert d.end == Going && d.w == w2.(daemon := d.w.daemon, sawReady := d.w.sawReady);
    assert PutConfig(UNDISTURBED, RewriteConfig, p, env, d.w) == R(d.w, Going);
    var w3 := d.w.(wiredBy := p.name, applies := d.w.applies + 1);
    FallsBackUndisturbed(p, env, w3, w.mem, Before(w1.config));
  }

  lemma FallsBackUndisturbed(p: Policy, env: Inputs, w: World, prior: Record, b: Before)
    requires w.config == Some(Config(p.name, p.mode, p.replicas)) && w.wiredBy == p.name && RecordOf(w, p.name) == w.mem
    requires w.mem == prior.(mode := p.mode, replicas := p.replicas) && w.mem != prior
    ensures var r := NotConverged(UNDISTURBED, p, env, w, prior, b);
            && r.end == Answer(TsRestored, env.verifyErr) && r.w.mem == RecordOf(r.w, p.name)
            && RecordOf(r.w, p.name) == prior.(rolledBackAt := p.generation)
            && (if b.was.Some? then r.w.config == Some(b.was.value.(owner := p.name)) && r.w.wiredBy == p.name
                else r.w.config == None && r.w.wiredBy == "")
  {
    hide ReleaseDaemon, OthersUseMps, Reverted, RollbackSharing;
    var u := w.(config := if b.was.Some? then Some(b.was.value.(owner := p.name)) else None,
                wiredBy := if b.was.Some? then p.name else "");
    assert RollbackSharing(UNDISTURBED, p.name, b, w) == R(u, Going) by { TakesAllBack(p.name, b, w); }
    var v := u.(mem := prior.(rolledBackAt := p.generation), recs := u.recs[p.name := prior.(rolledBackAt := p.generation)]);
    RevertsAll(p, u, prior);
    var r4 := Reverted(UNDISTURBED, p, u, prior);
    ReleaseRecords(UNDISTURBED, 2, p.name, r4.w);
  }

  lemma TakesAllBack(self: string, b: Before, w: World)
    requires w.config.Some? && w.config.value.owner == self && w.wiredBy == self
    ensures RollbackSharing(UNDISTURBED, self, b, w)
         == R(w.(config := if b.was.Some? then Some(b.was.value.(owner := self)) else None, wiredBy := if b.was.Some? then self else ""), Going)
  {
  }

  lemma RevertsAll(p: Policy, w: World, prior: Record)
    requires RecordOf(w, p.name) == w.mem && w.mem == prior.(mode := p.mode, replicas := p.replicas) && w.mem != prior
    ensures var r := Reverted(UNDISTURBED, p, w, prior);
            && r.end == Going && r.w.mem == RecordOf(r.w, p.name) && r.w.mem == prior.(rolledBackAt := p.generation)
            && r.w == w.(mem := r.w.mem, recs := r.w.recs)
  {
  }

  /** The base step changes nothing that the apply reads, but the base. */
  lemma BaseFirst(p: Policy, env: Inputs, w: World)
    requires p.mode != NoMode && env.precheck == Accepts
    requires (RecordOf(w, p.name).mode != NoMode && RecordOf(w, p.name).baseline > 0) || env.allocatable > 0
    ensures var r := SharingOnlyBase(p, env, UNDISTURBED, Loaded(p, w));
            && r.end == Going && RecordOf(r.w, p.name) == r.w.mem && r.w.mem == RecordOf(w, p.name).(baseline := r.w.mem.baseline)
            && r.w == w.(mem := r.w.mem, recs := r.w.recs, sawReady := false)
            && r.w.mem.baseline == (if RecordOf(w, p.name).mode != NoMode && RecordOf(w, p.name).baseline > 0
                                    then RecordOf(w, p.name).baseline else env.allocatable)
  {
  }

  /** An undisturbed edit or first apply that converges ends with configuration, wiring and journal at the request. */
  lemma ConvergedServes(p: Policy, env: Inputs, w: World)
    requires ReachesWiring(p, env, w) && env.converged && !env.verifyErr
    ensures var w' := Pass(p, env, UNDISTURBED, w);
            Serves(w', p.name, p.mode, p.replicas) && (p.mode == Mps ==> w'.daemon)
    ensures PassEnd(p, env, UNDISTURBED, w).end == Answer(TsReady, false)
  {
    hide ApplySharing, ConfigFree;
    BaseFirst(p, env, w);
    var w1 := SharingOnlyBase(p, env, UNDISTURBED, Loaded(p, w)).w;
    SameConfigFree(w, w1, p.name);
    ApplyUndisturbed(p, env, w1);
  }

  /** One that does not converge goes back to what was there: the earlier mode and replicas with their wiring, or nothing at
      all; and the generation is closed. */
  lemma UnconvergedGoesBack(p: Policy, env: Inputs, w: World)
    requires ReachesWiring(p, env, w) && !(env.converged && !env.verifyErr)
    ensures var w' := Pass(p, env, UNDISTURBED, w);
            && (forall mode: Mode, n: nat :: Serves(w, p.name, mode, n) ==> Serves(w', p.name, mode, n))
            && (Bared(w, p.name) ==> Bared(w', p.name))
            && RecordOf(w', p.name).rolledBackAt == p.generation
    ensures PassEnd(p, env, UNDISTURBED, w).end == Answer(TsRestored, env.verifyErr)
  {
    hide ApplySharing, ConfigFree;
    BaseFirst(p, env, w);
    var w1 := SharingOnlyBase(p, env, UNDISTURBED, Loaded(p, w)).w;
    SameConfigFree(w, w1, p.name);
    ApplyUndisturbed(p, env, w1);
  }

  // ----- over whole runs -----

  /** In a run that never forgets a configuration, an exclusive policy is neither wired nor configured after any undisturbed
      pass of its own; nor, at any crash point of any pass, while its journal does not say so. */
  lemma ExclusiveIsUnwired(nodes: Nodes, events: seq<Event>, p: Policy, env: Inputs)
    requires FairRun(nodes, events) && Remembers(events) && p.name != ""
    ensures RecordOf(Run(events), p.name).mode == NoMode ==> NotOwn(Run(events), p.name)
    ensures p.mode == NoMode ==> NotOwn(Pass(p, env, UNDISTURBED, Run(events)), p.name)
  {
    hide Run, Pass;
    RememberingRunSound(nodes, events);
    var w := Run(events);
    assert Sound(w, p.name, Physical(nodes, p.name));
    if p.mode == NoMode {
      if RecordOf(w, p.name).mode != NoMode && ConfigFree(w, p.name) {
        GivenUpLeavesNothing(p, env, w);
      } else {
        ExclusiveLeavesOthers(p, env, w);
      }
    }
  }

  lemma ExclusiveLeavesOthers(p: Policy, env: Inputs, w: World)
    requires p.mode == NoMode && Tidy(w) && p.name != ""
    requires (RecordOf(w, p.name).mode == NoMode && NotOwn(w, p.name)) || !ConfigFree(w, p.name)
    ensures NotOwn(Pass(p, env, UNDISTURBED, w), p.name)
  {
    hide OthersUseMps;
  }
}
