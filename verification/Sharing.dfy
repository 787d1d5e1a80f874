/** What sharing policies guarantee over runs of any number of them, with a crash or a failure at any write. */
module Sharing {
  import opened SharingModel

  // ----- what a pass of one policy leaves alone -----

  /** Records of other policies stay; the daemon goes only when none of them journals mps; a configuration or
      wiring that appears is the policy's own. */
  ghost predicate Contained(a: World, b: World, self: string) {
    && (forall n :: n != self ==> (n in b.recs <==> n in a.recs) && (n in a.recs ==> b.recs[n] == a.recs[n]))
    && (a.daemon && !b.daemon ==> !OthersUseMps(a.recs, self))
    && (b.config.Some? ==> b.config == a.config || b.config.value.owner == self)
    && (b.wiredBy == a.wiredBy || b.wiredBy == "" || b.wiredBy == self)
  }

  lemma ContainedCompose(self: string)
    ensures forall a :: Contained(a, a, self)
    ensures forall a, b, c :: Contained(a, b, self) && Contained(b, c, self) ==> Contained(a, c, self)
  {
    forall a, b, c | Contained(a, b, self) && Contained(b, c, self) ensures Contained(a, c, self) {
      assert OthersUseMps(a.recs, self) ==> OthersUseMps(b.recs, self);
    }
  }

  lemma PatchContained(s: Script, site: Site, self: string, w: World, r: Record)
    ensures Contained(w, Patch(s, site, self, w, r).w, self) && Contained(w, Logged(Patch(s, site, self, w, r)).w, self)
  {
  }

  lemma ReleaseContained(s: Script, call: nat, self: string, w: World)
    ensures Contained(w, ReleaseDaemon(s, call, self, w).w, self)
  {
    hide OthersUseMps;
  }

  lemma EnsureContained(s: Script, call: nat, mode: Mode, self: string, env: Inputs, w: World)
    ensures Contained(w, EnsureDaemon(s, call, mode, self, env, w).w, self)
  {
    hide OthersUseMps;
  }

  lemma ConfigContained(s: Script, site: Site, p: Policy, env: Inputs, w: World)
    ensures Contained(w, PutConfig(s, site, p, env, w).w, p.name)
  {
  }

  lemma RollbackContained(s: Script, self: string, b: Before, w: World)
    requires Tidy(w)
    ensures Contained(w, RollbackSharing(s, self, b, w).w, self)
  {
  }

  // ----- the configuration has one owner -----

  /** Whoever wired the device plugin wrote the configuration, and every configuration is signed. */
  predicate Tidy(w: World) {
    w.config.Some? ==> w.config.value.owner != "" && (w.wiredBy == "" || w.wiredBy == w.config.value.owner)
  }

  // ----- the journaled base -----

  predicate Based(r: Record, physical: int) {
    r.mode != NoMode ==> r.baseline == physical
  }

  /** Neither the configuration nor the wiring is the policy's. */
  predicate NotOwn(w: World, name: string) {
    (w.config.None? || w.config.value.owner != name) && (name == "" || w.wiredBy != name)
  }

  /** While a policy's configuration or wiring exists its journal says so, and a journal that says so holds the physical
      count. */
  predicate Sound(w: World, name: string, physical: int) {
    Based(RecordOf(w, name), physical) && (!NotOwn(w, name) ==> RecordOf(w, name).mode != NoMode)
  }

  /** The same of the running pass's copy. */
  predicate Running(w: World, name: string, physical: int) {
    && Tidy(w) && Sound(w, name, physical) && Based(w.mem, physical)
    && (!NotOwn(w, name) ==> w.mem.mode != NoMode)
  }

  predicate TakesBack(s: Script) {
    At(s, RestoreConfig) != Fails
  }

  /** An apply that wrote its configuration and is then abandoned in the wiring. */
  predicate WireAbandoned(s: Script) {
    At(s, RewriteConfig) == Fails || (At(s, RewriteConfig) == Does && At(s, WirePlugin) == Fails)
  }

  /** The same, or abandoned because the daemon could not be had. */
  predicate ApplyAbandoned(p: Policy, env: Inputs, s: Script, w: World) {
    var d := EnsureDaemon(s, 1, p.mode, p.name, env, w).end;
    && At(s, JournalSharing) == Does && env.layoutValid && ConfigFree(w, p.name) && At(s, WriteConfig) == Does
    && (d.Answer? || (d == Going && WireAbandoned(s)))
  }

  /** The first configuration of a policy is abandoned and cannot be taken back. */
  predicate Abandons(p: Policy, env: Inputs, s: Script, w: World) {
    && p.mode != NoMode && RecordOf(w, p.name).mode == NoMode && !Closed(RecordOf(w, p.name), p.generation)
    && env.precheck == Accepts && At(s, ReadNode) == Does && env.allocatable > 0 && At(s, JournalBase) == Does
    && env.again == Accepts && ApplyAbandoned(p, env, s, w)
    && !TakesBack(s)
  }

  /** The one failure the journal cannot survive: on top of that, it is made to forget the configuration. */
  predicate Forgets(p: Policy, env: Inputs, s: Script, w: World) {
    Abandons(p, env, s, w) && (At(s, RestoreRecord) == Does || (At(s, RestoreRecord) == Fails && At(s, StatusWrite) == Does))
  }

  /** How a daemon call ends depends on the daemon and on the other policies alone. */
  lemma DaemonEnds(s: Script, call: nat, mode: Mode, self: string, env: Inputs, a: World, b: World)
    requires a.daemon == b.daemon && forall n :: n != self ==> (n in a.recs <==> n in b.recs) && (n in a.recs ==> a.recs[n] == b.recs[n])
    ensures EnsureDaemon(s, call, mode, self, env, a).end == EnsureDaemon(s, call, mode, self, env, b).end
  {
    assert OthersUseMps(a.recs, self) == OthersUseMps(b.recs, self);
  }

  lemma ReleaseRunning(s: Script, call: nat, self: string, w: World, name: string, physical: int)
    requires Running(w, name, physical)
    ensures Running(ReleaseDaemon(s, call, self, w).w, name, physical)
    ensures ReleaseDaemon(s, call, self, w).w.mem == w.mem
  {
    hide OthersUseMps;
  }

  lemma EnsureRunning(s: Script, call: nat, mode: Mode, self: string, env: Inputs, w: World, name: string, physical: int)
    requires Running(w, name, physical)
    ensures Running(EnsureDaemon(s, call, mode, self, env, w).w, name, physical)
    ensures var u := EnsureDaemon(s, call, mode, self, env, w).w; u.mem == w.mem && u.config == w.config && u.recs == w.recs && u.wiredBy == w.wiredBy
  {
    hide OthersUseMps;
  }

  lemma RollbackRunning(s: Script, self: string, b: Before, w: World, physical: int)
    requires self != "" && Running(w, self, physical)
    ensures var r := RollbackSharing(s, self, b, w);
            && Running(r.w, self, physical) && r.w.mem == w.mem && r.w.recs == w.recs
            && (b.was.None? && r.end == Going ==> NotOwn(r.w, self))
            && (b.was.None? && TakesBack(s) && ConfigFree(w, self) && w.wiredBy != self && r.end.Answer? ==> NotOwn(r.w, self))
  {
    hide Running;
    if ConfigFree(w, self) {
      var back := if b.was.Some? && w.config.Some? then Some(b.was.value.(owner := w.config.value.owner)) else None;
      BackRunning(w, self, back, physical);
      if w.config.Some? {
        BackRunning(w.(config := back), self, back, physical);
      }
    } else {
      TakenByOthers(w, self, physical);
    }
  }

  lemma TakenByOthers(w: World, self: string, physical: int)
    requires Running(w, self, physical) && !ConfigFree(w, self)
    ensures NotOwn(w, self)
  {
  }

  /** Taking back the configuration and the wiring of a policy, or of nobody. */
  lemma BackRunning(w: World, self: string, back: Option<Config>, physical: int)
    requires self != "" && Running(w, self, physical) && ConfigFree(w, self)
    requires back.Some? ==> w.config.Some? && back.value.owner == w.config.value.owner
    ensures Running(w.(config := back), self, physical) && Running(w.(wiredBy := ""), self, physical)
    ensures ConfigFree(w.(config := back), self) && (NotOwn(w, self) ==> NotOwn(w.(config := back), self))
    ensures back.None? && w.wiredBy != self ==> NotOwn(w.(config := back), self)
  {
  }

  /** Writing a mode into the own record, wherever the write ends. */
  lemma RecordRunning(s: Script, site: Site, p: Policy, w: World, r: Record, physical: int)
    requires Running(w, p.name, physical) && Based(r, physical) && (r.mode == NoMode ==> NotOwn(w, p.name))
    ensures Running(Logged(Patch(s, site, p.name, w, r)).w, p.name, physical)
    ensures Contained(w, Logged(Patch(s, site, p.name, w, r)).w, p.name)
  {
    PatchContained(s, site, p.name, w, r);
  }

  lemma DisableRunning(s: Script, p: Policy, w: World, physical: int)
    requires p.name != "" && Running(w, p.name, physical)
    ensures Running(DisableSharing(s, p, w).w, p.name, physical)
    ensures Contained(w, DisableSharing(s, p, w).w, p.name)
  {
    hide ReleaseDaemon, Contained, RollbackSharing, Patch, Running;
    ContainedCompose(p.name);
    ReleaseRunning(s, 3, p.name, w, p.name, physical);
    ReleaseContained(s, 3, p.name, w);
    var u1 := RollbackSharing(s, p.name, Before(None), w);
    RollbackContained(s, p.name, Before(None), w) by { TidyOf(w, p.name, physical); }
    RollbackRunning(s, p.name, Before(None), w, physical);
    if u1.end == Going {
      var r := u1.w.mem.(mode := NoMode, replicas := 0);
      RecordRunning(s, RestoreRecord, p, u1.w, r, physical);
      var u3 := Logged(Patch(s, RestoreRecord, p.name, u1.w, r));
      ReleaseRunning(s, 3, p.name, u3.w, p.name, physical);
      ReleaseContained(s, 3, p.name, u3.w);
    }
  }

  lemma TidyOf(w: World, name: string, physical: int)
    requires Running(w, name, physical)
    ensures Tidy(w)
  {
  }

  /** What an abandoned apply needs to know about the record and the configuration it goes back to. */
  predicate Restorable(prior: Record, b: Option<Before>, name: string, physical: int) {
    && Based(prior, physical)
    && (prior.mode == NoMode && b.Some? ==> b.value.was.None?)
  }

  lemma FailedRunning(s: Script, p: Policy, w: World, prior: Record, b: Option<Before>, physical: int)
    requires p.name != "" && Running(w, p.name, physical) && Restorable(prior, b, p.name, physical)
    requires TakesBack(s) || prior.mode != NoMode || b.None?
    requires w.mem.baseline == physical && ConfigFree(w, p.name)
    requires prior.mode == NoMode ==> w.wiredBy != p.name
    requires prior.mode == NoMode && b.None? ==> w.config.None? || w.config.value.owner != p.name
    ensures Running(ApplyFailed(s, p, w, prior, b).w, p.name, physical)
    ensures Contained(w, ApplyFailed(s, p, w, prior, b).w, p.name)
  {
    hide Contained, RollbackSharing, Running, ConfigFree, Patch;
    ContainedCompose(p.name);
    var w1 := if b.Some? then RollbackSharing(s, p.name, b.value, w).w else w;
    if b.Some? {
      RollbackContained(s, p.name, b.value, w) by { TidyOf(w, p.name, physical); }
      RollbackRunning(s, p.name, b.value, w, physical);
    }
    if b.None? || RollbackSharing(s, p.name, b.value, w).end == Going || RollbackSharing(s, p.name, b.value, w).end.Answer? {
      RecordRunning(s, RestoreRecord, p, w1, w1.mem.(mode := prior.mode, replicas := prior.replicas), physical);
    }
  }

  lemma MarkFits(p: Policy, w: World, physical: int)
    requires Running(w, p.name, physical)
    ensures Based(w.mem.(rolledBackAt := p.generation), physical) && (w.mem.mode == NoMode ==> NotOwn(w, p.name))
  {
  }

  lemma NotConvergedRunning(s: Script, p: Policy, env: Inputs, w: World, prior: Record, b: Before, physical: int)
    requires p.name != "" && Running(w, p.name, physical) && Restorable(prior, Some(b), p.name, physical)
    requires w.mem.baseline == physical
    ensures Running(NotConverged(s, p, env, w, prior, b).w, p.name, physical)
    ensures Contained(w, NotConverged(s, p, env, w, prior, b).w, p.name)
  {
    hide Contained, ReleaseDaemon, RollbackSharing, Reverted, Running;
    ContainedCompose(p.name);
    RollbackContained(s, p.name, b, w) by { TidyOf(w, p.name, physical); }
    RollbackRunning(s, p.name, b, w, physical);
    var r := RollbackSharing(s, p.name, b, w);
    if r.end == Going {
      RevertedRunning(s, p, r.w, prior, physical);
      var r4 := Reverted(s, p, r.w, prior);
      ReleaseRunning(s, 2, p.name, r4.w, p.name, physical);
      ReleaseContained(s, 2, p.name, r4.w);
    }
  }

  lemma RevertedRunning(s: Script, p: Policy, w: World, prior: Record, physical: int)
    requires Running(w, p.name, physical) && w.mem.baseline == physical && (prior.mode == NoMode ==> NotOwn(w, p.name))
    ensures Running(Reverted(s, p, w, prior).w, p.name, physical)
    ensures Contained(w, Reverted(s, p, w, prior).w, p.name)
  {
    hide Contained, Running, Patch;
    ContainedCompose(p.name);
    RecordRunning(s, RestoreRecord, p, w, w.mem.(mode := prior.mode, replicas := prior.replicas), physical);
    var w1 := Logged(Patch(s, RestoreRecord, p.name, w, w.mem.(mode := prior.mode, replicas := prior.replicas))).w;
    MarkFits(p, w1, physical);
    RecordRunning(s, MarkRolledBack, p, w1, w1.mem.(rolledBackAt := p.generation), physical);
  }

  lemma WireRunning(p: Policy, env: Inputs, s: Script, w: World, prior: Record, b: Before, physical: int)
    requires p.name != "" && Running(w, p.name, physical) && Restorable(prior, Some(b), p.name, physical)
    requires TakesBack(s) || prior.mode != NoMode || !WireAbandoned(s)
    requires w.mem.baseline == physical && ConfigFree(w, p.name) && env.layoutValid
    requires w.mem.mode != NoMode && RecordOf(w, p.name) == w.mem
    requires prior.mode == NoMode ==> w.wiredBy != p.name
    ensures Running(Wire(p, env, s, w, prior, b).w, p.name, physical)
    ensures Contained(w, Wire(p, env, s, w, prior, b).w, p.name)
  {
    hide Contained, NotConverged, ApplyFailed;
    ContainedCompose(p.name);
    ConfigContained(s, RewriteConfig, p, env, w);
    var c := PutConfig(s, RewriteConfig, p, env, w);
    assert Running(c.w, p.name, physical);
    if c.end.Answer? || (c.end == Going && At(s, WirePlugin) == Fails) {
      FailedRunning(s, p, c.w, prior, Some(b), physical);
    }
    if c.end == Going {
      var w2 := c.w.(wiredBy := p.name, applies := c.w.applies + 1);
      assert Contained(c.w, w2, p.name) by { SameContained(c.w, w2, p.name); }
      NotConvergedRunning(s, p, env, w2, prior, b, physical);
    }
  }

  lemma SameContained(a: World, b: World, self: string)
    requires a.recs == b.recs && a.daemon == b.daemon && a.config == b.config && (b.wiredBy == a.wiredBy || b.wiredBy == self)
    ensures Contained(a, b, self)
  {
  }

  lemma ApplyRunning(p: Policy, env: Inputs, s: Script, w: World, physical: int)
    requires p.name != "" && p.mode != NoMode && Running(w, p.name, physical) && w.mem.baseline == physical
    requires RecordOf(w, p.name) == w.mem
    requires TakesBack(s) || w.mem.mode != NoMode || !ApplyAbandoned(p, env, s, w)
    ensures Running(ApplySharing(p, env, s, w).w, p.name, physical)
    ensures Contained(w, ApplySharing(p, env, s, w).w, p.name)
  {
    hide Contained, Wire, ApplyFailed, EnsureDaemon;
    ContainedCompose(p.name);
    var prior := w.mem;
    var r := w.mem.(mode := p.mode, replicas := p.replicas);
    PatchContained(s, JournalSharing, p.name, w, r);
    var r1 := Patch(s, JournalSharing, p.name, w, r);
    if r1.end == Going {
      var w1 := r1.w;
      ConfigContained(s, WriteConfig, p, env, w1);
      var c := PutConfig(s, WriteConfig, p, env, w1);
      if c.end.Answer? {
        RefusedRunning(p, s, w, w1, physical);
      } else if c.end == Going {
        var b := Before(w1.config);
        assert Running(c.w, p.name, physical) && Restorable(prior, Some(b), p.name, physical);
        EnsureRunning(s, 1, p.mode, p.name, env, c.w, p.name, physical);
        EnsureContained(s, 1, p.mode, p.name, env, c.w);
        var d := EnsureDaemon(s, 1, p.mode, p.name, env, c.w);
        DaemonEnds(s, 1, p.mode, p.name, env, w, c.w);
        if d.end.Answer? {
          FailedRunning(s, p, d.w, prior, Some(b), physical);
        } else if d.end == Going {
          WireRunning(p, env, s, d.w, prior, b, physical);
        }
      }
    }
  }

  /** A refused configuration write leaves nothing to take back. */
  lemma RefusedRunning(p: Policy, s: Script, w: World, w1: World, physical: int)
    requires p.name != "" && p.mode != NoMode && Running(w, p.name, physical) && w.mem.baseline == physical
    requires RecordOf(w, p.name) == w.mem
    requires w1 == Patch(s, JournalSharing, p.name, w, w.mem.(mode := p.mode, replicas := p.replicas)).w
    ensures Running(ApplyFailed(s, p, w1, w.mem, None).w, p.name, physical)
    ensures Contained(w1, ApplyFailed(s, p, w1, w.mem, None).w, p.name)
  {
    hide Contained;
    ContainedCompose(p.name);
    PatchContained(s, RestoreRecord, p.name, w1, w1.mem.(mode := w.mem.mode, replicas := w.mem.replicas));
  }

  lemma SharingRunning(p: Policy, env: Inputs, s: Script, w: World, physical: int)
    requires p.name != "" && p.mode != NoMode && Running(w, p.name, physical) && w.mem.baseline == physical
    requires RecordOf(w, p.name) == w.mem
    requires env.again == Accepts && !Closed(w.mem, p.generation) ==> TakesBack(s) || w.mem.mode != NoMode || !ApplyAbandoned(p, env, s, w)
    ensures Running(RunSharing(p, env, s, w).w, p.name, physical)
    ensures Contained(w, RunSharing(p, env, s, w).w, p.name)
  {
    hide Contained, Running, ApplySharing, EnsureDaemon, ReleaseDaemon, DisableSharing;
    ContainedCompose(p.name);
    DisableRunning(s, p, w, physical);
    ReleaseRunning(s, 0, p.name, w, p.name, physical);
    ReleaseContained(s, 0, p.name, w);
    EnsureRunning(s, 0, p.mode, p.name, env, w, p.name, physical);
    EnsureContained(s, 0, p.mode, p.name, env, w);
    if env.again == Accepts && !Closed(w.mem, p.generation) {
      ApplyRunning(p, env, s, w, physical);
      if w.mem.mode == p.mode {
        ApplyRunning(p, env, s, EnsureDaemon(s, 0, p.mode, p.name, env, w).w, physical);
      }
    }
  }

  // ----- the base -----

  /** Without a configuration the node advertises its physical GPUs (or none, while the plugin restarts). */
  predicate Honest(env: Inputs, w: World, physical: int) {
    w.config.None? ==> env.allocatable == physical || env.allocatable <= 0
  }

  predicate Foreign(w: World, name: string) {
    w.config.Some? && w.config.value.owner != name
  }

  /** The count a pass goes on with. */
  function BaseOf(p: Policy, env: Inputs, s: Script, w: World): R {
    SharingOnlyBase(p, env, s, Loaded(p, w))
  }

  /** In a sound state the base of a pass is the physical count or an error, under every honest reading, if and only
      if the pass does not read the node while nothing is journaled and another policy's configuration is in place. */
  lemma BaseIsPhysicalIff(p: Policy, w: World, physical: int)
    requires physical > 0 && p.name != "" && Tidy(w) && Sound(w, p.name, physical)
    ensures (forall env: Inputs, s: Script ::
               Honest(env, w, physical) && BaseOf(p, env, s, w).end == Going ==> BaseOf(p, env, s, w).w.mem.baseline == physical)
       <==> !(RecordOf(w, p.name).mode == NoMode && Foreign(w, p.name))
  {
    if RecordOf(w, p.name).mode == NoMode && Foreign(w, p.name) {
      var env := Inputs(physical + 1, Accepts, Accepts, true, {}, true, true, false);
      assert Honest(env, w, physical);
      assert BaseOf(p, env, UNDISTURBED, w).end == Going && BaseOf(p, env, UNDISTURBED, w).w.mem.baseline == physical + 1;
    }
  }

  /** An honest pass that does not read the node under another policy's configuration. */
  predicate Fair(p: Policy, env: Inputs, w: World, physical: int) {
    Honest(env, w, physical) && !(p.mode != NoMode && RecordOf(w, p.name).mode == NoMode && Foreign(w, p.name))
  }

  lemma BaseRunning(p: Policy, env: Inputs, s: Script, w: World, physical: int)
    requires physical > 0 && p.name != "" && p.mode != NoMode && Tidy(w) && Sound(w, p.name, physical) && Fair(p, env, w, physical)
    ensures var w0 := Loaded(p, w); var r := SharingOnlyBase(p, env, s, w0);
            && Running(w0, p.name, physical) && Running(r.w, p.name, physical) && Contained(w, r.w, p.name)
            && (r.end == Going ==> r.w.mem.baseline == physical && RecordOf(r.w, p.name) == r.w.mem)
            && r.w.mem == w0.mem.(baseline := r.w.mem.baseline) && r.w.daemon == w.daemon
            && r.w.config == w.config && r.w.wiredBy == w.wiredBy
  {
    hide Contained;
    ContainedCompose(p.name);
    var w0 := Loaded(p, w);
    SameContained(w, w0, p.name);
    PatchContained(s, JournalBase, p.name, w0, w0.mem.(baseline := env.allocatable));
  }

  lemma PassRunning(p: Policy, env: Inputs, s: Script, w: World, physical: int)
    requires physical > 0 && p.name != "" && Tidy(w) && Sound(w, p.name, physical) && Fair(p, env, w, physical)
    requires !Abandons(p, env, s, w)
    ensures Tidy(Pass(p, env, s, w)) && Sound(Pass(p, env, s, w), p.name, physical)
    ensures Contained(w, Pass(p, env, s, w), p.name)
  {
    hide DisableSharing, RunSharing, SharingOnlyBase, Contained, ApplyAbandoned, Fair;
    ContainedCompose(p.name);
    var w0 := Loaded(p, w);
    SameContained(w, w0, p.name);
    assert Running(w0, p.name, physical);
    DisableRunning(s, p, w0, physical);
    if p.mode != NoMode && env.precheck == Accepts {
      BaseRunning(p, env, s, w, physical);
      var r := SharingOnlyBase(p, env, s, w0);
      if r.end == Going {
        AbandonedAfterBase(p, env, s, w, physical);
        SharingRunning(p, env, s, r.w, physical);
      }
    }
    var r := PassEnd(p, env, s, w);
    assert Running(r.w, p.name, physical);
    assert Contained(r.w, Saved(r.w, p.name), p.name) by { WriteContained(p, r.w); }
  }

  /** Once the base is there the two descriptions of an abandoned apply agree. */
  lemma AbandonedAfterBase(p: Policy, env: Inputs, s: Script, w: World, physical: int)
    requires physical > 0 && p.name != "" && p.mode != NoMode && Tidy(w) && Sound(w, p.name, physical) && Fair(p, env, w, physical)
    requires env.precheck == Accepts && SharingOnlyBase(p, env, s, Loaded(p, w)).end == Going
    ensures var v := SharingOnlyBase(p, env, s, Loaded(p, w)).w;
            Abandons(p, env, s, w) <==>
              && env.again == Accepts && !Closed(v.mem, p.generation) && v.mem.mode == NoMode && !TakesBack(s)
              && ApplyAbandoned(p, env, s, v)
  {
    hide EnsureDaemon;
    BaseRunning(p, env, s, w, physical);
    DaemonEnds(s, 1, p.mode, p.name, env, w, SharingOnlyBase(p, env, s, Loaded(p, w)).w);
  }

  /** What is left of an apply of p when its configuration could not be taken back; a is where the apply began. */
  ghost predicate LeftBehind(p: Policy, s: Script, a: World, r: R) {
    && r.w.config == Some(Config(p.name, p.mode, p.replicas)) && Free(r.w.wiredBy, p.name)
    && Contained(a, r.w, p.name)
    && RecordOf(r.w, p.name).mode == (if At(s, RestoreRecord) == Does then NoMode else p.mode)
    && RecordOf(r.w, p.name).baseline == a.mem.baseline && r.w.mem.baseline == a.mem.baseline
    && (if At(s, RestoreRecord) == Dies then r.end == Died else r.end != Died && r.w.mem.mode == NoMode)
  }

  /** An apply that has written its configuration. */
  ghost predicate Written(p: Policy, w: World) {
    && w.config == Some(Config(p.name, p.mode, p.replicas)) && Free(w.wiredBy, p.name)
    && RecordOf(w, p.name) == w.mem && w.mem.mode == p.mode
  }

  lemma StuckFailed(p: Policy, s: Script, w: World, prior: Record, b: Before)
    requires p.name != "" && p.mode != NoMode && prior.mode == NoMode && !TakesBack(s) && Written(p, w)
    ensures LeftBehind(p, s, w, ApplyFailed(s, p, w, prior, Some(b)))
  {
    PatchContained(s, RestoreRecord, p.name, w, w.mem.(mode := prior.mode, replicas := prior.replicas));
    assert RollbackSharing(s, p.name, b, w) == R(w, Answer(NoTarget, true));
  }

  lemma LeftBehindFrom(p: Policy, s: Script, a: World, b: World, r: R)
    requires LeftBehind(p, s, b, r) && Contained(a, b, p.name) && a.mem.baseline == b.mem.baseline
    ensures LeftBehind(p, s, a, r)
  {
    hide Contained;
    ContainedCompose(p.name);
  }

  lemma AbandonedWire(p: Policy, env: Inputs, s: Script, w: World, prior: Record, b: Before)
    requires p.name != "" && p.mode != NoMode && prior.mode == NoMode && !TakesBack(s) && Written(p, w)
    requires WireAbandoned(s) && env.layoutValid
    ensures LeftBehind(p, s, w, Wire(p, env, s, w, prior, b))
  {
    hide ApplyFailed, NotConverged, LeftBehind;
    StuckFailed(p, s, w, prior, b);
    assert PutConfig(s, RewriteConfig, p, env, w).w == w;
  }

  /** What an abandoned first apply leaves when its configuration cannot be taken back. */
  lemma AbandonedApply(p: Policy, env: Inputs, s: Script, w: World)
    requires p.name != "" && p.mode != NoMode && w.mem.mode == NoMode && RecordOf(w, p.name) == w.mem
    requires ApplyAbandoned(p, env, s, w) && !TakesBack(s)
    ensures LeftBehind(p, s, w, ApplySharing(p, env, s, w))
  {
    hide Contained, EnsureDaemon, ApplyFailed, Wire, LeftBehind;
    ContainedCompose(p.name);
    var j := w.mem.(mode := p.mode, replicas := p.replicas);
    PatchContained(s, JournalSharing, p.name, w, j);
    var w1 := Patch(s, JournalSharing, p.name, w, j).w;
    ConfigContained(s, WriteConfig, p, env, w1);
    var w2 := PutConfig(s, WriteConfig, p, env, w1).w;
    DaemonEnds(s, 1, p.mode, p.name, env, w, w2);
    EnsureContained(s, 1, p.mode, p.name, env, w2);
    EnsureKeepsRecords(s, 1, p.mode, p.name, env, w2);
    var d := EnsureDaemon(s, 1, p.mode, p.name, env, w2);
    assert Written(p, d.w) && Contained(w, d.w, p.name);
    if d.end.Answer? {
      StuckFailed(p, s, d.w, w.mem, Before(w1.config));
    } else {
      AbandonedWire(p, env, s, d.w, w.mem, Before(w1.config));
    }
    LeftBehindFrom(p, s, w, d.w, ApplySharing(p, env, s, w));
  }

  lemma EnsureKeepsRecords(s: Script, call: nat, mode: Mode, self: string, env: Inputs, w: World)
    ensures var u := EnsureDaemon(s, call, mode, self, env, w).w;
            u.mem == w.mem && u.config == w.config && u.recs == w.recs && u.wiredBy == w.wiredBy
  {
    hide OthersUseMps;
  }

  lemma AbandonedPass(p: Policy, env: Inputs, s: Script, w: World, physical: int)
    requires physical > 0 && p.name != "" && Tidy(w) && Sound(w, p.name, physical) && Fair(p, env, w, physical)
    requires Abandons(p, env, s, w)
    ensures Tidy(Pass(p, env, s, w)) && Contained(w, Pass(p, env, s, w), p.name)
    ensures Sound(Pass(p, env, s, w), p.name, physical) <==> !Forgets(p, env, s, w)
  {
    hide ApplySharing, ApplyAbandoned, Contained;
    ContainedCompose(p.name);
    BaseRunning(p, env, s, w, physical);
    var v := SharingOnlyBase(p, env, s, Loaded(p, w)).w;
    AbandonedAfterBase(p, env, s, w, physical);
    AbandonedApply(p, env, s, v);
    var r := ApplySharing(p, env, s, v);
    assert PassEnd(p, env, s, w) == r;
    assert Contained(r.w, Saved(r.w, p.name), p.name) by { WriteContained(p, r.w); }
  }

  /** A fair pass, cut off or disturbed anywhere, keeps the journal and the configuration consistent if and only if it
      does not abandon the policy's first configuration, fail to take it back, and forget it all the same; what it does
      to the others is bounded either way. */
  lemma PassSoundIff(p: Policy, env: Inputs, s: Script, w: World, physical: int)
    requires physical > 0 && p.name != "" && Tidy(w) && Sound(w, p.name, physical) && Fair(p, env, w, physical)
    ensures Tidy(Pass(p, env, s, w)) && Contained(w, Pass(p, env, s, w), p.name)
    ensures Sound(Pass(p, env, s, w), p.name, physical) <==> !Forgets(p, env, s, w)
  {
    hide Pass, Contained, Abandons, Sound, Fair;
    if Abandons(p, env, s, w) {
      AbandonedPass(p, env, s, w, physical);
    } else {
      PassRunning(p, env, s, w, physical);
    }
  }

  lemma WriteContained(p: Policy, w: World)
    ensures Contained(w, Saved(w, p.name), p.name)
  {
  }

  lemma RemovalSound(p: Policy, s: Script, w: World, physical: int)
    requires p.name != "" && Tidy(w) && Sound(w, p.name, physical)
    ensures Tidy(Removal(p, s, w)) && Sound(Removal(p, s, w), p.name, physical)
    ensures Contained(w, Removal(p, s, w), p.name)
  {
    hide ReleaseDaemon, RollbackSharing, Contained, OthersUseMps;
    ContainedCompose(p.name);
    var w0 := Loaded(p, w);
    SameContained(w, w0, p.name);
    assert Running(w0, p.name, physical);
    RollbackContained(s, p.name, Before(None), w0);
    RollbackRunning(s, p.name, Before(None), w0, physical);
    var r1 := if w0.mem.mode == NoMode then R(w0, Going) else RollbackSharing(s, p.name, Before(None), w0);
    if r1.end == Going {
      assert NotOwn(r1.w, p.name);
      assert Running(r1.w, p.name, physical);
      ReleaseRunning(s, 0, p.name, r1.w, p.name, physical);
      ReleaseContained(s, 0, p.name, r1.w);
      var r2 := ReleaseDaemon(s, 0, p.name, r1.w);
      assert NotOwn(r2.w, p.name) by { ReleaseKeepsConfig(s, 0, p.name, r1.w); }
      assert Contained(r2.w, r2.w.(recs := r2.w.recs - {p.name}), p.name) by { DropContained(p, r2.w); }
    }
  }

  lemma ReleaseKeepsConfig(s: Script, call: nat, self: string, w: World)
    ensures ReleaseDaemon(s, call, self, w).w.config == w.config && ReleaseDaemon(s, call, self, w).w.recs == w.recs
    ensures ReleaseDaemon(s, call, self, w).w.wiredBy == w.wiredBy
  {
    hide OthersUseMps;
  }

  lemma DropContained(p: Policy, w: World)
    ensures Contained(w, w.(recs := w.recs - {p.name}), p.name)
  {
  }
}
