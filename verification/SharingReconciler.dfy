/** The sharing pass as the program runs it: a reconciler that rewrites its record in place and creates, changes and
    deletes the configuration, the wiring and the daemon. Every method leaves exactly what the function of the same
    step in module SharingModel says. */
module SharingReconciler {
  import opened SharingModel

  // ----- who may use the devices -----

  datatype Device = Device(pci: string, multiProcess: bool)

  /** A policy as the list call returns it: its own identity, and the claim in its record for the node. */
  datatype Claimant = Claimant(name: string, uid: string, ownerUID: string, pcis: seq<string>)

  predicate Claims(c: Claimant, self: string, pci: string) {
    c.name != self && c.ownerUID != "" && c.ownerUID == c.uid && pci in c.pcis
  }

  method DevicesOwnedByOtherPolicies(list: seq<Claimant>, self: string) returns (owned: set<string>)
    ensures forall x :: x in owned <==> exists i :: 0 <= i < |list| && Claims(list[i], self, x)
  {
    owned := {};
    for i := 0 to |list|
      invariant forall x :: x in owned <==> exists k :: 0 <= k < i && Claims(list[k], self, x)
    {
      var c := list[i];
      if c.name == self || c.ownerUID == "" || c.ownerUID != c.uid {
        continue;
      }
      ghost var before := owned;
      for j := 0 to |c.pcis|
        invariant forall x :: x in owned <==> x in before || x in c.pcis[..j]
      {
        owned := owned + {c.pcis[j]};
        assert c.pcis[..j + 1] == c.pcis[..j] + [c.pcis[j]];
      }
      assert c.pcis[..|c.pcis|] == c.pcis;
    }
  }

  /** The device part of the mps precheck: it accepts exactly when every device nobody else claims can run MPS and
      there is one (or the node shows no device at all). */
  method PrecheckDevices(devices: seq<Device>, owned: set<string>) returns (ok: bool)
    ensures ok <==>
              && (forall i :: 0 <= i < |devices| && devices[i].pci !in owned ==> devices[i].multiProcess)
              && (devices == [] || exists i :: 0 <= i < |devices| && devices[i].pci !in owned)
  {
    var judged := 0;
    for i := 0 to |devices|
      invariant forall k :: 0 <= k < i && devices[k].pci !in owned ==> devices[k].multiProcess
      invariant judged > 0 <==> exists k :: 0 <= k < i && devices[k].pci !in owned
    {
      if devices[i].pci in owned {
        continue;
      }
      judged := judged + 1;
      if !devices[i].multiProcess {
        return false;
      }
    }
    return judged > 0 || |devices| == 0;
  }

  // ----- the pass -----

  class PolicyReconciler {
    const policy: Policy
    const env: Inputs
    const script: Script

    var recs: map<string, Record>
    var mem: Record
    var config: Option<Config>
    var wiredBy: string
    var daemon: bool
    ghost var sawReady: bool
    ghost var applies: nat

    ghost function W(): World
      reads this
    {
      World(recs, mem, config, wiredBy, daemon, sawReady, applies)
    }

    constructor (policy: Policy, env: Inputs, script: Script, recs: map<string, Record>, config: Option<Config>, wiredBy: string,
                 daemon: bool, ghost applies: nat)
      ensures this.policy == policy && this.env == env && this.script == script
      ensures W() == World(recs, NO_RECORD, config, wiredBy, daemon, false, applies)
    {
      this.policy, this.env, this.script := policy, env, script;
      this.recs, this.mem, this.config, this.wiredBy, this.daemon := recs, NO_RECORD, config, wiredBy, daemon;
      this.sawReady, this.applies := false, applies;
    }

    method Call(site: Site) returns (e: End)
      ensures R(W(), e) == Do(script, site, W(), W())
    {
      match At(script, site) {
        case Does => return Going;
        case Fails => return Answer(NoTarget, true);
        case Dies => return Died;
      }
    }

    method Note(site: Site) returns (e: End)
      ensures R(W(), e) == Logged(Do(script, site, W(), W()))
    {
      e := Call(site);
      if e.Answer? {
        e := Going;
      }
    }

    method PatchApplyRecord(site: Site, r: Record) returns (e: End)
      modifies this`mem, this`recs
      ensures R(W(), e) == Patch(script, site, policy.name, old(W()), r)
    {
      match At(script, site) {
        case Does =>
          if mem != r {
            mem := r;
            recs := recs[policy.name := r];
          } else {
            mem := if policy.name in recs then recs[policy.name] else NO_RECORD;
          }
          return Going;
        case Fails =>
          mem := r;
          return Answer(NoTarget, true);
        case Dies =>
          return Died;
      }
    }

    /** A record write whose error is dropped. */
    method NoteRecord(site: Site, r: Record) returns (e: End)
      modifies this`mem, this`recs
      ensures R(W(), e) == Logged(Patch(script, site, policy.name, old(W()), r))
    {
      e := PatchApplyRecord(site, r);
      if e.Answer? {
        e := Going;
      }
    }

    /** Searches the records of the other policies, in whatever order they are listed. */
    method AnyPolicyStillUsesMps() returns (used: bool)
      ensures used == OthersUseMps(recs, policy.name)
    {
      var left := recs.Keys;
      while left != {}
        invariant left <= recs.Keys
        invariant forall n :: n in recs && n !in left && n != policy.name ==> recs[n].mode != Mps
        decreases |left|
      {
        var n :| n in left;
        left := left - {n};
        if n != policy.name && recs[n].mode == Mps {
          return true;
        }
      }
      return false;
    }

    method EnsureMpsControlDaemon(call: nat, mode: Mode) returns (e: End)
      modifies this`daemon, this`sawReady
      ensures R(W(), e) == EnsureDaemon(script, call, mode, policy.name, env, old(W()))
    {
      hide OthersUseMps;
      if mode != Mps {
        :- Call(GetDaemon(call));
        if !daemon {
          return Going;
        }
        :- Call(ListPolicies(call));
        var used := AnyPolicyStillUsesMps();
        if used {
          return Going;
        }
        :- Call(DeleteDaemon(call));
        daemon := false;
        return Going;
      }
      :- Call(DeleteLegacy(call));
      :- Call(PutDaemon(call));
      daemon := true;
      :- Call(ListPods(call));
      if call !in env.readyAt {
        return NotReady;
      }
      sawReady := true;
      return Going;
    }

    method ApplySharingConfig(site: Site) returns (e: End)
      modifies this`config
      ensures R(W(), e) == PutConfig(script, site, policy, env, old(W()))
    {
      hide Free;
      if !env.layoutValid {
        return Answer(NoTarget, true);
      }
      if !Free(wiredBy, policy.name) {
        return Answer(NoTarget, true);
      }
      if config.Some? && !Free(config.value.owner, policy.name) {
        return Answer(NoTarget, true);
      }
      :- Call(site);
      config := Some(Config(policy.name, policy.mode, policy.replicas));
      return Going;
    }

    method RollBackConfig(b: Before) returns (e: End)
      modifies this`config, this`wiredBy
      ensures R(W(), e) == RollbackSharing(script, policy.name, b, old(W()))
    {
      hide Free;
      if !Free(wiredBy, policy.name) {
        return Going;
      }
      if config.Some? {
        if !Free(config.value.owner, policy.name) {
          return Going;
        }
        :- Call(RestoreConfig);
        config := if b.was.Some? then Some(b.was.value.(owner := config.value.owner)) else None;
      }
      if b.was.Some? {
        return Going;
      }
      :- Call(Unwire);
      wiredBy := "";
      return Going;
    }

    method Base() returns (e: End)
      modifies this`mem, this`recs
      ensures R(W(), e) == SharingOnlyBase(policy, env, script, old(W()))
    {
      if mem.mode != NoMode && mem.baseline > 0 {
        return Going;
      }
      :- Call(ReadNode);
      if env.allocatable <= 0 {
        return Answer(NoTarget, true);
      }
      e := PatchApplyRecord(JournalBase, mem.(baseline := env.allocatable));
    }

    method Disable() returns (e: End)
      modifies this
      ensures R(W(), e) == DisableSharing(script, policy, old(W()))
    {
      hide RollbackSharing, ReleaseDaemon, Patch;
      if mem.mode != NoMode {
        :- RollBackConfig(Before(None));
        :- Note(RestartPlugin);
        :- NoteRecord(RestoreRecord, mem.(mode := NoMode, replicas := 0));
      }
      e := EnsureMpsControlDaemon(3, NoMode);
    }

    method Reject() returns (e: End)
      modifies this
      ensures R(W(), e) == Rejected(script, policy, old(W()))
    {
      hide DisableSharing;
      e := Disable();
      if e == Died {
        return;
      }
      return Answer(TsRejected, e != Going);
    }

    method AbandonApply(prior: Record, b: Option<Before>) returns (e: End)
      modifies this
      ensures R(W(), e) == ApplyFailed(script, policy, old(W()), prior, b)
    {
      hide RollbackSharing, Patch;
      if b.Some? {
        e := RollBackConfig(b.value);
        if e.IsFailure() && !e.Answer? {
          return;
        }
      }
      :- NoteRecord(RestoreRecord, mem.(mode := prior.mode, replicas := prior.replicas));
      return Answer(TsFailed, true);
    }

    method FallBack(prior: Record, b: Before) returns (e: End)
      modifies this
      ensures R(W(), e) == NotConverged(script, policy, env, old(W()), prior, b)
    {
      hide RollbackSharing, Patch, ReleaseDaemon;
      e := RollBackConfig(b);
      if e.Answer? {
        return Answer(TsRollbackFailed, true);
      }
      :- e;
      :- Note(RestartAgain);
      :- NoteRecord(RestoreRecord, mem.(mode := prior.mode, replicas := prior.replicas));
      if mem.rolledBackAt != policy.generation {
        :- NoteRecord(MarkRolledBack, mem.(rolledBackAt := policy.generation));
      }
      e := EnsureMpsControlDaemon(2, NoMode);
      if e.IsFailure() && !e.Answer? {
        return;
      }
      return Answer(TsRestored, env.verifyErr);
    }

    method WireAndVerify(prior: Record, b: Before) returns (e: End)
      modifies this
      ensures R(W(), e) == Wire(policy, env, script, old(W()), prior, b)
    {
      hide PutConfig, ApplyFailed, NotConverged;
      e := ApplySharingConfig(RewriteConfig);
      if e.Answer? {
        e := AbandonApply(prior, Some(b));
        return;
      }
      :- e;
      e := Call(WirePlugin);
      if e.Answer? {
        e := AbandonApply(prior, Some(b));
        return;
      }
      :- e;
      wiredBy := policy.name;
      applies := applies + 1;
      :- Note(RestartPlugin);
      if env.converged && !env.verifyErr {
        return Answer(TsReady, false);
      }
      e := FallBack(prior, b);
    }

    method Apply() returns (e: End)
      modifies this
      ensures R(W(), e) == ApplySharing(policy, env, script, old(W()))
    {
      hide PutConfig, ApplyFailed, Wire, EnsureDaemon, Patch;
      var prior := mem;
      :- PatchApplyRecord(JournalSharing, mem.(mode := policy.mode, replicas := policy.replicas));
      var b := Before(config);
      e := ApplySharingConfig(WriteConfig);
      if e.Answer? {
        e := AbandonApply(prior, None);
        return;
      }
      :- e;
      e := EnsureMpsControlDaemon(1, policy.mode);
      if e == NotReady {
        return Answer(TsApplying, false);
      }
      if e.Answer? {
        e := AbandonApply(prior, Some(b));
        return;
      }
      :- e;
      e := WireAndVerify(prior, b);
    }

    method RunSharing() returns (e: End)
      modifies this
      ensures R(W(), e) == SharingModel.RunSharing(policy, env, script, old(W()))
    {
      hide ApplySharing, EnsureDaemon, ReleaseDaemon, Rejected;
      if env.again == CannotTell {
        return Answer(NoTarget, true);
      }
      if env.again == Refuses {
        e := Reject();
        return;
      }
      if Closed(mem, policy.generation) {
        :- Release();
        return Answer(TsFailed, false);
      }
      if mem.mode == policy.mode && mem.replicas == policy.replicas {
        e := EnsureMpsControlDaemon(0, policy.mode);
        match e {
          case NotReady => return Answer(TsApplying, false);
          case Answer(_, _) => return Answer(TsFailed, true);
          case Died => return;
          case Going =>
        }
        if env.probeConverged {
          return Answer(TsReady, false);
        }
      }
      e := Apply();
    }

    method Release() returns (e: End)
      modifies this`daemon, this`sawReady
      ensures R(W(), e) == ReleaseDaemon(script, 0, policy.name, old(W()))
    {
      hide ReleaseDaemon;
      e := EnsureMpsControlDaemon(0, NoMode);
    }

    method RunSharingOnly() returns (e: End)
      modifies this
      ensures R(W(), e) == SharingModel.RunSharingOnly(policy, env, script, old(W()))
    {
      hide DisableSharing, Rejected, SharingOnlyBase, SharingModel.RunSharing;
      if policy.mode == NoMode {
        :- Disable();
        return Answer(TsFailed, false);
      }
      match env.precheck {
        case CannotTell => return Answer(NoTarget, true);
        case Refuses => e := Reject();
        case Accepts =>
          :- Base();
          e := RunSharing();
      }
    }

    method Reconcile() returns (e: End)
      modifies this
      ensures e == PassEnd(policy, env, script, old(W())).end
      ensures W() == Pass(policy, env, script, old(W()))
    {
      hide SharingModel.RunSharingOnly;
      mem := if policy.name in recs then recs[policy.name] else NO_RECORD;
      sawReady := false;
      e := RunSharingOnly();
      if e != Died && At(script, StatusWrite) == Does && (policy.name in recs || mem != NO_RECORD) {
        recs := recs[policy.name := mem];
      }
    }
  }
}
