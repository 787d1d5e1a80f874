/** One pass of a sharing-only NVIDIA policy, and the deletion of one (internal/controller/acpp_sharing.go and
    mps_control_daemon.go, with the configuration calls of internal/partition/nvidia/timeslicing.go), one durable
    write at a time over cluster-wide state: one sharing ConfigMap, one device-plugin DaemonSet, one MPS daemon. */
module SharingModel {

  datatype Option<+T> = None | Some(value: T)

  datatype Mode = NoMode | TimeSliced | Mps

  /** The sharing part of a policy's apply record. */
  datatype Record = Record(mode: Mode, replicas: nat, baseline: int, rolledBackAt: int)

  const NO_RECORD := Record(NoMode, 0, 0, 0)

  /** The ConfigMap: who wrote it, and what it asks for. */
  datatype Config = Config(owner: string, mode: Mode, replicas: nat)

  /** recs is stored, mem the running pass's copy of its own record. sawReady and applies are bookkeeping: the pass
      saw a ready daemon pod on its node; device-plugin wirings done so far. */
  datatype World = World(
    recs: map<string, Record>, mem: Record, config: Option<Config>, wiredBy: string, daemon: bool,
    sawReady: bool, applies: nat)

  /** mode NoMode: the policy asks for exclusive devices. */
  datatype Policy = Policy(name: string, generation: int, mode: Mode, replicas: nat)

  datatype Precheck = CannotTell | Refuses | Accepts

  /** readyAt: daemon calls of this pass that found a ready pod on the node. */
  datatype Inputs = Inputs(
    allocatable: int, precheck: Precheck, again: Precheck, layoutValid: bool, readyAt: set<nat>,
    probeConverged: bool, converged: bool, verifyErr: bool)

  datatype Outcome = Does | Fails | Dies

  datatype Site =
    | ReadNode | JournalBase | JournalSharing | WriteConfig | RewriteConfig | WirePlugin | RestartPlugin | RestartAgain
    | RestoreConfig | Unwire | RestoreRecord | MarkRolledBack | StatusWrite
    | GetDaemon(call: nat) | ListPolicies(call: nat) | DeleteDaemon(call: nat) | DeleteLegacy(call: nat)
    | PutDaemon(call: nat) | ListPods(call: nat) | RemoveFinalizer

  type Script = map<Site, Outcome>

  const UNDISTURBED: Script := map[]

  function At(s: Script, site: Site): Outcome {
    if site in s then s[site] else Does
  }

  datatype TargetPhase =
    | NoTarget | TsFailed | TsRejected | TsApplying | TsRestored | TsRollbackFailed | TsReady

  datatype End = Going | Died | NotReady | Answer(phase: TargetPhase, err: bool) {
    predicate IsFailure() { this != Going }
    function PropagateFailure(): End { this }
  }

  datatype R = R(w: World, end: End) {
    predicate IsFailure() { end != Going }
    function PropagateFailure(): R { this }
    function Extract(): World { w }
  }

  function Do(s: Script, site: Site, w: World, after: World): R {
    match At(s, site)
    case Does => R(after, Going)
    case Fails => R(w, Answer(NoTarget, true))
    case Dies => R(w, Died)
  }

  function RecordOf(w: World, name: string): Record {
    if name in w.recs then w.recs[name] else NO_RECORD
  }

  /** A journal write: the pass's own copy changes even when the server refuses; a write that changes nothing in the copy
      brings the copy up to what is stored. */
  function Patch(s: Script, site: Site, self: string, w: World, r: Record): R {
    match At(s, site)
    case Does => R(if r == w.mem then w.(mem := RecordOf(w, self)) else w.(mem := r, recs := w.recs[self := r]), Going)
    case Fails => R(w.(mem := r), Answer(NoTarget, true))
    case Dies => R(w, Died)
  }

  /** An error that is only logged. */
  function Logged(r: R): R {
    if r.end.Answer? then R(r.w, Going) else r
  }

  // ----- the control daemon -----

  predicate OthersUseMps(recs: map<string, Record>, self: string) {
    exists n :: n in recs && n != self && recs[n].mode == Mps
  }

  /** ensureMpsControlDaemon for any mode but mps. */
  function ReleaseDaemon(s: Script, call: nat, self: string, w: World): R {
    var w1 :- Do(s, GetDaemon(call), w, w);
    if !w1.daemon then R(w1, Going)
    else
      var w2 :- Do(s, ListPolicies(call), w1, w1);
      if OthersUseMps(w2.recs, self) then R(w2, Going)
      else Do(s, DeleteDaemon(call), w2, w2.(daemon := false))
  }

  /** ensureMpsControlDaemon for mps: NotReady when no pod on the node is ready yet. */
  function RequireDaemon(s: Script, call: nat, env: Inputs, w: World): R {
    var w1 :- Do(s, DeleteLegacy(call), w, w);
    var w2 :- Do(s, PutDaemon(call), w1, w1.(daemon := true));
    var w3 :- Do(s, ListPods(call), w2, w2);
    if call in env.readyAt then R(w3.(sawReady := true), Going) else R(w3, NotReady)
  }

  function EnsureDaemon(s: Script, call: nat, mode: Mode, self: string, env: Inputs, w: World): R {
    if mode == Mps then RequireDaemon(s, call, env, w) else ReleaseDaemon(s, call, self, w)
  }

  // ----- the configuration -----

  /** What a failed apply goes back to: the configuration that was there. */
  datatype Before = Before(was: Option<Config>)

  predicate Free(owner: string, self: string) {
    owner == "" || owner == self
  }

  predicate ConfigFree(w: World, self: string) {
    Free(w.wiredBy, self) && (w.config.Some? ==> Free(w.config.value.owner, self))
  }

  function PutConfig(s: Script, site: Site, p: Policy, env: Inputs, w: World): R {
    if !env.layoutValid || !ConfigFree(w, p.name) then R(w, Answer(NoTarget, true))
    else Do(s, site, w, w.(config := Some(Config(p.name, p.mode, p.replicas))))
  }

  /** RollbackSharing: somebody else's objects are left alone; a configuration that existed before comes back with
      its wiring, otherwise both go. */
  function RollbackSharing(s: Script, self: string, b: Before, w: World): R {
    if !ConfigFree(w, self) then R(w, Going)
    else
      var w1 :- if w.config.None? then R(w, Going)
                else Do(s, RestoreConfig, w, w.(config := if b.was.Some? then Some(b.was.value.(owner := w.config.value.owner)) else None));
      if b.was.Some? then R(w1, Going) else Do(s, Unwire, w1, w1.(wiredBy := ""))
  }

  // ----- a pass -----

  function SharingOnlyBase(p: Policy, env: Inputs, s: Script, w: World): R {
    if w.mem.mode != NoMode && w.mem.baseline > 0 then R(w, Going)
    else
      var w1 :- Do(s, ReadNode, w, w);
      if env.allocatable <= 0 then R(w1, Answer(NoTarget, true))
      else Patch(s, JournalBase, p.name, w1, w1.mem.(baseline := env.allocatable))
  }

  function DisableSharing(s: Script, p: Policy, w: World): R {
    var w1 :- if w.mem.mode == NoMode then R(w, Going)
              else
                var u1 :- RollbackSharing(s, p.name, Before(None), w);
                var u2 :- Logged(Do(s, RestartPlugin, u1, u1));
                Logged(Patch(s, RestoreRecord, p.name, u2, u2.mem.(mode := NoMode, replicas := 0)));
    ReleaseDaemon(s, 3, p.name, w1)
  }

  function Rejected(s: Script, p: Policy, w: World): R {
    var r := DisableSharing(s, p, w);
    R(r.w, if r.end == Died then Died else Answer(TsRejected, r.end != Going))
  }

  function DaemonFailure(r: R): R {
    R(r.w, match r.end
           case NotReady => Answer(TsApplying, false)
           case Answer(_, _) => Answer(TsFailed, true)
           case _ => r.end)
  }

  function ApplyFailed(s: Script, p: Policy, w: World, prior: Record, b: Option<Before>): R {
    var w1 :- if b.Some? then Logged(RollbackSharing(s, p.name, b.value, w)) else R(w, Going);
    var w2 :- Logged(Patch(s, RestoreRecord, p.name, w1, w1.mem.(mode := prior.mode, replicas := prior.replicas)));
    R(w2, Answer(TsFailed, true))
  }

  /** The journal goes back to what it was, and the generation is marked as rolled back. */
  function Reverted(s: Script, p: Policy, w: World, prior: Record): R {
    var w1 :- Logged(Patch(s, RestoreRecord, p.name, w, w.mem.(mode := prior.mode, replicas := prior.replicas)));
    if w1.mem.rolledBackAt == p.generation then R(w1, Going)
    else Logged(Patch(s, MarkRolledBack, p.name, w1, w1.mem.(rolledBackAt := p.generation)))
  }

  function NotConverged(s: Script, p: Policy, env: Inputs, w: World, prior: Record, b: Before): R {
    var r := RollbackSharing(s, p.name, b, w);
    if r.end.Answer? then R(r.w, Answer(TsRollbackFailed, true))
    else
      var w1 :- r;
      var w2 :- Logged(Do(s, RestartAgain, w1, w1));
      var w4 :- Reverted(s, p, w2, prior);
      var w5 :- Logged(ReleaseDaemon(s, 2, p.name, w4));
      R(w5, Answer(TsRestored, env.verifyErr))
  }

  /** Journal, configuration, daemon, wiring, restart, verification: in this order. */
  function ApplySharing(p: Policy, env: Inputs, s: Script, w: World): R {
    var prior := w.mem;
    var w1 :- Patch(s, JournalSharing, p.name, w, w.mem.(mode := p.mode, replicas := p.replicas));
    var c := PutConfig(s, WriteConfig, p, env, w1);
    if c.end.Answer? then ApplyFailed(s, p, c.w, prior, None)
    else
      var w2 :- c;
      var b := Before(w1.config);
      var d := EnsureDaemon(s, 1, p.mode, p.name, env, w2);
      if d.end == NotReady then R(d.w, Answer(TsApplying, false))
      else if d.end.Answer? then ApplyFailed(s, p, d.w, prior, Some(b))
      else
        var w3 :- d;
        Wire(p, env, s, w3, prior, b)
  }

  function Wire(p: Policy, env: Inputs, s: Script, w: World, prior: Record, b: Before): R {
    var c := PutConfig(s, RewriteConfig, p, env, w);
    if c.end.Answer? then ApplyFailed(s, p, c.w, prior, Some(b))
    else
      var w1 :- c;
      var d := Do(s, WirePlugin, w1, w1.(wiredBy := p.name, applies := w1.applies + 1));
      if d.end.Answer? then ApplyFailed(s, p, d.w, prior, Some(b))
      else
        var w2 :- d;
        var w3 :- Logged(Do(s, RestartPlugin, w2, w2));
        if env.converged && !env.verifyErr then R(w3, Answer(TsReady, false)) else NotConverged(s, p, env, w3, prior, b)
  }

  predicate Closed(r: Record, generation: int) {
    r.rolledBackAt != 0 && r.rolledBackAt == generation
  }

  function RunSharing(p: Policy, env: Inputs, s: Script, w: World): R {
    if env.again == CannotTell then R(w, Answer(NoTarget, true))
    else if env.again == Refuses then Rejected(s, p, w)
    else if Closed(w.mem, p.generation) then
      var w1 :- ReleaseDaemon(s, 0, p.name, w);
      R(w1, Answer(TsFailed, false))
    else if w.mem.mode == p.mode && w.mem.replicas == p.replicas then
      var r := EnsureDaemon(s, 0, p.mode, p.name, env, w);
      if r.end != Going then DaemonFailure(r)
      else if env.probeConverged then R(r.w, Answer(TsReady, false))
      else ApplySharing(p, env, s, r.w)
    else ApplySharing(p, env, s, w)
  }

  function RunSharingOnly(p: Policy, env: Inputs, s: Script, w: World): R {
    if p.mode == NoMode then
      var w1 :- DisableSharing(s, p, w);
      R(w1, Answer(TsFailed, false))
    else if env.precheck == CannotTell then R(w, Answer(NoTarget, true))
    else if env.precheck == Refuses then Rejected(s, p, w)
    else
      var w1 :- SharingOnlyBase(p, env, s, w);
      RunSharing(p, env, s, w1)
  }

  function Loaded(p: Policy, w: World): World {
    w.(mem := RecordOf(w, p.name), sawReady := false)
  }

  /** The status write stores the whole record; a policy that never journaled anything has none. */
  function Saved(w: World, self: string): World {
    if self !in w.recs && w.mem == NO_RECORD then w else w.(recs := w.recs[self := w.mem])
  }

  function PassEnd(p: Policy, env: Inputs, s: Script, w: World): R {
    RunSharingOnly(p, env, s, Loaded(p, w))
  }

  function Pass(p: Policy, env: Inputs, s: Script, w: World): World {
    var r := PassEnd(p, env, s, w);
    if r.end != Died && At(s, StatusWrite) == Does then Saved(r.w, p.name) else r.w
  }

  /** The deletion of a policy: the configuration and its wiring first, then the daemon, then the object. */
  function Removal(p: Policy, s: Script, w: World): World {
    var w0 := Loaded(p, w);
    var r1 := if w0.mem.mode == NoMode then R(w0, Going) else RollbackSharing(s, p.name, Before(None), w0);
    if r1.end != Going then r1.w
    else
      var r2 := ReleaseDaemon(s, 0, p.name, r1.w);
      if r2.end != Going then r2.w
      else if At(s, RemoveFinalizer) == Does then r2.w.(recs := r2.w.recs - {p.name})
      else r2.w
  }
}
