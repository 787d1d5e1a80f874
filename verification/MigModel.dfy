/** One pass of an NVIDIA partition policy over its node (runTarget, runNvidiaTarget and the cordon restore in
    internal/controller/acceleratorpartitionpolicy_controller.go; internal/controller/acpp_migmode.go), one durable
    write or hardware command at a time. A script says of every such step whether it happens, fails or is where
    the process dies. */
module MigModel {

  // ----- the node -----

  datatype Mode = Enabled | Disabled | NotCapable | Unknown | Unread

  datatype Geometry = NoInstances | ModeOff | Uniform(profile: string, count: nat) | Mixed(text: string)

  datatype Gpu = Gpu(current: Mode, pending: Mode, geometry: Geometry)

  /** A device as the pass observed it. */
  datatype MigDevice = MigDevice(pci: string, current: Mode, pending: Mode, geometry: Geometry, failed: bool)

  /** Whether the node is unschedulable, and who made it so. */
  datatype Cordon = Nobody | ByPolicy | ByOperator

  // ----- the journal -----

  datatype MigPhase =
    | NoPhase | Prepared | LockAcquired | Quiescing | ModeEnabling | RebootRequested | RebootWaiting
    | Applying | Applied | RestartingPlugin | Verifying | Ready | RolledBack | CleanupBlocked

  datatype Record = Record(
    owner: string, pcis: seq<string>, phase: MigPhase, generation: int, cordoned: bool,
    reboots: nat, disableReboots: nat,
    profile: string, count: nat, baseline: int, expectedMig: int, expectedFull: int)

  const NO_RECORD := Record("", [], NoPhase, 0, false, 0, 0, "", 0, 0, 0, 0)

  const MAX_REBOOTS := 2

  predicate EnablePhase(p: MigPhase) {
    p == Quiescing || p == ModeEnabling || p == RebootRequested || p == RebootWaiting
  }

  predicate InFlight(p: MigPhase) {
    p == Applying || p == Applied || p == RestartingPlugin || p == Verifying
  }

  /** What the deletion path takes as "hardware was changed". */
  predicate HardwareChanged(p: MigPhase) {
    p != NoPhase && p != Prepared && p != LockAcquired && !EnablePhase(p)
  }

  /** rec is what the API server holds, mem the copy the running pass works on. The last four fields are
      bookkeeping: GPUs that carry instances made by the policy, enable-reboot Jobs created since the MIG mode
      was last seen settled, disable reboots requested, and partition applies begun. */
  datatype World = World(
    rec: Record, mem: Record, gpus: map<string, Gpu>, owner: string, cordon: Cordon, job: bool,
    made: set<string>, jobs: nat, disables: nat, applies: nat)

  // ----- inputs of a pass -----

  datatype Policy = Policy(uid: string, generation: int, profile: string, count: nat)

  datatype VerifyReply = VerifyError | NotConverged | Converged

  /** physical: GPUs in the node's report (negative when it cannot be read); left: geometry found on targets after an
      apply that did not complete; stuck: GPUs whose instances a rollback could not remove (the removal commands may
      fail silently); pendingNow: GPUs on which an unfinished mode enable still took effect. */
  datatype Inputs = Inputs(
    targets: seq<MigDevice>, driverReady: bool, valid: bool, drained: bool, gpuBusy: bool, imageSet: bool,
    physical: int, allocatable: int, rollbackFailedBefore: bool, verify: VerifyReply,
    left: map<string, Geometry>, stuck: set<string>, pendingNow: set<string>)

  datatype Outcome = Does | Fails | Dies

  datatype Site =
    | OwnerLock | SettleRecord | ReadNode | JournalQuiescing | CordonNode | RecRebootRequested | LookupJob
    | CountReboot | CreateJob | RecRebootWaiting | EvictPods | RecModeEnabling | EnableRun
    | ReadHardware | JournalApplying | LabelOn | ApplyRun | RecApplied | RestartPlugin | RecVerifying | RecReady
    | RollbackRun | RecRolledBack | LabelOff | StatusWrite
    | DeleteJob(call: nat) | Uncordon(call: nat) | RecUncordoned(call: nat)

  type Script = map<Site, Outcome>

  const UNDISTURBED: Script := map[]

  function At(s: Script, site: Site): Outcome {
    if site in s then s[site] else Does
  }

  // ----- results -----

  datatype TargetPhase =
    | NoTarget | TsFailed | TsWaitingForDrain | TsApplying | TsRollingBack | TsRollbackFailed
    | TsVerifyingAllocatable | TsRestartingPlugin | TsReady

  datatype End = Going | Died | Answer(phase: TargetPhase, err: bool) {
    predicate IsFailure() { this != Going }
    function PropagateFailure(): End { this }
  }

  /** Where a step leaves the world and whether the pass goes on. */
  datatype R = R(w: World, end: End) {
    predicate IsFailure() { end != Going }
    function PropagateFailure(): R { this }
    function Extract(): World { w }
  }

  function Do(s: Script, site: Site, w: World, after: World): R {
    match At(s, site)
    case Does => R(after, Going)
    case Fails => R(w, Answer(NoTarget, true))
    case Dies => R(w, Died)
  }

  /** A journal write: the pass's own copy changes even when the server refuses; a write that changes nothing in the copy
      brings the copy up to what is stored. */
  function Patch(s: Script, site: Site, w: World, r: Record): R {
    match At(s, site)
    case Does => R(if r == w.mem then w.(mem := w.rec) else w.(mem := r, rec := r), Going)
    case Fails => R(w.(mem := r), Answer(NoTarget, true))
    case Dies => R(w, Died)
  }

  /** An error that is only logged. */
  function Logged(r: R): R {
    if r.end.Answer? then R(r.w, Going) else r
  }

  function SetPhase(s: Script, site: Site, w: World, p: MigPhase): R {
    Patch(s, site, w, w.mem.(phase := p))
  }

  // ----- cordon -----

  function PciSet(targets: seq<MigDevice>): set<string> {
    set i | 0 <= i < |targets| :: targets[i].pci
  }

  function Pcis(targets: seq<MigDevice>): seq<string> {
    seq(|targets|, i requires 0 <= i < |targets| => targets[i].pci)
  }

  function Quiesced(w: World, uid: string, targets: seq<MigDevice>): Record {
    w.mem.(cordoned := if EnablePhase(w.mem.phase) then w.mem.cordoned else w.cordon == Nobody,
           owner := uid, pcis := Pcis(targets), phase := Quiescing)
  }

  function CordonForApply(s: Script, w: World, uid: string, targets: seq<MigDevice>): R {
    var w0 :- if EnablePhase(w.mem.phase) then R(w, Going) else Do(s, ReadNode, w, w);
    var w1 :- Patch(s, JournalQuiescing, w0, Quiesced(w0, uid, targets));
    Do(s, CordonNode, w1, w1.(cordon := if w1.cordon == Nobody then ByPolicy else w1.cordon))
  }

  function RestoreSchedulable(s: Script, call: nat, w: World): R {
    var w1 :- Do(s, DeleteJob(call), w, w.(job := false));
    if !w1.mem.cordoned then R(w1, Going)
    else
      var w2 :- Do(s, Uncordon(call), w1, w1.(cordon := Nobody));
      Patch(s, RecUncordoned(call), w2, w2.mem.(cordoned := false))
  }

  // ----- MIG mode -----

  predicate NeedsModeEnable(targets: seq<MigDevice>) {
    exists i :: 0 <= i < |targets| && targets[i].current == Disabled && targets[i].pci != ""
  }

  predicate NeedsReboot(targets: seq<MigDevice>) {
    exists i :: 0 <= i < |targets| && targets[i].pending == Enabled && targets[i].current != Enabled
  }

  predicate ModeObservable(targets: seq<MigDevice>) {
    forall i :: 0 <= i < |targets| ==> !targets[i].failed && targets[i].current != Unread && targets[i].current != Unknown
  }

  function EnsureRebootJob(s: Script, w: World, imageSet: bool): R {
    var w1 :- Do(s, LookupJob, w, w);
    if w1.job then R(w1, Going)
    else if !imageSet then R(w1, Answer(NoTarget, true))
    else
      var w2 :- Patch(s, CountReboot, w1, w1.mem.(reboots := w1.mem.reboots + 1));
      Do(s, CreateJob, w2, w2.(job := true, jobs := w2.jobs + 1))
  }

  function GiveUp(s: Script, w: World, err: bool): R {
    var w1 :- Logged(RestoreSchedulable(s, 0, w));
    R(w1, Answer(TsFailed, err))
  }

  function RebootPath(p: Policy, env: Inputs, s: Script, w: World): R {
    if w.mem.reboots >= MAX_REBOOTS then GiveUp(s, w, false)
    else
      var w1 :- CordonForApply(s, w, p.uid, env.targets);
      var w2 :- SetPhase(s, RecRebootRequested, w1, RebootRequested);
      var r := EnsureRebootJob(s, w2, env.imageSet);
      if r.end.Answer? then GiveUp(s, r.w, true)
      else
        var w3 :- r;
        var w4 :- SetPhase(s, RecRebootWaiting, w3, RebootWaiting);
        R(w4, Answer(TsApplying, false))
  }

  /** -mig 1 on the GPUs in which: the mode is pending until the next boot. */
  function ModePending(w: World, which: set<string>): World {
    w.(gpus := map x | x in w.gpus :: if x in which && w.gpus[x].current == Disabled then w.gpus[x].(pending := Enabled) else w.gpus[x])
  }

  function QuiescePath(p: Policy, env: Inputs, s: Script, w: World): R {
    var w1 :- CordonForApply(s, w, p.uid, env.targets);
    var w2 :- Do(s, EvictPods, w1, w1);
    if !env.drained then R(w2, Answer(TsWaitingForDrain, false))
    else
      var w3 :- SetPhase(s, RecModeEnabling, w2, ModeEnabling);
      match At(s, EnableRun)
      case Does => R(ModePending(w3, PciSet(env.targets)), Answer(TsApplying, false))
      case Fails => GiveUp(s, ModePending(w3, env.pendingNow * PciSet(env.targets)), true)
      case Dies => R(ModePending(w3, env.pendingNow * PciSet(env.targets)), Died)
  }

  /** Going means every target is in MIG mode (or not ours to switch). */
  function EnsureModeEnabled(p: Policy, env: Inputs, s: Script, w: World): R {
    if !NeedsModeEnable(env.targets) && !NeedsReboot(env.targets) then
      var w0 := w.(jobs := 0);
      if w.mem.reboots > 0 || EnablePhase(w.mem.phase) then
        Patch(s, SettleRecord, w0, w.mem.(reboots := 0, phase := if EnablePhase(w.mem.phase) then NoPhase else w.mem.phase))
      else R(w0, Going)
    else if !ModeObservable(env.targets) then R(w, Answer(TsWaitingForDrain, false))
    else if NeedsReboot(env.targets) then RebootPath(p, env, s, w)
    else QuiescePath(p, env, s, w)
  }

  // ----- GPU instances -----

  function Cleared(w: World, which: set<string>): World {
    w.(gpus := map x | x in w.gpus :: if x in which then w.gpus[x].(geometry := NoInstances) else w.gpus[x],
       made := w.made - which)
  }

  function Created(w: World, which: set<string>, g: Geometry): World {
    w.(gpus := map x | x in w.gpus :: if x in which then w.gpus[x].(geometry := g) else w.gpus[x],
       made := w.made + which, applies := w.applies + 1)
  }

  /** An apply that stopped half way: targets in left carry whatever it left there. */
  function PartlyCreated(w: World, which: set<string>, left: map<string, Geometry>): World {
    w.(gpus := map x | x in w.gpus :: if x in which && x in left then w.gpus[x].(geometry := left[x]) else w.gpus[x],
       made := w.made - (set x | x in w.made && x in which && x in left && left[x] == NoInstances)
                      + (set x | x in which && x in left && left[x] != NoInstances),
       applies := w.applies + 1)
  }

  /** Removes the instances of the targets and journals that it did. */
  function RollBack(env: Inputs, s: Script, w: World, err: bool): R {
    var w1 := Cleared(w, PciSet(env.targets) - env.stuck);
    if At(s, RollbackRun) == Dies then R(w1, Died)
    else
      var w2 :- Logged(SetPhase(s, RecRolledBack, w1, RolledBack));
      var w3 :- Logged(Do(s, LabelOff, w2, w2));
      R(w3, Answer(if At(s, RollbackRun) == Does then TsRollingBack else TsRollbackFailed, err))
  }

  function VerifyTail(env: Inputs, s: Script, w: World): R {
    var w1 :- Logged(SetPhase(s, RecVerifying, w, Verifying));
    if env.verify != Converged then RollBack(env, s, w1, env.verify == VerifyError)
    else
      var w2 :- Logged(SetPhase(s, RecReady, w1, Ready));
      R(w2, Answer(TsReady, false))
  }

  function Restarted(s: Script, w: World): R {
    var r := Do(s, RestartPlugin, w, w);
    if r.end.Answer? then R(r.w, Answer(TsRestartingPlugin, true)) else r
  }

  function Resume(env: Inputs, s: Script, w: World): R {
    var w1 :- if w.mem.phase == Applied then Restarted(s, w) else R(w, Going);
    VerifyTail(env, s, w1)
  }

  function Baseline(p: Policy, env: Inputs, r: Record): Record {
    r.(pcis := Pcis(env.targets), owner := p.uid, baseline := env.allocatable,
       expectedMig := p.count * |env.targets|, expectedFull := env.physical - |env.targets|,
       profile := p.profile, count := p.count, generation := p.generation)
  }

  function CreateInstances(p: Policy, env: Inputs, s: Script, w: World): R {
    if env.physical < |env.targets| then R(w, Answer(TsFailed, false))
    else
      var w1 :- Patch(s, JournalApplying, w, Baseline(p, env, w.mem).(phase := Applying));
      var w2 :- Do(s, LabelOn, w1, w1);
      match At(s, ApplyRun)
      case Dies => R(PartlyCreated(w2, PciSet(env.targets), env.left), Died)
      case Fails => RollBack(env, s, PartlyCreated(w2, PciSet(env.targets), env.left), true)
      case Does =>
        var w3 :- Logged(SetPhase(s, RecApplied, Created(w2, PciSet(env.targets), Uniform(p.profile, p.count)), Applied));
        var w4 :- Restarted(s, w3);
        VerifyTail(env, s, w4)
  }

  // ----- the decision -----

  predicate AlwaysReady(env: Inputs) {
    && env.driverReady
    && forall i :: 0 <= i < |env.targets| ==>
         env.targets[i].pci != "" && !env.targets[i].failed && env.targets[i].current != Unknown
  }

  predicate Changed(p: Policy, env: Inputs) {
    env.targets == [] || exists i :: 0 <= i < |env.targets| && env.targets[i].geometry != Uniform(p.profile, p.count)
  }

  predicate RecMatches(r: Record, p: Policy, targets: seq<MigDevice>) {
    && r.profile == p.profile && r.count == p.count
    && |r.pcis| == |targets|
    && forall i :: 0 <= i < |targets| ==> targets[i].pci in r.pcis
  }

  predicate AllEnabled(targets: seq<MigDevice>) {
    forall i :: 0 <= i < |targets| ==> targets[i].current == Enabled
  }

  predicate AllEmpty(targets: seq<MigDevice>) {
    forall i :: 0 <= i < |targets| ==> targets[i].current == Enabled ==> !targets[i].failed && targets[i].geometry == NoInstances
  }

  /** Conditions asked only of a pass that is not in the middle of an apply. Going: create the instances. */
  function CheckHardware(p: Policy, env: Inputs, s: Script, w: World): R {
    var w0 :- Do(s, ReadHardware, w, w);
    var w1 :- if w0.cordon == Nobody && AllEnabled(env.targets) && AllEmpty(env.targets)
              then CordonForApply(s, w0, p.uid, env.targets) else R(w0, Going);
    if !AllEnabled(env.targets) || !AllEmpty(env.targets) || w1.cordon == Nobody || env.gpuBusy then
      R(w1, Answer(TsWaitingForDrain, false))
    else R(w1, Going)
  }

  function AfterModeSettled(p: Policy, env: Inputs, s: Script, w: World): R {
    var mine := w.mem.owner == p.uid;
    if !Changed(p, env) && w.mem.phase == Ready && mine && RecMatches(w.mem, p, env.targets) then
      R(w, match env.verify
           case VerifyError => Answer(TsFailed, true)
           case NotConverged => Answer(TsVerifyingAllocatable, false)
           case Converged => Answer(TsReady, false))
    else if !Changed(p, env) && mine && InFlight(w.mem.phase) then Resume(env, s, w)
    else if !Changed(p, env) && !EnablePhase(w.mem.phase) && w.mem.phase != RolledBack then R(w, Answer(TsFailed, false))
    else if w.mem.phase == RolledBack && w.mem.generation == p.generation then
      R(w, Answer(if env.rollbackFailedBefore then TsRollbackFailed else TsFailed, false))
    else
      var w1 :- if InFlight(w.mem.phase) then R(w, Going) else CheckHardware(p, env, s, w);
      CreateInstances(p, env, s, w1)
  }

  function TakeLock(p: Policy, s: Script, w: World): R {
    if w.owner == p.uid then R(w, Going)
    else if w.owner != "" then R(w, Answer(TsFailed, false))
    else Do(s, OwnerLock, w, w.(owner := p.uid))
  }

  function RunTarget(p: Policy, env: Inputs, s: Script, w: World): R {
    if !AlwaysReady(env) then R(w, Answer(TsWaitingForDrain, false))
    else
      var w1 :- TakeLock(p, s, w);
      var w2 :- EnsureModeEnabled(p, env, s, w1);
      AfterModeSettled(p, env, s, w2)
  }

  /** Validation, the target, and the uncordon of a node whose partition is ready. */
  function Worked(p: Policy, env: Inputs, s: Script, w: World): R {
    if !env.valid then
      var w1 :- RestoreSchedulable(s, 0, w);
      R(w1, Answer(TsFailed, false))
    else
      var r := RunTarget(p, env, s, w);
      if r.end == Answer(TsReady, false) then
        var q := RestoreSchedulable(s, 1, r.w);
        R(q.w, if q.end == Died then Died else Answer(TsReady, q.end.Answer?))
      else r
  }

  predicate Restores(e: End) {
    && e.Answer?
    && (!e.err || (e.phase != TsRollingBack && e.phase != TsRollbackFailed))
    && (e.phase == TsFailed || e.phase == TsRollingBack || e.phase == TsRollbackFailed)
  }

  function Pass(p: Policy, env: Inputs, s: Script, w: World): World {
    var r := Worked(p, env, s, w.(mem := w.rec));
    var q := if Restores(r.end) then Logged(RestoreSchedulable(s, 2, r.w)) else R(r.w, if r.end == Died then Died else Going);
    if q.end == Going && At(s, StatusWrite) == Does then q.w.(rec := q.w.mem) else q.w
  }
}
