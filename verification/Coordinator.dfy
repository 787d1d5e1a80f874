/** One Reconcile pass of the operation coordinator (internal/controller/operation_controller.go),
    as a function of the stored operations, the lease table and what the environment answers. */
module Coordinator {
  import opened Journal
  import opened Conflict

  const MAX_ROLLBACK_ATTEMPTS := 3
  const MAX_APPLY_DURATION := 20 * 60
  const MAX_VERIFY_GRACE := 3 * 60
  const MAX_OBSERVE_FAILURES := 5
  const LEASE_DURATION := 60

  datatype Phase =
    | Unset | Pending | Planning | Prepared | Quiescing | Applying | WaitingForReboot | Verifying
    | Succeeded | RollingBack | RolledBack | Blocked | ManualRecoveryRequired

  datatype Event =
    | EvConflict | EvPreflightPassed | EvLeaseAcquired | EvQuiesced | EvApplyStarted | EvRebootRequired
    | EvBootObserved | EvApplyDone | EvApplyFailed | EvVerifyPassed | EvVerifyFailed | EvCompensated
    | EvCompensationFailed | EvDependencyResolved

  predicate Terminal(p: Phase) {
    p == Succeeded || p == RolledBack || p == ManualRecoveryRequired
  }

  /** Phases in which an operation has claimed its resources. */
  predicate Active(p: Phase) {
    !Terminal(p) && p != Blocked && p != Unset && p != Pending
  }

  /** Phases reached only after taking the lease. */
  predicate Holding(p: Phase) {
    p == Prepared || p == Quiescing || p == Applying || p == WaitingForReboot || p == Verifying || p == RollingBack
  }

  /** The transition table (internal/operation/state_machine.go); None where a pair is undefined. */
  function Transition(p: Phase, e: Event): Option<Phase> {
    match (p, e)
    case (Pending, EvPreflightPassed) => Some(Planning)
    case (Pending, EvConflict) => Some(Blocked)
    case (Planning, EvConflict) => Some(Blocked)
    case (Planning, EvLeaseAcquired) => Some(Prepared)
    case (Prepared, EvQuiesced) => Some(Quiescing)
    case (Prepared, EvApplyFailed) => Some(RollingBack)
    case (Quiescing, EvApplyStarted) => Some(Applying)
    case (Quiescing, EvApplyFailed) => Some(RollingBack)
    case (Applying, EvRebootRequired) => Some(WaitingForReboot)
    case (Applying, EvApplyDone) => Some(Verifying)
    case (Applying, EvApplyFailed) => Some(RollingBack)
    case (WaitingForReboot, EvBootObserved) => Some(Applying)
    case (WaitingForReboot, EvApplyFailed) => Some(RollingBack)
    case (Verifying, EvVerifyPassed) => Some(Succeeded)
    case (Verifying, EvVerifyFailed) => Some(RollingBack)
    case (RollingBack, EvCompensated) => Some(RolledBack)
    case (RollingBack, EvCompensationFailed) => Some(ManualRecoveryRequired)
    case (Blocked, EvDependencyResolved) => Some(Planning)
    case _ => None
  }

  // ----- stored objects -----

  datatype Snapshot = Snapshot(allocatable: map<string, int>, bootID: string)

  datatype Status = Status(
    phase: Phase,
    epoch: nat,
    leaseHolder: string,
    leaseExpiry: nat,
    journal: seq<Entry>,
    snapshot: Option<Snapshot>,
    blockedBy: string,
    rollbackAttempts: nat,
    observeFailures: nat)

  datatype Spec = Spec(name: string, typ: OpType, node: string, keys: seq<string>)

  datatype Operation = Operation(spec: Spec, st: Status)

  const FRESH := Status(Unset, 0, "", 0, [], None, "", 0, 0)

  function ClaimOf(s: Spec): Claim {
    Claim(s.name, s.typ, s.keys)
  }

  datatype Lease = Lease(holder: string, renewed: nat)

  // ----- what the environment answers during one pass -----

  datatype LeaseReply = LeaseServed | LeaseRaceLost | LeaseApiError

  datatype NodeReply = NodeError | NodeMissing | NodeFound(view: Snapshot)

  /** A participant call: an error, or an optional event; the device-reset participant may also journal
      that it requested a reset. */
  datatype ParticipantReply = ParticipantError | Reported(event: Option<Event>, logsReset: bool)

  datatype VerifyReply =
    | VerifyRequestError
    | NotApplicable
    | Request(observationOK: bool, observed: map<string, string>, expected: string)

  datatype Verdict = VerifierMissing | VerifierError | Graded | Ungraded

  datatype Inputs = Inputs(
    lease: LeaseReply,
    listOK: bool,
    node: NodeReply,
    registered: bool,
    apply: ParticipantReply,
    verifyRequest: VerifyReply,
    verdict: Verdict,
    rollback: ParticipantReply,
    releaseOK: bool,
    writeOK: bool)

  // ----- the lease table (internal/operation/lease.go) -----

  predicate Expired(l: Lease, now: nat) {
    now >= l.renewed + LEASE_DURATION
  }

  datatype LeaseResult = LeaseFailed | LeaseDenied | LeaseGranted

  function AcquireResult(leases: map<string, Lease>, node: string, holder: string, now: nat, reply: LeaseReply): LeaseResult {
    if reply.LeaseApiError? then LeaseFailed
    else if node in leases && leases[node].holder != holder && !Expired(leases[node], now) then LeaseDenied
    else if reply.LeaseRaceLost? then LeaseDenied
    else LeaseGranted
  }

  function AcquireTable(leases: map<string, Lease>, node: string, holder: string, now: nat, reply: LeaseReply): map<string, Lease> {
    if AcquireResult(leases, node, holder, now, reply).LeaseGranted? then leases[node := Lease(holder, now)] else leases
  }

  function ReleaseTable(leases: map<string, Lease>, node: string, holder: string): map<string, Lease> {
    if node in leases && leases[node].holder == holder then leases - {node} else leases
  }

  // ----- steps -----

  function Log(st: Status, step: StepName, now: nat): Status {
    st.(journal := Append(st.journal, step, st.epoch, now))
  }

  /** Result of one step: the status in memory, where to go next (None: stay), the lease table, and
      whether a participant ran. A failed step reports nothing. */
  datatype StepResult =
    | StepFailed(leases: map<string, Lease>, called: bool)
    | Stepped(st: Status, next: Option<Phase>, leases: map<string, Lease>, called: bool)

  ghost function Blockers(ops: map<string, Operation>, spec: Spec): set<string> {
    set n | n in ops && n != spec.name && Active(ops[n].st.phase) && Blocks(ClaimOf(ops[n].spec), ClaimOf(spec)) :: n
  }

  ghost predicate IsLeast(x: string, s: set<string>) {
    x in s && forall y :: y in s ==> NameLe(x, y)
  }

  lemma LeastExists(s: set<string>)
    requires s != {}
    ensures exists x :: IsLeast(x, s)
  {
    hide IsLeast;
    var a :| a in s;
    if s == {a} {
      OneIsLeast(a);
      assert IsLeast(a, s);
    } else {
      assert s - {a} != {};
      LeastExists(s - {a});
      var b :| IsLeast(b, s - {a});
      LeastOfTwo(a, b, s);
    }
  }

  lemma OneIsLeast(a: string)
    ensures IsLeast(a, {a})
  {
    NameLeTotal(a, a);
  }

  lemma LeastOfTwo(a: string, b: string, s: set<string>)
    requires a in s && IsLeast(b, s - {a})
    ensures IsLeast(a, s) || IsLeast(b, s)
  {
    hide NameLe;
    NameLeTotal(a, a);
    NameLeTotal(a, b);
    if NameLe(a, b) {
      forall y | y in s ensures NameLe(a, y) {
        if y != a { NameLeTransitive(a, b, y); }
      }
    }
  }

  ghost function LeastName(s: set<string>): (x: string)
    requires s != {}
    ensures IsLeast(x, s)
  {
    LeastExists(s);
    var x :| IsLeast(x, s);
    x
  }

  ghost function StepAdmit(ops: map<string, Operation>, spec: Spec, st: Status, leases: map<string, Lease>, now: nat, env: Inputs): StepResult {
    var blockers := Blockers(ops, spec);
    if !env.listOK then StepFailed(leases, false)
    else if blockers != {} then
      Stepped(st.(blockedBy := LeastName(blockers)), if st.phase == Blocked then None else Some(Blocked), leases, false)
    else
      Stepped(Log(st.(blockedBy := ""), Planned, now), Some(Planning), leases, false)
  }

  function StepAcquire(spec: Spec, st: Status, leases: map<string, Lease>, now: nat, env: Inputs): StepResult {
    var heldBefore := st.leaseHolder == spec.name;
    var leases' := AcquireTable(leases, spec.node, spec.name, now, env.lease);
    match AcquireResult(leases, spec.node, spec.name, now, env.lease)
    case LeaseFailed => StepFailed(leases', false)
    case LeaseDenied => Stepped(st, None, leases', false)
    case LeaseGranted =>
      var st1 := st.(leaseHolder := spec.name, leaseExpiry := now + LEASE_DURATION);
      var st2 := if heldBefore then st1 else st1.(epoch := st1.epoch + 1);
      Stepped(Log(st2, LeaseAcquired, now), Some(Prepared), leases', false)
  }

  function StepSnapshot(st: Status, leases: map<string, Lease>, now: nat, env: Inputs): StepResult {
    match env.node
    case NodeError => StepFailed(leases, false)
    case NodeMissing => Stepped(st, Some(RollingBack), leases, false)
    case NodeFound(view) =>
      var st1 := if st.snapshot.None? then st.(snapshot := Some(view)) else st;
      Stepped(Log(Log(st1, SnapshotTaken, now), Quiesced, now), Some(Quiescing), leases, false)
  }

  predicate ApplyTimedOut(st: Status, now: nat) {
    var started := FirstAt(st.journal, ApplyStarted);
    started.Some? && now - started.value >= MAX_APPLY_DURATION
  }

  datatype Decision = Restart | Commit | Rollback | Wait | Manual

  /** internal/operation/recovery.go: journal first, then observation. */
  function DecideRecovery(st: Status, observationOK: bool, observed: map<string, string>, expected: string): Decision {
    if !HasStep(st.journal, ApplyStarted) then Restart
    else if !observationOK then
      if st.observeFailures >= MAX_OBSERVE_FAILURES then Manual else Wait
    else if expected == "" then Rollback
    else if observed == map[] then Rollback
    else if exists pci :: pci in observed && observed[pci] != expected then Rollback
    else Commit
  }

  function DecideAfterApplyFailure(st: Status, leases: map<string, Lease>, now: nat, env: Inputs): StepResult {
    var d := match env.verifyRequest
      case Request(obsOK, observed, expected) => DecideRecovery(st, obsOK, observed, expected)
      case _ => DecideRecovery(st, true, map[], "");
    match d
    case Commit =>
      Stepped(Log(Log(st.(observeFailures := 0), ApplyFinished, now), VerifyStarted, now), Some(Verifying), leases, true)
    case Wait => Stepped(st.(observeFailures := st.observeFailures + 1), None, leases, true)
    case Manual => Stepped(st, Some(ManualRecoveryRequired), leases, true)
    case Restart => Stepped(st, None, leases, true)
    case Rollback => Stepped(st.(observeFailures := 0), Some(RollingBack), leases, true)
  }

  function StepApply(st: Status, leases: map<string, Lease>, now: nat, env: Inputs): StepResult {
    if !env.registered then Stepped(st, Some(ManualRecoveryRequired), leases, false)
    else match env.apply
      case ParticipantError => StepFailed(leases, true)
      case Reported(event, logsReset) =>
        var st1 := if logsReset then Log(st, DeviceResetRequested, now) else st;
        if st1.phase == WaitingForReboot && event == Some(EvBootObserved) then
          Stepped(Log(st1, RebootObserved, now), Transition(WaitingForReboot, EvBootObserved), leases, true)
        else if st1.phase == WaitingForReboot && event == Some(EvRebootRequired) then
          Stepped(st1, if ApplyTimedOut(st1, now) then Some(ManualRecoveryRequired) else None, leases, true)
        else
          // any other answer ends the wait: the phase is Applying from here on
          ApplyAnswer(st1.(phase := Applying), event, leases, now, env)
  }

  function ApplyAnswer(st: Status, event: Option<Event>, leases: map<string, Lease>, now: nat, env: Inputs): StepResult {
    match event
    case None =>
      Stepped(st, if ApplyTimedOut(st, now) then Some(ManualRecoveryRequired) else None, leases, true)
    case Some(EvApplyFailed) => DecideAfterApplyFailure(st, leases, now, env)
    case Some(e) =>
      var st1 :=
        if e == EvApplyDone then Log(Log(st, ApplyFinished, now), VerifyStarted, now)
        else if e == EvRebootRequired then Log(st, RebootRequested, now)
        else st;
      match Transition(st.phase, e)
      case None => StepFailed(leases, true)
      case Some(p) => Stepped(st1, Some(p), leases, true)
  }

  function StepVerify(st: Status, leases: map<string, Lease>, now: nat, env: Inputs): StepResult {
    if !env.registered then Stepped(st, Some(ManualRecoveryRequired), leases, false)
    else if env.verifyRequest.VerifyRequestError? then StepFailed(leases, true)
    else if env.verifyRequest.NotApplicable? || env.verdict.VerifierMissing? then
      Stepped(Log(st, Committed, now), Some(Succeeded), leases, true)
    else match env.verdict
      case VerifierError => StepFailed(leases, true)
      case Ungraded =>
        var started := LastAt(st.journal, VerifyStarted);
        Stepped(st, if started.Some? && now - started.value < MAX_VERIFY_GRACE then None else Some(RollingBack), leases, true)
      case _ => Stepped(Log(st, Committed, now), Some(Succeeded), leases, true)
  }

  function StepRollback(st: Status, leases: map<string, Lease>, now: nat, env: Inputs): StepResult {
    if !env.registered then Stepped(st, Some(ManualRecoveryRequired), leases, false)
    else
      var st1 := Log(st, RollbackStarted, now);
      var st2 := st1.(rollbackAttempts := st1.rollbackAttempts + 1);
      match env.rollback
      case ParticipantError => StepFailed(leases, true)
      case Reported(event, _) =>
        if event == Some(EvCompensated) then Stepped(Log(st2, RollbackFinished, now), Some(RolledBack), leases, true)
        else if event == Some(EvCompensationFailed) || st2.rollbackAttempts >= MAX_ROLLBACK_ATTEMPTS then
          Stepped(st2, Some(ManualRecoveryRequired), leases, true)
        else Stepped(st2, None, leases, true)
  }

  ghost function Step(ops: map<string, Operation>, spec: Spec, st: Status, leases: map<string, Lease>, now: nat, env: Inputs): StepResult {
    match st.phase
    case Pending => StepAdmit(ops, spec, st, leases, now, env)
    case Blocked => StepAdmit(ops, spec, st, leases, now, env)
    case Planning => StepAcquire(spec, st, leases, now, env)
    case Prepared => StepSnapshot(st, leases, now, env)
    case Quiescing => Stepped(Log(st, ApplyStarted, now), Some(Applying), leases, false)
    case Applying => StepApply(st, leases, now, env)
    case WaitingForReboot => StepApply(st, leases, now, env)
    case Verifying => StepVerify(st, leases, now, env)
    case RollingBack => StepRollback(st, leases, now, env)
    case _ => Stepped(st, None, leases, false)
  }

  // ----- a whole pass -----

  /** What a pass leaves behind: the stored status, the lease table, the table as it was when a participant
      ran (None: none ran), whether the pass gave its lease back and whether it wrote its status. */
  datatype Pass = Pass(
    st: Status,
    leases: map<string, Lease>,
    callTable: Option<map<string, Lease>>,
    released: bool,
    wrote: bool)

  function Idle(st: Status, leases: map<string, Lease>): Pass {
    Pass(st, leases, None, false, false)
  }

  function Stored(prior: Status, next: Status, env: Inputs): Status {
    if env.writeOK then next else prior
  }

  function Finish(prior: Status, spec: Spec, r: StepResult, env: Inputs): Pass {
    var callTable := if r.called then Some(r.leases) else None;
    match r
    case StepFailed(leases, _) => Pass(prior, leases, callTable, false, false)
    case Stepped(st, None, leases, _) => Pass(Stored(prior, st, env), leases, callTable, false, env.writeOK)
    case Stepped(st, Some(p), leases, _) =>
      var released := Terminal(p) && env.releaseOK;
      Pass(Stored(prior, st.(phase := p), env),
           if released then ReleaseTable(leases, spec.node, spec.name) else leases,
           callTable, released, env.writeOK)
  }

  function Begun(st: Status): Status {
    if st.phase == Unset then st.(phase := Pending) else st
  }

  ghost function Reconcile(ops: map<string, Operation>, spec: Spec, prior: Status, leases: map<string, Lease>, now: nat, env: Inputs): Pass {
    var st := Begun(prior);
    if Terminal(st.phase) then Idle(prior, leases)
    else if st.leaseHolder == spec.name then
      var leases' := AcquireTable(leases, spec.node, spec.name, now, env.lease);
      match AcquireResult(leases, spec.node, spec.name, now, env.lease)
      case LeaseFailed => Idle(prior, leases')
      case LeaseDenied =>
        Pass(Stored(prior, st.(leaseHolder := "", phase := Planning), env), leases', None, false, env.writeOK)
      case LeaseGranted =>
        var st1 := st.(leaseExpiry := now + LEASE_DURATION);
        Finish(prior, spec, Step(ops, spec, st1, leases', now, env), env)
    else Finish(prior, spec, Step(ops, spec, st, leases, now, env), env)
  }
}
