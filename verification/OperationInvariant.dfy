/** What every stored operation keeps, pass after pass. */
module OperationInvariant {
  import opened Journal
  import opened Conflict
  import opened Coordinator

  const LEASED := [LeaseAcquired]
  const QUIESCED := [LeaseAcquired, SnapshotTaken, Quiesced]
  const STARTED := [LeaseAcquired, SnapshotTaken, Quiesced, ApplyStarted]

  /** What the journal shows at the current epoch, phase by phase: the write-ahead order. */
  ghost predicate WriteAhead(st: Status) {
    var steps := AtEpoch(st.journal, st.epoch);
    match st.phase
    case Unset => st.epoch == 0 && st.journal == []
    case Pending => st.epoch == 0 && st.journal == []
    case Blocked => st.epoch == 0 && st.journal == []
    case Prepared => steps == LEASED
    case Quiescing => steps == QUIESCED && st.snapshot.Some?
    case Applying => STARTED <= steps && st.snapshot.Some?
    case WaitingForReboot => STARTED <= steps && st.snapshot.Some?
    case Verifying => STARTED <= steps && st.snapshot.Some?
    case RollingBack => LEASED <= steps
    case _ => true
  }

  ghost predicate HolderMatches(st: Status, name: string) {
    && (Holding(st.phase) ==> st.leaseHolder == name)
    && (!Holding(st.phase) && !Terminal(st.phase) ==> st.leaseHolder == "")
  }

  ghost predicate Counted(st: Status) {
    && (!Terminal(st.phase) ==> st.rollbackAttempts < MAX_ROLLBACK_ATTEMPTS)
    && st.rollbackAttempts <= MAX_ROLLBACK_ATTEMPTS
    && st.observeFailures <= MAX_OBSERVE_FAILURES
  }

  ghost predicate Good(st: Status, name: string) {
    && name != ""
    && HolderMatches(st, name)
    && WellKept(st.journal, st.epoch)
    && WriteAhead(st)
    && Counted(st)
  }

  /** No journal line lies in the future. */
  ghost predicate Dated(j: seq<Entry>, now: nat) {
    forall i :: 0 <= i < |j| ==> j[i].at <= now
  }

  /** b continues a: the journal only grew at its end, the epoch did not fall, the snapshot stayed. */
  ghost predicate Continues(a: Status, b: Status) {
    && a.journal <= b.journal
    && a.epoch <= b.epoch
    && (a.snapshot.Some? ==> b.snapshot == a.snapshot)
  }

  lemma LogKeeps(st: Status, step: StepName, now: nat)
    requires WellKept(st.journal, st.epoch) && step != LeaseAcquired
    ensures WellKept(Log(st, step, now).journal, st.epoch)
    ensures Continues(st, Log(st, step, now))
    ensures AtEpoch(st.journal, st.epoch) <= AtEpoch(Log(st, step, now).journal, st.epoch)
    ensures Dated(st.journal, now) ==> Dated(Log(st, step, now).journal, now)
    ensures AtEpoch(Log(st, step, now).journal, st.epoch)
         == AtEpoch(st.journal, st.epoch) + if step in AtEpoch(st.journal, st.epoch) then [] else [step]
  {
    hide WellKept, AtEpoch;
    AppendKeeps(st.journal, step, st.epoch, now);
    AtEpochAppend(st.journal, step, st.epoch, now, st.epoch);
    AtEpochRecorded(st.journal, step, st.epoch);
  }

  lemma StartedIsRecorded(st: Status)
    requires STARTED <= AtEpoch(st.journal, st.epoch)
    ensures HasStep(st.journal, ApplyStarted) && FirstAt(st.journal, ApplyStarted).Some?
  {
    assert AtEpoch(st.journal, st.epoch)[3] == ApplyStarted;
    AtEpochRecorded(st.journal, ApplyStarted, st.epoch);
    FirstAtHas(st.journal, ApplyStarted);
  }

  /** What a step hands over, once its next phase is written into the status. */
  function Landed(r: StepResult): Status
    requires r.Stepped?
  {
    if r.next.Some? then r.st.(phase := r.next.value) else r.st
  }

  ghost predicate KeptBy(st: Status, r: StepResult, name: string, now: nat) {
    r.Stepped? ==>
      && Good(Landed(r), name)
      && Continues(st, r.st)
      && (Dated(st.journal, now) ==> Dated(r.st.journal, now))
  }

  lemma AdmitKeeps(ops: map<string, Operation>, spec: Spec, st: Status, leases: map<string, Lease>, now: nat, env: Inputs)
    requires Good(st, spec.name) && (st.phase == Pending || st.phase == Blocked)
    ensures KeptBy(st, StepAdmit(ops, spec, st, leases, now, env), spec.name, now)
  {
    hide WellKept, AtEpoch, Append, Recorded;
    LogKeeps(st.(blockedBy := ""), Planned, now);
  }

  lemma AcquireKeeps(spec: Spec, st: Status, leases: map<string, Lease>, now: nat, env: Inputs)
    requires Good(st, spec.name) && st.phase == Planning
    ensures KeptBy(st, StepAcquire(spec, st, leases, now, env), spec.name, now)
  {
    hide AcquireResult, AcquireTable, Good;
    GrantedKeeps(st, spec.name, now);
  }

  /** Taking the lease in planning, where nobody holds it yet. */
  lemma GrantedKeeps(st: Status, name: string, now: nat)
    requires Good(st, name) && st.phase == Planning
    ensures var taken := st.(leaseHolder := name, leaseExpiry := now + LEASE_DURATION, epoch := st.epoch + 1);
            var logged := Log(taken, LeaseAcquired, now);
            && st.leaseHolder != name
            && Good(logged.(phase := Prepared), name) && Good(st, name) && Continues(st, logged) && Continues(st, st)
            && (Dated(st.journal, now) ==> Dated(logged.journal, now))
  {
    hide WellKept, AtEpoch, Append, Recorded;
    AppendLeaseKeeps(st.journal, st.epoch, now);
  }

  lemma SnapshotKeeps(spec: Spec, st: Status, leases: map<string, Lease>, now: nat, env: Inputs)
    requires Good(st, spec.name) && st.phase == Prepared
    ensures KeptBy(st, StepSnapshot(st, leases, now, env), spec.name, now)
  {
    hide WellKept, AtEpoch, Append, Recorded;
    if env.node.NodeFound? {
      var st1 := if st.snapshot.None? then st.(snapshot := Some(env.node.view)) else st;
      LogKeeps(st1, SnapshotTaken, now);
      LogKeeps(Log(st1, SnapshotTaken, now), Quiesced, now);
    }
  }

  lemma QuiescingKeeps(spec: Spec, st: Status, now: nat)
    requires Good(st, spec.name) && st.phase == Quiescing
    ensures Good(Log(st, ApplyStarted, now).(phase := Applying), spec.name)
    ensures Continues(st, Log(st, ApplyStarted, now))
    ensures Dated(st.journal, now) ==> Dated(Log(st, ApplyStarted, now).journal, now)
  {
    hide WellKept, AtEpoch, Append, Recorded;
    LogKeeps(st, ApplyStarted, now);
  }

  lemma RecoveryKeeps(spec: Spec, st: Status, leases: map<string, Lease>, now: nat, env: Inputs)
    requires Good(st, spec.name) && st.phase == Applying
    ensures KeptBy(st, DecideAfterApplyFailure(st, leases, now, env), spec.name, now)
  {
    hide WellKept, AtEpoch, Append, Recorded, FirstAt, HasStep;
    StartedIsRecorded(st);
    var st1 := st.(observeFailures := 0);
    LogKeeps(st1, ApplyFinished, now);
    LogKeeps(Log(st1, ApplyFinished, now), VerifyStarted, now);
  }

  lemma AnswerKeeps(spec: Spec, st: Status, event: Option<Event>, leases: map<string, Lease>, now: nat, env: Inputs)
    requires Good(st, spec.name) && st.phase == Applying
    ensures KeptBy(st, ApplyAnswer(st, event, leases, now, env), spec.name, now)
  {
    hide WellKept, AtEpoch, Append, Recorded, FirstAt, DecideAfterApplyFailure;
    if event == Some(EvApplyFailed) {
      RecoveryKeeps(spec, st, leases, now, env);
    } else {
      LogKeeps(st, ApplyFinished, now);
      LogKeeps(Log(st, ApplyFinished, now), VerifyStarted, now);
      LogKeeps(st, RebootRequested, now);
    }
  }

  lemma ResetLogKeeps(st: Status, name: string, now: nat)
    requires Good(st, name) && (st.phase == Applying || st.phase == WaitingForReboot)
    ensures var st1 := Log(st, DeviceResetRequested, now);
            && Good(st1, name) && Continues(st, st1)
            && (Dated(st.journal, now) ==> Dated(st1.journal, now))
  {
    hide WellKept, AtEpoch, Append, Recorded;
    LogKeeps(st, DeviceResetRequested, now);
  }

  lemma ApplyKeeps(spec: Spec, st: Status, leases: map<string, Lease>, now: nat, env: Inputs)
    requires Good(st, spec.name) && (st.phase == Applying || st.phase == WaitingForReboot)
    ensures KeptBy(st, StepApply(st, leases, now, env), spec.name, now)
  {
    hide WellKept, AtEpoch, Append, Recorded, FirstAt, ApplyAnswer;
    if env.registered && env.apply.Reported? {
      var st1 := if env.apply.logsReset then Log(st, DeviceResetRequested, now) else st;
      ResetLogKeeps(st, spec.name, now);
      if st.phase == WaitingForReboot && env.apply.event == Some(EvBootObserved) {
        LogKeeps(st1, RebootObserved, now);
      } else if st.phase == WaitingForReboot && env.apply.event == Some(EvRebootRequired) {
      } else {
        assert Good(st1.(phase := Applying), spec.name);
        AnswerKeeps(spec, st1.(phase := Applying), env.apply.event, leases, now, env);
      }
    }
  }

  lemma VerifyKeeps(spec: Spec, st: Status, leases: map<string, Lease>, now: nat, env: Inputs)
    requires Good(st, spec.name) && st.phase == Verifying
    ensures KeptBy(st, StepVerify(st, leases, now, env), spec.name, now)
  {
    hide WellKept, AtEpoch, Append, Recorded;
    LogKeeps(st, Committed, now);
  }

  lemma RollbackKeeps(spec: Spec, st: Status, leases: map<string, Lease>, now: nat, env: Inputs)
    requires Good(st, spec.name) && st.phase == RollingBack
    ensures KeptBy(st, StepRollback(st, leases, now, env), spec.name, now)
  {
    hide WellKept, AtEpoch, Append, Recorded;
    LogKeeps(st, RollbackStarted, now);
    var st1 := Log(st, RollbackStarted, now);
    LogKeeps(st1.(rollbackAttempts := st1.rollbackAttempts + 1), RollbackFinished, now);
  }

  lemma StepKeeps(ops: map<string, Operation>, spec: Spec, st: Status, leases: map<string, Lease>, now: nat, env: Inputs)
    requires Good(st, spec.name)
    ensures KeptBy(st, Step(ops, spec, st, leases, now, env), spec.name, now)
  {
    hide WellKept, AtEpoch, Append, Recorded;
    match st.phase
    case Pending => AdmitKeeps(ops, spec, st, leases, now, env);
    case Blocked => AdmitKeeps(ops, spec, st, leases, now, env);
    case Planning => AcquireKeeps(spec, st, leases, now, env);
    case Prepared => SnapshotKeeps(spec, st, leases, now, env);
    case Quiescing => QuiescingKeeps(spec, st, now);
    case Applying => ApplyKeeps(spec, st, leases, now, env);
    case WaitingForReboot => ApplyKeeps(spec, st, leases, now, env);
    case Verifying => VerifyKeeps(spec, st, leases, now, env);
    case RollingBack => RollbackKeeps(spec, st, leases, now, env);
    case _ =>
  }

  lemma BegunKeeps(st: Status, name: string, expiry: nat)
    requires Good(st, name)
    ensures Good(Begun(st), name) && Good(Begun(st).(leaseExpiry := expiry), name)
  {
    hide WellKept, AtEpoch;
  }

  /** Losing the lease sends an operation back to planning with everything it journaled. */
  lemma LosingLeaseKeeps(st: Status, name: string)
    requires Good(st, name) && !Terminal(st.phase)
    ensures Good(st.(leaseHolder := "", phase := Planning), name)
  {
    hide WellKept, AtEpoch;
  }

  lemma FinishKeeps(prior: Status, st: Status, spec: Spec, r: StepResult, env: Inputs, now: nat)
    requires Good(prior, spec.name) && KeptBy(st, r, spec.name, now)
    requires st == prior.(phase := st.phase, leaseExpiry := st.leaseExpiry)
    ensures var p := Finish(prior, spec, r, env);
            && Good(p.st, spec.name) && Continues(prior, p.st)
            && (Dated(prior.journal, now) ==> Dated(p.st.journal, now))
  {
    hide Good;
  }

  /** One pass keeps the invariant and only continues the stored status, whatever the environment answers:
      lease loss, a failed step and a lost write included. */
  lemma ReconcileKeeps(ops: map<string, Operation>, spec: Spec, st: Status, leases: map<string, Lease>, now: nat, env: Inputs)
    requires Good(st, spec.name)
    ensures var p := Reconcile(ops, spec, st, leases, now, env);
            && Good(p.st, spec.name) && Continues(st, p.st)
            && (Dated(st.journal, now) ==> Dated(p.st.journal, now))
  {
    hide Good, Step, KeptBy;
    var st0 := Begun(st);
    var st1 := st0.(leaseExpiry := now + LEASE_DURATION);
    BegunKeeps(st, spec.name, now + LEASE_DURATION);
    if !Terminal(st0.phase) {
      var leases' := AcquireTable(leases, spec.node, spec.name, now, env.lease);
      LosingLeaseKeeps(st0, spec.name);
      StepKeeps(ops, spec, st1, leases', now, env);
      FinishKeeps(st, st1, spec, Step(ops, spec, st1, leases', now, env), env, now);
      StepKeeps(ops, spec, st0, leases, now, env);
      FinishKeeps(st, st0, spec, Step(ops, spec, st0, leases, now, env), env, now);
    }
  }

  lemma GoodHolds(st: Status, name: string)
    requires Good(st, name)
    ensures HolderMatches(st, name) && name != ""
  {
  }

  /** A participant runs only in a phase that holds the lease, and the step leaves the table alone. */
  lemma CallsOnlyWhenHolding(ops: map<string, Operation>, spec: Spec, st: Status, leases: map<string, Lease>, now: nat, env: Inputs)
    ensures var r := Step(ops, spec, st, leases, now, env);
            r.called ==> Holding(st.phase) && r.leases == leases
  {
    hide Append, LastAt, FirstAt, LeastName, Blockers;
  }

  /** Wherever a pass calls a participant, the operation took or renewed the node's lease in that same pass. */
  lemma CallsUnderOwnLease(ops: map<string, Operation>, spec: Spec, st: Status, leases: map<string, Lease>, now: nat, env: Inputs)
    requires Good(st, spec.name)
    ensures var p := Reconcile(ops, spec, st, leases, now, env);
            p.callTable.Some? ==>
              && spec.node in p.callTable.value
              && p.callTable.value[spec.node] == Lease(spec.name, now)
  {
    hide Good, Step;
    assert HolderMatches(st, spec.name) by { GoodHolds(st, spec.name); }
    var st0 := Begun(st);
    var leases' := AcquireTable(leases, spec.node, spec.name, now, env.lease);
    CallsOnlyWhenHolding(ops, spec, st0.(leaseExpiry := now + LEASE_DURATION), leases', now, env);
    CallsOnlyWhenHolding(ops, spec, st0, leases, now, env);
  }

  /** An operation that asks for the lease never already holds it, so taking it always raises the epoch. */
  lemma AcquireRaisesEpoch(spec: Spec, st: Status, leases: map<string, Lease>, now: nat, env: Inputs)
    requires Good(st, spec.name) && st.phase == Planning
    requires AcquireResult(leases, spec.node, spec.name, now, env.lease).LeaseGranted?
    ensures var r := StepAcquire(spec, st, leases, now, env);
            && st.leaseHolder != spec.name
            && r.st.epoch == st.epoch + 1
            && AtEpoch(r.st.journal, r.st.epoch) == [LeaseAcquired]
            && |r.st.journal| == |st.journal| + 1
  {
    AppendLeaseKeeps(st.journal, st.epoch, now);
  }
}
