/** What one pass of the coordinator makes of an operation, in terms of what the environment answered: when it
    succeeds, verifies, rolls back, waits, is blocked or is given up. */
module Outcomes {
  import opened Journal
  import opened Conflict
  import opened Coordinator
  import opened OperationInvariant
  import opened CoordinatorRuns

  /** The node's lease is free, expired or already the operation's own, and the request was served. */
  predicate Obtains(spec: Spec, leases: map<string, Lease>, now: nat, env: Inputs) {
    && env.lease == LeaseServed
    && (spec.node !in leases || leases[spec.node].holder == spec.name || leases[spec.node].renewed + 60 <= now)
  }

  predicate Running(p: Phase) {
    p == Applying || p == WaitingForReboot
  }

  /** A pass over a running operation whose lease holds and whose participant reports an event. */
  predicate Reports(spec: Spec, st: Status, leases: map<string, Lease>, now: nat, env: Inputs, event: Option<Event>) {
    && env.writeOK && Obtains(spec, leases, now, env) && Running(st.phase) && env.registered
    && env.apply.Reported? && env.apply.event == event
  }

  /** The devices were observed, there are some, and every one shows the layout that was asked for. */
  predicate ShowsTarget(v: VerifyReply) {
    && v.Request? && v.observationOK && v.expected != "" && v.observed != map[]
    && forall pci :: pci in v.observed ==> v.observed[pci] == v.expected
  }

  predicate Blind(v: VerifyReply) {
    v.Request? && !v.observationOK
  }

  /** At least this long since a journaled moment. */
  predicate Since(t: Option<nat>, now: nat, seconds: nat) {
    t.Some? && now - t.value >= seconds
  }

  lemma ObtainsWhat(spec: Spec, leases: map<string, Lease>, now: nat, env: Inputs)
    ensures AcquireResult(leases, spec.node, spec.name, now, env.lease) == LeaseGranted <==> Obtains(spec, leases, now, env)
  {
  }

  lemma ResetLogKeepsTimes(st: Status, now: nat)
    requires FirstAt(st.journal, ApplyStarted).Some?
    ensures FirstAt(Log(st, DeviceResetRequested, now).journal, ApplyStarted) == FirstAt(st.journal, ApplyStarted)
  {
    hide FirstAt;
    FirstAtKept(st.journal, Log(st, DeviceResetRequested, now).journal, ApplyStarted);
  }

  lemma RunningStarted(st: Status, name: string)
    requires Good(st, name) && Running(st.phase)
    ensures HasStep(st.journal, ApplyStarted) && FirstAt(st.journal, ApplyStarted).Some?
  {
    hide WellKept, AtEpoch;
    StartedIsRecorded(st);
  }

  // ----- how a pass gets to its step -----

  /** A step that reported nothing, or whose result was not written, leaves the stored status alone. */
  predicate Stores(prior: Status, r: StepResult, env: Inputs, p: Pass) {
    && (p.wrote <==> r.Stepped? && env.writeOK)
    && p.st == if r.Stepped? && env.writeOK then Landed(r) else prior
  }

  lemma FinishStores(prior: Status, spec: Spec, r: StepResult, env: Inputs)
    ensures Stores(prior, r, env, Finish(prior, spec, r, env))
  {
  }

  /** An operation that holds the lease renews it first, and goes back to planning when somebody else has it. */
  lemma HolderPass(ops: map<string, Operation>, spec: Spec, st: Status, leases: map<string, Lease>, now: nat, env: Inputs)
    requires Good(st, spec.name) && Holding(st.phase)
    ensures var p := Reconcile(ops, spec, st, leases, now, env);
            var table := leases[spec.node := Lease(spec.name, now)];
            if Obtains(spec, leases, now, env) then
              Stores(st, Step(ops, spec, st.(leaseExpiry := now + LEASE_DURATION), table, now, env), env, p)
            else if env.lease == LeaseApiError || !env.writeOK then p.st == st
            else p.st == st.(leaseHolder := "", phase := Planning)
  {
    hide Step, Finish, WellKept, WriteAhead;
    ObtainsWhat(spec, leases, now, env);
    var table := leases[spec.node := Lease(spec.name, now)];
    FinishStores(st, spec, Step(ops, spec, st.(leaseExpiry := now + LEASE_DURATION), table, now, env), env);
  }

  lemma WaitingPass(ops: map<string, Operation>, spec: Spec, st: Status, leases: map<string, Lease>, now: nat, env: Inputs)
    requires Good(st, spec.name) && !Holding(st.phase) && !Terminal(st.phase)
    ensures Stores(st, Step(ops, spec, Begun(st), leases, now, env), env, Reconcile(ops, spec, st, leases, now, env))
  {
    hide Step, Finish, WellKept, WriteAhead;
    FinishStores(st, spec, Step(ops, spec, Begun(st), leases, now, env), env);
  }

  // ----- one step of a running operation -----

  lemma FailedStep(st: Status, leases: map<string, Lease>, now: nat, env: Inputs)
    requires st.phase == Applying && HasStep(st.journal, ApplyStarted)
    ensures var r := DecideAfterApplyFailure(st, leases, now, env);
            var v := env.verifyRequest;
            && r.Stepped?
            && Landed(r).phase == (if ShowsTarget(v) then Verifying
                                   else if !Blind(v) then RollingBack
                                   else if st.observeFailures < 5 then Applying else ManualRecoveryRequired)
            && r.st.observeFailures == (if !Blind(v) then 0 else if st.observeFailures < 5 then st.observeFailures + 1 else st.observeFailures)
            && (ShowsTarget(v) ==> Recorded(r.st.journal, ApplyFinished, st.epoch) && Recorded(r.st.journal, VerifyStarted, st.epoch))
            && (!ShowsTarget(v) ==> r.st.journal == st.journal)
  {
    hide Append, Recorded, HasStep;
    LogsHave(now);
  }

  /** What the journal and the clock say of an apply that has reported nothing decisive. */
  predicate TimedOut(st: Status, now: nat) {
    Since(FirstAt(st.journal, ApplyStarted), now, 1200)
  }

  /** The phase a running operation is in after its participant's report; None: an event with no meaning here. */
  lemma RunningStep(st: Status, leases: map<string, Lease>, now: nat, env: Inputs)
    requires Running(st.phase) && HasStep(st.journal, ApplyStarted) && FirstAt(st.journal, ApplyStarted).Some?
    ensures var r := StepApply(st, leases, now, env);
            if !env.registered then r.Stepped? && Landed(r).phase == ManualRecoveryRequired
            else if !env.apply.Reported? then !r.Stepped?
            else match env.apply.event
              case None => r.Stepped? && Landed(r).phase == if TimedOut(st, now) then ManualRecoveryRequired else Applying
              case Some(EvApplyDone) =>
                && r.Stepped? && Landed(r).phase == Verifying
                && Recorded(r.st.journal, ApplyFinished, st.epoch) && Recorded(r.st.journal, VerifyStarted, st.epoch)
              case Some(EvRebootRequired) =>
                && r.Stepped?
                && Landed(r).phase == (if st.phase == WaitingForReboot && TimedOut(st, now) then ManualRecoveryRequired else WaitingForReboot)
                && (st.phase == Applying ==> Recorded(r.st.journal, RebootRequested, st.epoch))
              case Some(EvBootObserved) =>
                if st.phase == WaitingForReboot then r.Stepped? && Landed(r).phase == Applying && Recorded(r.st.journal, RebootObserved, st.epoch)
                else !r.Stepped?
              case Some(EvApplyFailed) =>
                && r.Stepped?
                && var v := env.verifyRequest;
                   && Landed(r).phase == (if ShowsTarget(v) then Verifying
                                          else if !Blind(v) then RollingBack
                                          else if st.observeFailures < 5 then Applying else ManualRecoveryRequired)
                   && r.st.observeFailures == (if !Blind(v) then 0 else if st.observeFailures < 5 then st.observeFailures + 1
                                               else st.observeFailures)
                   && (ShowsTarget(v) ==> Recorded(r.st.journal, ApplyFinished, st.epoch) && Recorded(r.st.journal, VerifyStarted, st.epoch))
                   && (!ShowsTarget(v) ==> (HasStep(r.st.journal, ApplyFinished) <==> HasStep(st.journal, ApplyFinished)))
              case _ => !r.Stepped?
  {
    hide Append, Recorded, HasStep, FirstAt, DecideAfterApplyFailure;
    LogsHave(now);
    ResetLogKeepsTimes(st, now);
    var st1 := if env.apply.Reported? && env.apply.logsReset then Log(st, DeviceResetRequested, now) else st;
    FailedStep(st1.(phase := Applying), leases, now, env);
  }

  /** Journaling a step puts it on record at the current epoch and leaves every other step as it was. */
  lemma LogsHave(now: nat)
    ensures forall st: Status, step: StepName :: Recorded(Log(st, step, now).journal, step, st.epoch)
    ensures forall st: Status, step: StepName, s: StepName, e: nat :: Recorded(st.journal, s, e) ==> Recorded(Log(st, step, now).journal, s, e)
    ensures forall st: Status, step: StepName, s: StepName :: s != step ==> (HasStep(Log(st, step, now).journal, s) <==> HasStep(st.journal, s))
  {
    forall st: Status, step: StepName
      ensures Recorded(Log(st, step, now).journal, step, st.epoch)
    {
      RecordedAppend(st.journal, Entry(step, st.epoch, now), step, st.epoch);
    }
    forall st: Status, step: StepName, s: StepName, e: nat | Recorded(st.journal, s, e)
      ensures Recorded(Log(st, step, now).journal, s, e)
    {
      RecordedAppend(st.journal, Entry(step, st.epoch, now), s, e);
    }
    forall st: Status, step: StepName, s: StepName | s != step
      ensures HasStep(Log(st, step, now).journal, s) <==> HasStep(st.journal, s)
    {
      OtherStep(st, step, now, s);
    }
  }

  lemma OtherStep(st: Status, step: StepName, now: nat, s: StepName)
    requires s != step
    ensures HasStep(Log(st, step, now).journal, s) <==> HasStep(st.journal, s)
  {
    var j, j' := st.journal, Log(st, step, now).journal;
    if HasStep(j, s) {
      var i :| 0 <= i < |j| && j[i].step == s;
      assert j'[i] == j[i];
    }
    if HasStep(j', s) {
      var i :| 0 <= i < |j'| && j'[i].step == s;
      assert i < |j| && j[i] == j'[i];
    }
  }

  // ----- outcomes of a pass -----

  /** A verification that grades, has no verifier, or does not apply. */
  predicate Verified(env: Inputs) {
    && !env.verifyRequest.VerifyRequestError?
    && (env.verifyRequest.NotApplicable? || env.verdict.VerifierMissing? || env.verdict.Graded?)
  }

  predicate SucceedsNow(spec: Spec, st: Status, leases: map<string, Lease>, now: nat, env: Inputs) {
    && env.writeOK && st.phase == Verifying && Obtains(spec, leases, now, env) && env.registered && Verified(env)
  }

  predicate CompensatedNow(spec: Spec, st: Status, leases: map<string, Lease>, now: nat, env: Inputs) {
    && env.writeOK && st.phase == RollingBack && Obtains(spec, leases, now, env) && env.registered
    && env.rollback.Reported? && env.rollback.event == Some(EvCompensated)
  }

  // ----- one step of every other operation -----

  /** A verification without a grade is looked at again for three minutes. */
  predicate GraceOver(st: Status, now: nat) {
    var started := LastAt(st.journal, VerifyStarted);
    started.None? || now - started.value >= 180
  }

  lemma VerifyingStep(st: Status, leases: map<string, Lease>, now: nat, env: Inputs)
    requires st.phase == Verifying
    ensures var r := StepVerify(st, leases, now, env);
            if !env.registered then r.Stepped? && Landed(r).phase == ManualRecoveryRequired
            else if Verified(env) then r.Stepped? && Landed(r).phase == Succeeded && Recorded(r.st.journal, Committed, st.epoch)
            else if env.verifyRequest.Request? && env.verdict.Ungraded? then
              r.Stepped? && Landed(r).phase == (if GraceOver(st, now) then RollingBack else Verifying) && r.st.journal == st.journal
            else !r.Stepped?
  {
    hide Append, Recorded, LastAt;
    LogsHave(now);
  }

  lemma RollingStep(st: Status, leases: map<string, Lease>, now: nat, env: Inputs)
    requires st.phase == RollingBack
    ensures var r := StepRollback(st, leases, now, env);
            if !env.registered then r.Stepped? && Landed(r).phase == ManualRecoveryRequired && r.st == st
            else if !env.rollback.Reported? then !r.Stepped?
            else
              && r.Stepped? && r.st.rollbackAttempts == st.rollbackAttempts + 1
              && Recorded(r.st.journal, RollbackStarted, st.epoch)
              && Landed(r).phase == (if env.rollback.event == Some(EvCompensated) then RolledBack
                                     else if env.rollback.event == Some(EvCompensationFailed) || st.rollbackAttempts >= 2
                                     then ManualRecoveryRequired else RollingBack)
              && (env.rollback.event == Some(EvCompensated) ==> Recorded(r.st.journal, RollbackFinished, st.epoch))
  {
    hide Append, Recorded;
    LogsHave(now);
  }

  /** Some other operation that has claimed its resources conflicts. */
  ghost predicate Obstructed(ops: map<string, Operation>, spec: Spec) {
    exists n :: n in ops && n != spec.name && Active(ops[n].st.phase) && Blocks(ClaimOf(ops[n].spec), ClaimOf(spec))
  }

  lemma AdmissionStep(ops: map<string, Operation>, spec: Spec, st: Status, leases: map<string, Lease>, now: nat, env: Inputs)
    requires st.phase == Pending || st.phase == Blocked
    ensures var r := StepAdmit(ops, spec, st, leases, now, env);
            if !env.listOK then !r.Stepped?
            else
              && r.Stepped?
              && Landed(r).phase == (if Obstructed(ops, spec) then Blocked else Planning)
              && (if Obstructed(ops, spec)
                  then r.st.blockedBy in Blockers(ops, spec) && (forall n :: n in Blockers(ops, spec) ==> NameLe(r.st.blockedBy, n))
                       && r.st.journal == st.journal
                  else r.st.blockedBy == "" && Recorded(r.st.journal, Planned, st.epoch))
  {
    hide Append, Recorded, Blocks;
    LogsHave(now);
    if Obstructed(ops, spec) {
      var n :| n in ops && n != spec.name && Active(ops[n].st.phase) && Blocks(ClaimOf(ops[n].spec), ClaimOf(spec));
      assert n in Blockers(ops, spec);
    }
  }

  lemma PlanningStep(spec: Spec, st: Status, leases: map<string, Lease>, now: nat, env: Inputs)
    requires st.phase == Planning && st.leaseHolder != spec.name
    ensures var r := StepAcquire(spec, st, leases, now, env);
            if Obtains(spec, leases, now, env) then
              && r.Stepped? && Landed(r).phase == Prepared && r.st.leaseHolder == spec.name && r.st.leaseExpiry == now + 60
              && r.st.epoch == st.epoch + 1 && Recorded(r.st.journal, LeaseAcquired, st.epoch + 1)
              && r.leases == leases[spec.node := Lease(spec.name, now)]
            else
              (if env.lease == LeaseApiError then !r.Stepped? else r.Stepped? && Landed(r) == st) && r.leases == leases
  {
    hide Append, Recorded;
    ObtainsWhat(spec, leases, now, env);
    LogsHave(now);
  }

  lemma PreparedStep(st: Status, leases: map<string, Lease>, now: nat, env: Inputs)
    requires st.phase == Prepared
    ensures var r := StepSnapshot(st, leases, now, env);
            match env.node
            case NodeError => !r.Stepped?
            case NodeMissing => r.Stepped? && Landed(r).phase == RollingBack && r.st == st
            case NodeFound(view) =>
              && r.Stepped? && Landed(r).phase == Quiescing
              && r.st.snapshot == Some(if st.snapshot.Some? then st.snapshot.value else view)
              && Recorded(r.st.journal, SnapshotTaken, st.epoch) && Recorded(r.st.journal, Quiesced, st.epoch)
  {
    hide Append, Recorded;
    LogsHave(now);
  }

  // ----- outcomes of a pass -----

  /** A reported failure is settled by observation: the apply did happen after all, it is undone, it is looked at again, or
      it is given up. */
  lemma FailedApply(ops: map<string, Operation>, spec: Spec, st: Status, leases: map<string, Lease>, now: nat, env: Inputs)
    requires Good(st, spec.name) && Reports(spec, st, leases, now, env, Some(EvApplyFailed))
    ensures var p := Reconcile(ops, spec, st, leases, now, env);
            var v := env.verifyRequest;
            && p.wrote
            && (p.st.phase == Verifying <==> ShowsTarget(v))
            && (p.st.phase == RollingBack <==> !ShowsTarget(v) && !Blind(v))
            && (p.st.phase == Applying <==> Blind(v) && st.observeFailures < 5)
            && (p.st.phase == ManualRecoveryRequired <==> Blind(v) && st.observeFailures >= 5)
            && p.st.observeFailures == (if !Blind(v) then 0 else if st.observeFailures < 5 then st.observeFailures + 1 else st.observeFailures)
            && (ShowsTarget(v) ==> Recorded(p.st.journal, ApplyFinished, st.epoch) && Recorded(p.st.journal, VerifyStarted, st.epoch))
            && (!ShowsTarget(v) ==> (HasStep(p.st.journal, ApplyFinished) <==> HasStep(st.journal, ApplyFinished)))
  {
    hide Reconcile, StepApply, Good, Recorded, HasStep, FirstAt;
    HolderPass(ops, spec, st, leases, now, env);
    RunningStarted(st, spec.name);
    RunningStep(st.(leaseExpiry := now + LEASE_DURATION), leases[spec.node := Lease(spec.name, now)], now, env);
  }

  /** The phase the step of an operation leads to, if it leads anywhere. */
  ghost predicate Leads(ops: map<string, Operation>, spec: Spec, st: Status, leases: map<string, Lease>, now: nat, env: Inputs, to: Phase) {
    var r := Step(ops, spec, st, leases, now, env);
    r.Stepped? && Landed(r).phase == to
  }

  predicate RunningVerifies(env: Inputs) {
    && env.registered && env.apply.Reported?
    && (env.apply.event == Some(EvApplyDone) || (env.apply.event == Some(EvApplyFailed) && ShowsTarget(env.verifyRequest)))
  }

  predicate RunningRollsBack(env: Inputs) {
    && env.registered && env.apply.Reported? && env.apply.event == Some(EvApplyFailed)
    && !ShowsTarget(env.verifyRequest) && !Blind(env.verifyRequest)
  }

  predicate RunningGivesUp(st: Status, now: nat, env: Inputs) {
    || !env.registered
    || (env.apply.Reported?
        && (|| (env.apply.event == None && TimedOut(st, now))
            || (env.apply.event == Some(EvRebootRequired) && st.phase == WaitingForReboot && TimedOut(st, now))
            || (env.apply.event == Some(EvApplyFailed) && Blind(env.verifyRequest) && st.observeFailures >= 5)))
  }

  predicate UngradedTooLong(st: Status, now: nat, env: Inputs) {
    env.registered && env.verifyRequest.Request? && env.verdict.Ungraded? && GraceOver(st, now)
  }

  predicate RollbackGivesUp(st: Status, env: Inputs) {
    || !env.registered
    || (&& env.rollback.Reported? && env.rollback.event != Some(EvCompensated)
        && (env.rollback.event == Some(EvCompensationFailed) || st.rollbackAttempts >= 2))
  }

  predicate StartsRollback(st: Status, now: nat, env: Inputs) {
    || (Running(st.phase) && RunningRollsBack(env))
    || (st.phase == Verifying && UngradedTooLong(st, now, env))
    || (st.phase == Prepared && env.node == NodeMissing)
  }

  predicate GivesUp(st: Status, now: nat, env: Inputs) {
    || (Running(st.phase) && RunningGivesUp(st, now, env))
    || (st.phase == Verifying && !env.registered)
    || (st.phase == RollingBack && RollbackGivesUp(st, env))
  }

  lemma RunningLeads(st: Status, leases: map<string, Lease>, now: nat, env: Inputs)
    requires Running(st.phase) && HasStep(st.journal, ApplyStarted) && FirstAt(st.journal, ApplyStarted).Some?
    ensures var r := StepApply(st, leases, now, env);
            && (r.Stepped? && Landed(r).phase == Verifying <==> RunningVerifies(env))
            && (r.Stepped? && Landed(r).phase == RollingBack <==> RunningRollsBack(env))
            && (r.Stepped? && Landed(r).phase == ManualRecoveryRequired <==> RunningGivesUp(st, now, env))
            && (r.Stepped? ==> Landed(r).phase != Succeeded && Landed(r).phase != RolledBack)
  {
    hide StepApply, HasStep, FirstAt, TimedOut, Recorded;
    RunningStep(st, leases, now, env);
    if env.registered && env.apply.Reported? && env.apply.event.Some? {
      match env.apply.event.value
      case EvApplyDone =>
      case EvApplyFailed =>
      case EvRebootRequired =>
      case EvBootObserved =>
      case _ =>
    }
  }

  /** Where each of the later phases is entered from, and on what answer. */
  lemma StepLeads(ops: map<string, Operation>, spec: Spec, st: Status, leases: map<string, Lease>, now: nat, env: Inputs)
    requires Good(st, spec.name) && !Terminal(st.phase) && st.phase != Unset
    ensures Leads(ops, spec, st, leases, now, env, Succeeded) <==> st.phase == Verifying && env.registered && Verified(env)
    ensures Leads(ops, spec, st, leases, now, env, RolledBack)
       <==> st.phase == RollingBack && env.registered && env.rollback.Reported? && env.rollback.event == Some(EvCompensated)
    ensures st.phase != Verifying ==>
              (Leads(ops, spec, st, leases, now, env, Verifying) <==> Running(st.phase) && RunningVerifies(env))
    ensures st.phase != RollingBack ==>
              (Leads(ops, spec, st, leases, now, env, RollingBack) <==> StartsRollback(st, now, env))
    ensures Leads(ops, spec, st, leases, now, env, ManualRecoveryRequired) <==> GivesUp(st, now, env)
    ensures !Running(st.phase) ==> (Leads(ops, spec, st, leases, now, env, Applying) <==> st.phase == Quiescing)
  {
    hide StepApply, StepVerify, StepRollback, StepAdmit, StepSnapshot, StepAcquire, Good, Append, Recorded, HasStep, FirstAt, LastAt, TimedOut,
         GraceOver, ShowsTarget, Obtains, Obstructed, Blockers, RunningVerifies, RunningRollsBack, RunningGivesUp;
    if Running(st.phase) {
      RunningStarted(st, spec.name);
      RunningLeads(st, leases, now, env);
    }
    match st.phase
    case Verifying => VerifyingStep(st, leases, now, env);
    case RollingBack => RollingStep(st, leases, now, env);
    case Pending => AdmissionStep(ops, spec, st, leases, now, env);
    case Blocked => AdmissionStep(ops, spec, st, leases, now, env);
    case Prepared => PreparedStep(st, leases, now, env);
    case Planning =>
      assert st.leaseHolder != spec.name by { PlanningIsFree(st, spec.name); }
      PlanningStep(spec, st, leases, now, env);
    case _ =>
  }

  lemma PlanningIsFree(st: Status, name: string)
    requires Good(st, name) && st.phase == Planning
    ensures st.leaseHolder != name
  {
  }

  /** What a pass stores is what its step leads to, under the lease. */
  ghost predicate Arrives(ops: map<string, Operation>, spec: Spec, st: Status, leases: map<string, Lease>, now: nat, env: Inputs, to: Phase) {
    && env.writeOK
    && if Holding(st.phase)
       then Obtains(spec, leases, now, env)
            && Leads(ops, spec, st.(leaseExpiry := now + LEASE_DURATION), leases[spec.node := Lease(spec.name, now)], now, env, to)
       else Leads(ops, spec, Begun(st), leases, now, env, to)
  }

  lemma PassLeads(ops: map<string, Operation>, spec: Spec, st: Status, leases: map<string, Lease>, now: nat, env: Inputs)
    requires Good(st, spec.name) && !Terminal(st.phase)
    ensures forall to: Phase :: to != st.phase && to != Planning ==>
              (Reconcile(ops, spec, st, leases, now, env).st.phase == to <==> Arrives(ops, spec, st, leases, now, env, to))
    ensures Holding(st.phase) ==>
              && Good(st.(leaseExpiry := now + LEASE_DURATION), spec.name)
    ensures Good(Begun(st), spec.name)
  {
    hide Reconcile, Step, Good, Obtains;
    BegunKeeps(st, spec.name, now + LEASE_DURATION);
    if Holding(st.phase) {
      HolderPass(ops, spec, st, leases, now, env);
    } else {
      WaitingPass(ops, spec, st, leases, now, env);
    }
  }

  lemma PassArrives(ops: map<string, Operation>, spec: Spec, st: Status, leases: map<string, Lease>, now: nat, env: Inputs, to: Phase)
    requires Good(st, spec.name) && !Terminal(st.phase) && to != st.phase && to != Planning
    ensures Reconcile(ops, spec, st, leases, now, env).st.phase == to <==> Arrives(ops, spec, st, leases, now, env, to)
  {
    hide Reconcile, Arrives, Good;
    PassLeads(ops, spec, st, leases, now, env);
  }

  /** The pass writes its result, under the operation's own lease. */
  predicate UnderLease(spec: Spec, leases: map<string, Lease>, now: nat, env: Inputs) {
    env.writeOK && Obtains(spec, leases, now, env)
  }

  /** An operation succeeds in exactly the pass in which, verifying and under its own lease, it is graded, has no verifier or
      asks for none; it is rolled back in exactly the pass in which the participant reports the compensation. */
  lemma EndsIff(ops: map<string, Operation>, spec: Spec, st: Status, leases: map<string, Lease>, now: nat, env: Inputs)
    requires Good(st, spec.name) && !Terminal(st.phase)
    ensures Reconcile(ops, spec, st, leases, now, env).st.phase == Succeeded <==> SucceedsNow(spec, st, leases, now, env)
    ensures Reconcile(ops, spec, st, leases, now, env).st.phase == RolledBack <==> CompensatedNow(spec, st, leases, now, env)
  {
    hide Reconcile, Leads, Good, Obtains, Verified;
    PassArrives(ops, spec, st, leases, now, env, Succeeded);
    PassArrives(ops, spec, st, leases, now, env, RolledBack);
    BothLead(ops, spec, st, leases, now, env);
  }

  /** An operation is given up in exactly the passes in which its participant is gone, its apply ran out of time, its devices
      stayed invisible for too long, or its compensation failed for good. */
  lemma GivesUpIff(ops: map<string, Operation>, spec: Spec, st: Status, leases: map<string, Lease>, now: nat, env: Inputs)
    requires Good(st, spec.name) && !Terminal(st.phase)
    ensures Reconcile(ops, spec, st, leases, now, env).st.phase == ManualRecoveryRequired
       <==> UnderLease(spec, leases, now, env) && GivesUp(st, now, env)
  {
    hide Reconcile, Leads, Good, Obtains, RunningGivesUp, RollbackGivesUp;
    PassArrives(ops, spec, st, leases, now, env, ManualRecoveryRequired);
    BothLead(ops, spec, st, leases, now, env);
    SameGivesUp(st, now, env);
  }

  /** An operation goes to verification in exactly the passes whose participant reports that the apply is done, or that it
      failed while every device shows the target; and to rollback in exactly those that see it undone, ungraded for too
      long, or its node gone. */
  lemma TurnsIff(ops: map<string, Operation>, spec: Spec, st: Status, leases: map<string, Lease>, now: nat, env: Inputs)
    requires Good(st, spec.name) && !Terminal(st.phase)
    ensures st.phase != Verifying ==>
              (Reconcile(ops, spec, st, leases, now, env).st.phase == Verifying <==>
                 UnderLease(spec, leases, now, env) && Running(st.phase) && RunningVerifies(env))
    ensures st.phase != RollingBack ==>
              (Reconcile(ops, spec, st, leases, now, env).st.phase == RollingBack <==>
                 UnderLease(spec, leases, now, env) && StartsRollback(st, now, env))
  {
    hide Reconcile, Leads, Good, Obtains, RunningVerifies, RunningRollsBack;
    if st.phase != Verifying { PassArrives(ops, spec, st, leases, now, env, Verifying); }
    if st.phase != RollingBack { PassArrives(ops, spec, st, leases, now, env, RollingBack); }
    BothLead(ops, spec, st, leases, now, env);
    SameGivesUp(st, now, env);
  }

  lemma SameGivesUp(st: Status, now: nat, env: Inputs)
    ensures var st' := st.(leaseExpiry := now + LEASE_DURATION);
            GivesUp(st', now, env) == GivesUp(st, now, env) && StartsRollback(st', now, env) == StartsRollback(st, now, env)
  {
  }

  /** The two places a pass can take its step from. */
  lemma BothLead(ops: map<string, Operation>, spec: Spec, st: Status, leases: map<string, Lease>, now: nat, env: Inputs)
    requires Good(st, spec.name) && !Terminal(st.phase)
    ensures Holding(st.phase) ==>
              LeadsExactly(ops, spec, st.(leaseExpiry := now + LEASE_DURATION), leases[spec.node := Lease(spec.name, now)], now, env)
    ensures LeadsExactly(ops, spec, Begun(st), leases, now, env)
  {
    hide Leads, Good, Reconcile;
    PassLeads(ops, spec, st, leases, now, env);
    StepLeads(ops, spec, Begun(st), leases, now, env);
    if Holding(st.phase) {
      StepLeads(ops, spec, st.(leaseExpiry := now + LEASE_DURATION), leases[spec.node := Lease(spec.name, now)], now, env);
    }
  }

  ghost predicate LeadsExactly(ops: map<string, Operation>, spec: Spec, st: Status, leases: map<string, Lease>, now: nat, env: Inputs) {
    && (Leads(ops, spec, st, leases, now, env, Succeeded) <==> st.phase == Verifying && env.registered && Verified(env))
    && (Leads(ops, spec, st, leases, now, env, RolledBack)
        <==> st.phase == RollingBack && env.registered && env.rollback.Reported? && env.rollback.event == Some(EvCompensated))
    && (st.phase != Verifying ==> (Leads(ops, spec, st, leases, now, env, Verifying) <==> Running(st.phase) && RunningVerifies(env)))
    && (st.phase != RollingBack ==> (Leads(ops, spec, st, leases, now, env, RollingBack) <==> StartsRollback(st, now, env)))
    && (Leads(ops, spec, st, leases, now, env, ManualRecoveryRequired) <==> GivesUp(st, now, env))
  }

  /** The end of an apply is put on record only by a pass that goes on to verify it. */
  lemma FinishedOnlyVerifying(ops: map<string, Operation>, spec: Spec, st: Status, leases: map<string, Lease>, now: nat, env: Inputs)
    requires Good(st, spec.name)
    requires !HasStep(st.journal, ApplyFinished) && HasStep(Reconcile(ops, spec, st, leases, now, env).st.journal, ApplyFinished)
    ensures UnderLease(spec, leases, now, env) && Running(st.phase) && RunningVerifies(env)
  {
    hide Reconcile, Step, Good, Obtains, HasStep, RunningVerifies;
    if Terminal(st.phase) {
      EndedStays(ops, spec, st, leases, now, env);
    } else if Holding(st.phase) {
      HolderPass(ops, spec, st, leases, now, env);
      if Running(st.phase) { RunningStarted(st, spec.name); }
      StepFinishes(ops, spec, st.(leaseExpiry := now + LEASE_DURATION), leases[spec.node := Lease(spec.name, now)], now, env);
    } else {
      WaitingPass(ops, spec, st, leases, now, env);
      StepFinishes(ops, spec, Begun(st), leases, now, env);
    }
  }

  lemma StepFinishes(ops: map<string, Operation>, spec: Spec, st: Status, leases: map<string, Lease>, now: nat, env: Inputs)
    requires Running(st.phase) ==> HasStep(st.journal, ApplyStarted)
    ensures var r := Step(ops, spec, st, leases, now, env);
            r.Stepped? && HasStep(r.st.journal, ApplyFinished) && !HasStep(st.journal, ApplyFinished) ==> Running(st.phase) && RunningVerifies(env)
  {
    hide StepApply, Append, Recorded, HasStep, LastAt, Blockers, LeastName, RunningVerifies;
    LogsHave(now);
    if Running(st.phase) { RunningFinishes(st, leases, now, env); }
  }

  lemma RunningFinishes(st: Status, leases: map<string, Lease>, now: nat, env: Inputs)
    requires Running(st.phase) && HasStep(st.journal, ApplyStarted)
    ensures var r := StepApply(st, leases, now, env);
            r.Stepped? && HasStep(r.st.journal, ApplyFinished) && !HasStep(st.journal, ApplyFinished) ==> RunningVerifies(env)
  {
    hide Append, Recorded, HasStep, FirstAt, DecideAfterApplyFailure;
    LogsHave(now);
    var st1 := if env.apply.Reported? && env.apply.logsReset then Log(st, DeviceResetRequested, now) else st;
    FailedStep(st1.(phase := Applying), leases, now, env);
  }

  // ----- outcomes before the apply -----

  /** An operation is admitted in exactly the passes that can list the others and find none of the active ones in the way;
      otherwise it is blocked, and names the least of those in its way. */
  lemma AdmittedIff(ops: map<string, Operation>, spec: Spec, st: Status, leases: map<string, Lease>, now: nat, env: Inputs)
    requires Good(st, spec.name) && (st.phase == Unset || st.phase == Pending || st.phase == Blocked)
    ensures var p := Reconcile(ops, spec, st, leases, now, env);
            && (p.wrote <==> env.writeOK && env.listOK)
            && (p.st.phase == Planning <==> env.writeOK && env.listOK && !Obstructed(ops, spec))
            && (p.wrote && Obstructed(ops, spec) ==>
                  && p.st.phase == Blocked && p.st.journal == st.journal
                  && p.st.blockedBy in Blockers(ops, spec) && (forall n :: n in Blockers(ops, spec) ==> NameLe(p.st.blockedBy, n)))
            && (p.st.phase == Planning ==> p.st.blockedBy == "")
            && p.leases == leases
  {
    hide Reconcile, StepAdmit, WellKept, AtEpoch, Blockers, Obstructed, Recorded, WriteAhead;
    WaitingPass(ops, spec, st, leases, now, env);
    AdmissionStep(ops, spec, Begun(st), leases, now, env);
    AdmissionLeavesLeases(ops, spec, st, leases, now, env);
  }

  lemma AdmissionLeavesLeases(ops: map<string, Operation>, spec: Spec, st: Status, leases: map<string, Lease>, now: nat, env: Inputs)
    requires Good(st, spec.name) && (st.phase == Unset || st.phase == Pending || st.phase == Blocked)
    ensures Reconcile(ops, spec, st, leases, now, env).leases == leases
  {
    hide WellKept, AtEpoch, Blockers, LeastName, Append;
  }

  /** A planning operation is prepared in exactly the passes that take the lease, with a new epoch and the lease on record. */
  lemma PreparedIff(ops: map<string, Operation>, spec: Spec, st: Status, leases: map<string, Lease>, now: nat, env: Inputs)
    requires Good(st, spec.name) && st.phase == Planning
    ensures var p := Reconcile(ops, spec, st, leases, now, env);
            && (p.st.phase == Prepared <==> UnderLease(spec, leases, now, env))
            && (p.st.phase == Prepared ==>
                  && p.st.epoch == st.epoch + 1 && p.st.leaseHolder == spec.name && p.st.leaseExpiry == now + 60
                  && Recorded(p.st.journal, LeaseAcquired, st.epoch + 1))
            && (p.st.phase != Prepared ==> p.st == st)
            && p.leases == (if Obtains(spec, leases, now, env) then leases[spec.node := Lease(spec.name, now)] else leases)
  {
    hide Reconcile, StepAcquire, WellKept, AtEpoch, Recorded, WriteAhead, Obtains;
    WaitingPass(ops, spec, st, leases, now, env);
    PlanningStep(spec, st, leases, now, env) by { PlanningIsFree(st, spec.name); }
    PlanningTable(ops, spec, st, leases, now, env);
  }

  lemma PlanningTable(ops: map<string, Operation>, spec: Spec, st: Status, leases: map<string, Lease>, now: nat, env: Inputs)
    requires Good(st, spec.name) && st.phase == Planning
    ensures Reconcile(ops, spec, st, leases, now, env).leases
         == if Obtains(spec, leases, now, env) then leases[spec.node := Lease(spec.name, now)] else leases
  {
    hide WellKept, AtEpoch, Append;
    ObtainsWhat(spec, leases, now, env);
  }

  /** An operation that holds the lease is sent back to planning in exactly the passes that see the lease gone, and keeps
      everything it has journaled. */
  lemma SentBackIff(ops: map<string, Operation>, spec: Spec, st: Status, leases: map<string, Lease>, now: nat, env: Inputs)
    requires Good(st, spec.name) && Holding(st.phase)
    ensures var p := Reconcile(ops, spec, st, leases, now, env);
            && (p.st.phase == Planning <==> env.writeOK && !Obtains(spec, leases, now, env) && env.lease != LeaseApiError)
            && (p.st.phase == Planning ==> p.st == st.(phase := Planning, leaseHolder := ""))
            && (!Obtains(spec, leases, now, env) ==> p.callTable.None? && p.leases == leases)
  {
    hide Reconcile, Step, Good, Obtains;
    HolderPass(ops, spec, st, leases, now, env);
    NeverPlans(ops, spec, st.(leaseExpiry := now + LEASE_DURATION), leases[spec.node := Lease(spec.name, now)], now, env);
    if !Obtains(spec, leases, now, env) { LostTouchesNothing(ops, spec, st, leases, now, env); }
  }

  lemma LostTouchesNothing(ops: map<string, Operation>, spec: Spec, st: Status, leases: map<string, Lease>, now: nat, env: Inputs)
    requires Good(st, spec.name) && Holding(st.phase) && !Obtains(spec, leases, now, env)
    ensures var p := Reconcile(ops, spec, st, leases, now, env); p.callTable.None? && p.leases == leases
  {
    hide Step, WellKept, WriteAhead;
    ObtainsWhat(spec, leases, now, env);
  }

  lemma NeverPlans(ops: map<string, Operation>, spec: Spec, st: Status, leases: map<string, Lease>, now: nat, env: Inputs)
    requires Holding(st.phase)
    ensures var r := Step(ops, spec, st, leases, now, env); r.Stepped? ==> Landed(r).phase != Planning
  {
    hide Append, FirstAt, LastAt, HasStep, DecideRecovery;
  }

  /** A prepared operation is quiesced in exactly the passes that see its node, and keeps the first snapshot it took. */
  lemma QuiescedIff(ops: map<string, Operation>, spec: Spec, st: Status, leases: map<string, Lease>, now: nat, env: Inputs)
    requires Good(st, spec.name) && st.phase == Prepared
    ensures var p := Reconcile(ops, spec, st, leases, now, env);
            && (p.st.phase == Quiescing <==> UnderLease(spec, leases, now, env) && env.node.NodeFound?)
            && (p.st.phase == Quiescing ==> p.st.snapshot == Some(if st.snapshot.Some? then st.snapshot.value else env.node.view))
  {
    hide Reconcile, StepSnapshot, Good, Obtains, Recorded;
    HolderPass(ops, spec, st, leases, now, env);
    PreparedStep(st.(leaseExpiry := now + LEASE_DURATION), leases[spec.node := Lease(spec.name, now)], now, env);
  }

  /** A quiesced operation starts its apply in exactly the passes under its lease; no participant runs in them. */
  lemma StartsIff(ops: map<string, Operation>, spec: Spec, st: Status, leases: map<string, Lease>, now: nat, env: Inputs)
    requires Good(st, spec.name) && st.phase == Quiescing
    ensures var p := Reconcile(ops, spec, st, leases, now, env);
            && (p.st.phase == Applying <==> UnderLease(spec, leases, now, env))
            && (p.st.phase == Applying ==> Recorded(p.st.journal, ApplyStarted, st.epoch))
            && p.callTable.None?
  {
    hide Reconcile, Good, Obtains, Recorded, Append;
    HolderPass(ops, spec, st, leases, now, env);
    LogsHave(now);
    QuiescingCallsNobody(ops, spec, st, leases, now, env);
  }

  lemma QuiescingCallsNobody(ops: map<string, Operation>, spec: Spec, st: Status, leases: map<string, Lease>, now: nat, env: Inputs)
    requires Good(st, spec.name) && st.phase == Quiescing
    ensures Reconcile(ops, spec, st, leases, now, env).callTable.None?
  {
    hide WellKept, WriteAhead, Append;
  }

  /** Only a participant that asks for a reboot, or still waits for one, leaves an operation waiting for it; only a boot it
      saw, or a report that says neither, brings the operation back to applying. */
  lemma RebootIff(ops: map<string, Operation>, spec: Spec, st: Status, leases: map<string, Lease>, now: nat, env: Inputs)
    requires Good(st, spec.name) && Running(st.phase) && UnderLease(spec, leases, now, env) && env.registered && env.apply.Reported?
    ensures var p := Reconcile(ops, spec, st, leases, now, env);
            && (env.apply.event == Some(EvRebootRequired) ==>
                  (p.st.phase == WaitingForReboot <==> st.phase == Applying || !TimedOut(st, now)))
            && (env.apply.event == Some(EvRebootRequired) && st.phase == Applying ==> Recorded(p.st.journal, RebootRequested, st.epoch))
            && (env.apply.event == Some(EvBootObserved) && st.phase == WaitingForReboot ==>
                  p.st.phase == Applying && Recorded(p.st.journal, RebootObserved, st.epoch))
            && (env.apply.event == None ==> (p.st.phase == Applying <==> !TimedOut(st, now)))
  {
    hide Reconcile, StepApply, Good, Obtains, Recorded, HasStep, FirstAt, ShowsTarget;
    HolderPass(ops, spec, st, leases, now, env);
    RunningStarted(st, spec.name);
    RunningStep(st.(leaseExpiry := now + LEASE_DURATION), leases[spec.node := Lease(spec.name, now)], now, env);
  }

  // ----- the lease afterwards -----

  /** A pass that ends the operation gives the node's lease back when the call succeeds; any other pass over an operation that
      keeps its lease leaves it renewed; and no pass touches the lease of another node. */
  lemma LeaseAfterwards(ops: map<string, Operation>, spec: Spec, st: Status, leases: map<string, Lease>, now: nat, env: Inputs)
    requires Good(st, spec.name) && !Terminal(st.phase) && env.writeOK
    ensures var p := Reconcile(ops, spec, st, leases, now, env);
            && p.leases - {spec.node} == leases - {spec.node}
            && (Terminal(p.st.phase) && env.releaseOK ==> spec.node !in p.leases || p.leases[spec.node].holder != spec.name)
            && (Holding(st.phase) && Obtains(spec, leases, now, env) && !(Terminal(p.st.phase) && env.releaseOK) ==>
                  spec.node in p.leases && p.leases[spec.node] == Lease(spec.name, now))
  {
    hide Good, Step;
    GoodHolds(st, spec.name);
    ObtainsWhat(spec, leases, now, env);
    var st1 := st.(leaseExpiry := now + LEASE_DURATION);
    var table := leases[spec.node := Lease(spec.name, now)];
    StepTable(ops, spec, Begun(st), leases, now, env);
    StepTable(ops, spec, st1, table, now, env);
    StayingEndsNothing(ops, spec, Begun(st), leases, now, env);
    StayingEndsNothing(ops, spec, st1, table, now, env);
    if !Holding(st.phase) { EarlyStepsEndNothing(ops, spec, Begun(st), leases, now, env); }
  }

  lemma StayingEndsNothing(ops: map<string, Operation>, spec: Spec, st: Status, leases: map<string, Lease>, now: nat, env: Inputs)
    requires !Terminal(st.phase)
    ensures var r := Step(ops, spec, st, leases, now, env); r.Stepped? && r.next.None? ==> !Terminal(r.st.phase)
  {
    hide Append, Blockers, LeastName, FirstAt, LastAt, HasStep, DecideRecovery;
  }

  lemma EarlyStepsEndNothing(ops: map<string, Operation>, spec: Spec, st: Status, leases: map<string, Lease>, now: nat, env: Inputs)
    requires !Holding(st.phase) && !Terminal(st.phase)
    ensures var r := Step(ops, spec, st, leases, now, env); r.Stepped? ==> !Terminal(Landed(r).phase)
  {
    hide Append, Blockers, LeastName;
  }

  // ----- over whole runs -----

  /** Action k visited the operation while it verified, or rolled back, and the answers were those that end it so. */
  ghost predicate EarnedBy(actions: seq<Action>, k: nat, n: string, end: Phase)
    requires k < |actions|
  {
    var s := Run(actions[..k]);
    && actions[k].Visit? && actions[k].name == n && n in s.ops
    && if end == Succeeded then SucceedsNow(s.ops[n].spec, s.ops[n].st, s.leases, s.now + actions[k].dt, actions[k].env)
       else CompensatedNow(s.ops[n].spec, s.ops[n].st, s.leases, s.now + actions[k].dt, actions[k].env)
  }

  /** In every run a succeeded operation was graded, or needed no grade, in a pass over its verification under its own lease,
      and a rolled back one had its compensation reported in such a pass. */
  lemma {:induction false} EndsAreEarned(actions: seq<Action>, n: string, end: Phase)
    requires n in Run(actions).ops && Run(actions).ops[n].st.phase == end && (end == Succeeded || end == RolledBack)
    ensures exists k :: 0 <= k < |actions| && EarnedBy(actions, k, n, end)
  {
    hide Next, Reconcile, AllGood, SucceedsNow, CompensatedNow;
    if actions != [] {
      var j := |actions| - 1;
      RunGood(actions[..j]);
      var s := Run(actions[..j]);
      if n in s.ops && s.ops[n].st.phase == end {
        EndsAreEarned(actions[..j], n, end);
        var k :| 0 <= k < j && EarnedBy(actions[..j], k, n, end);
        assert actions[..j][..k] == actions[..k];
        assert EarnedBy(actions, k, n, end);
      } else {
        EndsHere(s, actions[j], n, end);
        assert EarnedBy(actions, j, n, end);
      }
    }
  }

  lemma EndsHere(s: Sys, a: Action, n: string, end: Phase)
    requires AllGood(s) && (end == Succeeded || end == RolledBack)
    requires n in Next(s, a).ops && Next(s, a).ops[n].st.phase == end
    requires !(n in s.ops && s.ops[n].st.phase == end)
    ensures a.Visit? && a.name == n && n in s.ops
    ensures if end == Succeeded then SucceedsNow(s.ops[n].spec, s.ops[n].st, s.leases, s.now + a.dt, a.env)
            else CompensatedNow(s.ops[n].spec, s.ops[n].st, s.leases, s.now + a.dt, a.env)
  {
    hide Reconcile, Good, SucceedsNow, CompensatedNow;
    if a.Visit? && n in s.ops && a.name == n {
      var op := s.ops[n];
      if Terminal(op.st.phase) {
        EndedStays(s.ops, op.spec, op.st, s.leases, s.now + a.dt, a.env);
      } else {
        EndsIff(s.ops, op.spec, op.st, s.leases, s.now + a.dt, a.env);
      }
    }
  }

  /** An operation that has ended is left alone. */
  lemma EndedStays(ops: map<string, Operation>, spec: Spec, st: Status, leases: map<string, Lease>, now: nat, env: Inputs)
    requires Terminal(st.phase)
    ensures var p := Reconcile(ops, spec, st, leases, now, env); p.st == st && p.leases == leases && p.callTable.None? && !p.wrote
  {
  }
}
