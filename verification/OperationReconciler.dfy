/** The coordinator as the program runs it: a reconciler that holds the stored objects and the lease table,
    and an in-memory copy of one operation whose status fields each step rewrites. Every method is proved to do
    what the function of the same pass in module Coordinator says. */
module OperationReconciler {
  import opened Journal
  import opened Conflict
  import opened Coordinator

  class LiveOperation {
    const spec: Spec
    var phase: Phase
    var epoch: nat
    var leaseHolder: string
    var leaseExpiry: nat
    var journal: seq<Entry>
    var snapshot: Option<Snapshot>
    var blockedBy: string
    var rollbackAttempts: nat
    var observeFailures: nat

    function Value(): Status
      reads this
    {
      Status(phase, epoch, leaseHolder, leaseExpiry, journal, snapshot, blockedBy, rollbackAttempts, observeFailures)
    }

    constructor (o: Operation)
      ensures spec == o.spec && Value() == o.st
    {
      spec, phase, epoch := o.spec, o.st.phase, o.st.epoch;
      leaseHolder, leaseExpiry, journal := o.st.leaseHolder, o.st.leaseExpiry, o.st.journal;
      snapshot, blockedBy := o.st.snapshot, o.st.blockedBy;
      rollbackAttempts, observeFailures := o.st.rollbackAttempts, o.st.observeFailures;
    }

    method Record(step: StepName, now: nat)
      modifies this`journal
      ensures Value() == Log(old(Value()), step, now)
    {
      journal := AppendJournal(journal, step, epoch, now);
    }

    /** When the apply first started. */
    method ApplyStartedAt() returns (at: Option<nat>)
      ensures at == FirstAt(journal, ApplyStarted)
    {
      for i := 0 to |journal|
        invariant FirstAt(journal, ApplyStarted) == FirstAt(journal[i..], ApplyStarted)
      {
        if journal[i].step == ApplyStarted {
          return Some(journal[i].at);
        }
        assert journal[i..][1..] == journal[i + 1..];
      }
      return None;
    }

    method LastJournalAt(step: StepName) returns (at: Option<nat>)
      ensures at == LastAt(journal, step)
    {
      at := None;
      for i := 0 to |journal|
        invariant at == LastAt(journal[..i], step)
      {
        if journal[i].step == step {
          at := Some(journal[i].at);
        }
        assert journal[..i + 1][..i] == journal[..i];
      }
      assert journal[..|journal|] == journal;
    }

    method TimedOut(now: nat) returns (late: bool)
      ensures late == ApplyTimedOut(Value(), now)
    {
      var started := ApplyStartedAt();
      return started.Some? && now - started.value >= MAX_APPLY_DURATION;
    }
  }

  class Reconciler {
    var store: map<string, Operation>
    var leases: map<string, Lease>

    ghost predicate Valid()
      reads this
    {
      forall n :: n in store ==> store[n].spec.name == n
    }

    constructor ()
      ensures Valid() && store == map[] && leases == map[]
    {
      store, leases := map[], map[];
    }

    /** A step came out as r: it failed when r did, and otherwise left r's status in op. */
    ghost predicate Did(r: StepResult, ok: bool, next: Option<Phase>, called: bool, op: LiveOperation)
      reads this, op
    {
      && leases == r.leases && called == r.called && ok == r.Stepped?
      && (ok ==> op.Value() == r.st && next == r.next)
    }

    method Acquire(node: string, holder: string, now: nat, reply: LeaseReply) returns (r: LeaseResult)
      modifies this`leases
      ensures r == AcquireResult(old(leases), node, holder, now, reply)
      ensures leases == AcquireTable(old(leases), node, holder, now, reply)
    {
      if reply.LeaseApiError? {
        return LeaseFailed;
      }
      if node in leases && leases[node].holder != holder && !Expired(leases[node], now) {
        return LeaseDenied;
      }
      if reply.LeaseRaceLost? {
        return LeaseDenied;
      }
      leases := leases[node := Lease(holder, now)];
      return LeaseGranted;
    }

    method Release(node: string, holder: string)
      modifies this`leases
      ensures leases == ReleaseTable(old(leases), node, holder)
    {
      if node in leases && leases[node].holder == holder {
        leases := leases - {node};
      }
    }

    /** The claims of the other active operations, in whatever order the list call returns them. */
    method ActiveClaims(name: string) returns (active: seq<Claim>)
      requires Valid()
      ensures forall c :: c in active <==>
                exists n :: n in store && n != name && Active(store[n].st.phase) && c == ClaimOf(store[n].spec)
    {
      active := [];
      var left := store.Keys;
      while left != {}
        invariant left <= store.Keys
        invariant forall c :: c in active <==>
            exists n :: n in store && n !in left && n != name && Active(store[n].st.phase) && c == ClaimOf(store[n].spec)
        decreases |left|
      {
        var n :| n in left;
        left := left - {n};
        if n != name && Active(store[n].st.phase) {
          active := active + [ClaimOf(store[n].spec)];
        }
      }
    }

    method StepAdmit(op: LiveOperation, now: nat, env: Inputs) returns (ok: bool, next: Option<Phase>, called: bool)
      requires Valid()
      modifies op
      ensures Did(Coordinator.StepAdmit(store, op.spec, old(op.Value()), leases, now, env), ok, next, called, op)
    {
      hide Blocks, NameLe, Append, LeastName, Blockers;
      called := false;
      if !env.listOK {
        return false, None, false;
      }
      var active := ActiveClaims(op.spec.name);
      var verdict := Admit(ClaimOf(op.spec), active);
      BlockersFound(store, op.spec, active, verdict);
      if verdict.AdmitBlocked? {
        op.blockedBy := verdict.blocker;
        if op.phase == Blocked {
          return true, None, false;
        }
        return true, Some(Blocked), false;
      }
      op.blockedBy := "";
      op.Record(Planned, now);
      return true, Some(Planning), false;
    }

    method StepAcquire(op: LiveOperation, now: nat, env: Inputs) returns (ok: bool, next: Option<Phase>, called: bool)
      modifies op, this`leases
      ensures Did(Coordinator.StepAcquire(op.spec, old(op.Value()), old(leases), now, env), ok, next, called, op)
    {
      called := false;
      var heldBefore := op.leaseHolder == op.spec.name;
      var r := Acquire(op.spec.node, op.spec.name, now, env.lease);
      if r.LeaseFailed? {
        return false, None, false;
      }
      if r.LeaseDenied? {
        return true, None, false;
      }
      op.leaseHolder := op.spec.name;
      op.leaseExpiry := now + LEASE_DURATION;
      if !heldBefore {
        op.epoch := op.epoch + 1;
      }
      op.Record(LeaseAcquired, now);
      return true, Some(Prepared), false;
    }

    method StepSnapshot(op: LiveOperation, now: nat, env: Inputs) returns (ok: bool, next: Option<Phase>, called: bool)
      modifies op
      ensures Did(Coordinator.StepSnapshot(old(op.Value()), leases, now, env), ok, next, called, op)
    {
      called := false;
      match env.node {
        case NodeError => return false, None, false;
        case NodeMissing => return true, Some(RollingBack), false;
        case NodeFound(view) =>
          if op.snapshot.None? {
            op.snapshot := Some(view);
          }
          op.Record(SnapshotTaken, now);
          op.Record(Quiesced, now);
          return true, Some(Quiescing), false;
      }
    }

    method StepApply(op: LiveOperation, now: nat, env: Inputs) returns (ok: bool, next: Option<Phase>, called: bool)
      requires op.phase == Applying || op.phase == WaitingForReboot
      modifies op
      ensures Did(Coordinator.StepApply(old(op.Value()), leases, now, env), ok, next, called, op)
    {
      if !env.registered {
        return true, Some(ManualRecoveryRequired), false;
      }
      called := true;
      if env.apply.ParticipantError? {
        return false, None, true;
      }
      if env.apply.logsReset {
        op.Record(DeviceResetRequested, now);
      }
      var event := env.apply.event;
      if op.phase == WaitingForReboot {
        if event == Some(EvBootObserved) {
          op.Record(RebootObserved, now);
          return true, Transition(op.phase, EvBootObserved), true;
        }
        if event == Some(EvRebootRequired) {
          var late := op.TimedOut(now);
          return true, if late then Some(ManualRecoveryRequired) else None, true;
        }
        op.phase := Applying;
      }
      if event.None? {
        var late := op.TimedOut(now);
        return true, if late then Some(ManualRecoveryRequired) else None, true;
      }
      if event.value == EvApplyFailed {
        next := DecideAfterApplyFailure(op, now, env);
        return true, next, true;
      }
      if event.value == EvApplyDone {
        op.Record(ApplyFinished, now);
        op.Record(VerifyStarted, now);
      }
      if event.value == EvRebootRequired {
        op.Record(RebootRequested, now);
      }
      next := Transition(op.phase, event.value);
      return next.Some?, next, true;
    }

    method DecideAfterApplyFailure(op: LiveOperation, now: nat, env: Inputs) returns (next: Option<Phase>)
      modifies op
      ensures Did(Coordinator.DecideAfterApplyFailure(old(op.Value()), leases, now, env), true, next, true, op)
    {
      var observationOK, observed, expected := true, map[], "";
      if env.verifyRequest.Request? {
        observationOK, observed, expected :=
          env.verifyRequest.observationOK, env.verifyRequest.observed, env.verifyRequest.expected;
      }
      match DecideRecovery(op.Value(), observationOK, observed, expected) {
        case Commit =>
          op.observeFailures := 0;
          op.Record(ApplyFinished, now);
          op.Record(VerifyStarted, now);
          return Some(Verifying);
        case Wait =>
          op.observeFailures := op.observeFailures + 1;
          return None;
        case Manual => return Some(ManualRecoveryRequired);
        case Restart => return None;
        case Rollback =>
          op.observeFailures := 0;
          return Some(RollingBack);
      }
    }

    method StepVerify(op: LiveOperation, now: nat, env: Inputs) returns (ok: bool, next: Option<Phase>, called: bool)
      modifies op
      ensures Did(Coordinator.StepVerify(old(op.Value()), leases, now, env), ok, next, called, op)
    {
      if !env.registered {
        return true, Some(ManualRecoveryRequired), false;
      }
      if env.verifyRequest.VerifyRequestError? {
        return false, None, true;
      }
      if env.verifyRequest.NotApplicable? || env.verdict.VerifierMissing? {
        op.Record(Committed, now);
        return true, Some(Succeeded), true;
      }
      if env.verdict.VerifierError? {
        return false, None, true;
      }
      if env.verdict.Ungraded? {
        var started := op.LastJournalAt(VerifyStarted);
        if started.Some? && now - started.value < MAX_VERIFY_GRACE {
          return true, None, true;
        }
        return true, Some(RollingBack), true;
      }
      op.Record(Committed, now);
      return true, Some(Succeeded), true;
    }

    method StepRollback(op: LiveOperation, now: nat, env: Inputs) returns (ok: bool, next: Option<Phase>, called: bool)
      modifies op
      ensures Did(Coordinator.StepRollback(old(op.Value()), leases, now, env), ok, next, called, op)
    {
      if !env.registered {
        return true, Some(ManualRecoveryRequired), false;
      }
      op.Record(RollbackStarted, now);
      op.rollbackAttempts := op.rollbackAttempts + 1;
      if env.rollback.ParticipantError? {
        return false, None, true;
      }
      if env.rollback.event == Some(EvCompensated) {
        op.Record(RollbackFinished, now);
        return true, Some(RolledBack), true;
      }
      if env.rollback.event == Some(EvCompensationFailed) || op.rollbackAttempts >= MAX_ROLLBACK_ATTEMPTS {
        return true, Some(ManualRecoveryRequired), true;
      }
      return true, None, true;
    }

    method Step(op: LiveOperation, now: nat, env: Inputs) returns (ok: bool, next: Option<Phase>, called: bool)
      requires Valid()
      modifies op, this`leases
      ensures Did(Coordinator.Step(store, op.spec, old(op.Value()), old(leases), now, env), ok, next, called, op)
    {
      hide Coordinator.StepAdmit, Coordinator.StepAcquire, Coordinator.StepSnapshot, Coordinator.StepApply,
           Coordinator.StepVerify, Coordinator.StepRollback;
      match op.phase {
        case Pending => ok, next, called := StepAdmit(op, now, env);
        case Blocked => ok, next, called := StepAdmit(op, now, env);
        case Planning => ok, next, called := StepAcquire(op, now, env);
        case Prepared => ok, next, called := StepSnapshot(op, now, env);
        case Quiescing =>
          op.Record(ApplyStarted, now);
          return true, Some(Applying), false;
        case Applying => ok, next, called := StepApply(op, now, env);
        case WaitingForReboot => ok, next, called := StepApply(op, now, env);
        case Verifying => ok, next, called := StepVerify(op, now, env);
        case RollingBack => ok, next, called := StepRollback(op, now, env);
        case _ => return true, None, false;
      }
    }

    /** Get, compare epochs, update. The update fails when writeOK is false. */
    method WriteStatus(op: LiveOperation, writeOK: bool)
      requires Valid() && op.spec.name in store && store[op.spec.name].spec == op.spec
      modifies this`store
      ensures Valid()
      ensures store == if writeOK && old(store)[op.spec.name].st.epoch <= op.epoch
                       then old(store)[op.spec.name := Operation(op.spec, op.Value())] else old(store)
    {
      var current := store[op.spec.name];
      if current.st.epoch > op.epoch {
        return;
      }
      if writeOK {
        store := store[op.spec.name := Operation(op.spec, op.Value())];
      }
    }

    method Reconcile(name: string, now: nat, env: Inputs) returns (called: bool)
      requires Valid()
      modifies this
      ensures Valid()
      ensures name !in old(store) ==> !called && store == old(store) && leases == old(leases)
      ensures name in old(store) ==>
                var o := old(store)[name];
                var p := Coordinator.Reconcile(old(store), o.spec, o.st, old(leases), now, env);
                && store == old(store)[name := Operation(o.spec, p.st)]
                && leases == p.leases
                && called == p.callTable.Some?
    {
      hide Coordinator.Step, Finish;
      called := false;
      if name !in store {
        return;
      }
      var op := new LiveOperation(store[name]);
      if op.phase == Unset {
        op.phase := Pending;
      }
      if Terminal(op.phase) {
        return;
      }
      if op.leaseHolder == op.spec.name {
        var r := Acquire(op.spec.node, op.spec.name, now, env.lease);
        if r.LeaseFailed? {
          return;
        }
        if r.LeaseDenied? {
          op.leaseHolder := "";
          op.phase := Planning;
          WriteStatus(op, env.writeOK);
          return;
        }
        op.leaseExpiry := now + LEASE_DURATION;
      }
      called := Advance(op, now, env);
    }

    /** The second half of a pass: one step, the release at an end, the write. */
    method Advance(op: LiveOperation, now: nat, env: Inputs) returns (called: bool)
      requires Valid() && op.spec.name in store && store[op.spec.name].spec == op.spec
      requires store[op.spec.name].st.epoch == op.epoch
      modifies this, op
      ensures Valid()
      ensures var prior := old(store)[op.spec.name].st;
              var p := Finish(prior, op.spec, Coordinator.Step(old(store), op.spec, old(op.Value()), old(leases), now, env), env);
              && store == old(store)[op.spec.name := Operation(op.spec, p.st)]
              && leases == p.leases
              && called == p.callTable.Some?
    {
      hide Coordinator.Step;
      var ok, next;
      EpochNeverFallsInStep(store, op.spec, op.Value(), leases, now, env);
      ok, next, called := Step(op, now, env);
      if !ok {
        return;
      }
      if next.Some? {
        if Terminal(next.value) && env.releaseOK {
          Release(op.spec.node, op.spec.name);
        }
        op.phase := next.value;
      }
      WriteStatus(op, env.writeOK);
    }
  }

  /** The name the admission loop reports is the least among the blockers. */
  lemma BlockersFound(ops: map<string, Operation>, spec: Spec, active: seq<Claim>, verdict: Admission)
    requires forall n :: n in ops ==> ops[n].spec.name == n
    requires forall c :: c in active <==>
               exists n :: n in ops && n != spec.name && Active(ops[n].st.phase) && c == ClaimOf(ops[n].spec)
    requires verdict.AdmitBlocked? <==> exists a :: a in active && a.name != spec.name && Blocks(a, ClaimOf(spec))
    requires verdict.AdmitBlocked? ==>
               && (exists a :: a in active && a.name == verdict.blocker && a.name != spec.name && Blocks(a, ClaimOf(spec)))
               && (forall a :: a in active && a.name != spec.name && Blocks(a, ClaimOf(spec)) ==> NameLe(verdict.blocker, a.name))
    ensures verdict.AdmitBlocked? <==> Blockers(ops, spec) != {}
    ensures verdict.AdmitBlocked? ==> verdict.blocker == LeastName(Blockers(ops, spec))
  {
    hide Blocks, NameLe;
    var blockers := Blockers(ops, spec);
    forall n | n in blockers
      ensures exists a :: a in active && a.name == n && a.name != spec.name && Blocks(a, ClaimOf(spec))
    {
      assert ClaimOf(ops[n].spec) in active;
    }
    if verdict.AdmitBlocked? {
      var a :| a in active && a.name == verdict.blocker && a.name != spec.name && Blocks(a, ClaimOf(spec));
      assert verdict.blocker in blockers;
      NameLeAntisymmetric(verdict.blocker, LeastName(blockers));
    }
  }

  lemma EpochNeverFallsInStep(ops: map<string, Operation>, spec: Spec, st: Status, leases: map<string, Lease>, now: nat, env: Inputs)
    ensures var r := Step(ops, spec, st, leases, now, env); r.Stepped? ==> st.epoch <= r.st.epoch
  {
    hide Append, LastAt, FirstAt, LeastName, Blockers;
  }
}
