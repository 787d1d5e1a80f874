/** When an operation that started applying reaches an end. The clocks and counters of the coordinator cut
    every stall, with one exception: a participant that reports a boot again and again. */
module Termination {
  import opened Journal
  import opened Conflict
  import opened Coordinator
  import opened OperationInvariant

  /** The apply started at least 20 minutes ago (its first start, whatever epoch it was in). */
  predicate PastDeadline(st: Status, now: nat) {
    var started := FirstAt(st.journal, ApplyStarted);
    started.Some? && now - started.value >= MAX_APPLY_DURATION
  }

  function GraceLeft(st: Status, now: nat): nat {
    var started := LastAt(st.journal, VerifyStarted);
    if started.Some? && now - started.value < MAX_VERIFY_GRACE then
      var left := started.value + MAX_VERIFY_GRACE - now;
      if left < MAX_VERIFY_GRACE then left else MAX_VERIFY_GRACE
    else 0
  }

  /** The passes an operation can still make past the deadline, seen at time now. */
  function Measure(st: Status, now: nat): nat
    requires st.observeFailures <= MAX_OBSERVE_FAILURES && st.rollbackAttempts <= MAX_ROLLBACK_ATTEMPTS
  {
    var observations := 4 * (MAX_OBSERVE_FAILURES - st.observeFailures);
    var boot := if HasStep(st.journal, RebootObserved) then 0 else 2;
    match st.phase
    case Planning => 212
    case Prepared => 211
    case Quiescing => 210
    case Applying => 187 + observations + boot
    case WaitingForReboot => 186 + observations + boot
    case Verifying => 5 + GraceLeft(st, now)
    case RollingBack => 1 + MAX_ROLLBACK_ATTEMPTS - st.rollbackAttempts
    case _ => 0
  }

  /** The one stall nothing cuts: a boot reported from WaitingForReboot although the journal has one already. */
  predicate RepeatedBoot(st: Status, env: Inputs) {
    && st.phase == WaitingForReboot
    && env.registered
    && env.apply.Reported? && env.apply.event == Some(EvBootObserved)
    && HasStep(st.journal, RebootObserved)
  }

  /** A further pass within the second of the one before, over a verification that is not graded yet: the only pass that
      leaves everything as it is. */
  predicate Waits(st: Status, prev: nat, now: nat, env: Inputs) {
    && prev == now && st.phase == Verifying && GraceLeft(st, now) > 0
    && env.registered && env.verifyRequest.Request? && env.verdict.Ungraded?
  }

  // ----- one pass -----

  lemma HasStepLog(st: Status, step: StepName, now: nat, s: StepName)
    ensures HasStep(Log(st, step, now).journal, s) <==> HasStep(st.journal, s) || s == step
  {
    var j, j' := st.journal, Log(st, step, now).journal;
    if HasStep(j, s) {
      var i :| 0 <= i < |j| && j[i].step == s;
      assert j'[i] == j[i];
    }
    if !Recorded(j, step, st.epoch) {
      assert j'[|j|].step == step;
    }
    if HasStep(j', s) && s != step {
      var i :| 0 <= i < |j'| && j'[i].step == s;
      assert i < |j| && j[i] == j'[i];
    }
  }

  /** What an operation still applying has left at least, whichever of the two applying phases it is in. */
  function Room(st: Status): nat
    requires st.observeFailures <= MAX_OBSERVE_FAILURES
  {
    186 + 4 * (MAX_OBSERVE_FAILURES - st.observeFailures) + if HasStep(st.journal, RebootObserved) then 0 else 2
  }

  lemma RecoveryMeasure(st: Status, leases: map<string, Lease>, now: nat, env: Inputs)
    requires Counted(st) && st.phase == Applying && HasStep(st.journal, ApplyStarted)
    ensures var r := DecideAfterApplyFailure(st, leases, now, env);
            Counted(Landed(r)) && Measure(Landed(r), now) < Room(st)
  {
    hide Append, FirstAt, LastAt, HasStep;
  }

  lemma AnswerMeasure(st: Status, event: Option<Event>, leases: map<string, Lease>, now: nat, env: Inputs)
    requires Counted(st) && st.phase == Applying && HasStep(st.journal, ApplyStarted) && PastDeadline(st, now)
    requires ApplyAnswer(st, event, leases, now, env).Stepped?
    ensures var r := ApplyAnswer(st, event, leases, now, env);
            && Counted(Landed(r)) && Measure(Landed(r), now) <= Room(st)
            && (event != Some(EvRebootRequired) ==> Measure(Landed(r), now) < Room(st))
  {
    hide Append, FirstAt, LastAt, HasStep;
    if event == Some(EvApplyFailed) {
      RecoveryMeasure(st, leases, now, env);
    } else {
      HasStepLog(st, RebootRequested, now, RebootObserved);
    }
  }

  lemma ApplyMeasure(st: Status, leases: map<string, Lease>, prev: nat, now: nat, env: Inputs)
    requires Counted(st) && (st.phase == Applying || st.phase == WaitingForReboot)
    requires PastDeadline(st, now) && HasStep(st.journal, ApplyStarted)
    requires StepApply(st, leases, now, env).Stepped?
    ensures var r := StepApply(st, leases, now, env);
            && Counted(Landed(r))
            && (if RepeatedBoot(st, env) then Measure(Landed(r), now) == Measure(st, prev) + 1
                else Measure(Landed(r), now) < Measure(st, prev))
  {
    hide Append, Recorded, FirstAt, LastAt, HasStep, ApplyAnswer;
    if env.registered {
      var st1 := if env.apply.logsReset then Log(st, DeviceResetRequested, now) else st;
      LogExtends(st, DeviceResetRequested, now);
      HasStepLog(st, DeviceResetRequested, now, RebootObserved);
      HasStepLog(st, DeviceResetRequested, now, ApplyStarted);
      FirstAtKept(st.journal, st1.journal, ApplyStarted) by { FirstAtHas(st.journal, ApplyStarted); }
      if st.phase == WaitingForReboot && env.apply.event == Some(EvBootObserved) {
        HasStepLog(st1, RebootObserved, now, RebootObserved);
      } else if st.phase == WaitingForReboot && env.apply.event == Some(EvRebootRequired) {
      } else {
        AnswerMeasure(st1.(phase := Applying), env.apply.event, leases, now, env);
      }
    }
  }

  lemma LogExtends(st: Status, step: StepName, now: nat)
    ensures st.journal <= Log(st, step, now).journal
  {
  }

  lemma VerifyMeasure(st: Status, leases: map<string, Lease>, prev: nat, now: nat, env: Inputs)
    requires Counted(st) && st.phase == Verifying && prev <= now && Dated(st.journal, prev)
    requires StepVerify(st, leases, now, env).Stepped?
    requires Counted(Landed(StepVerify(st, leases, now, env)))
    ensures var m := Measure(Landed(StepVerify(st, leases, now, env)), now);
            if Waits(st, prev, now, env) then m == Measure(st, prev) else m < Measure(st, prev)
  {
    hide Append, FirstAt, HasStep;
    LastAtDated(st.journal, VerifyStarted, prev);
  }

  lemma {:induction false} LastAtDated(j: seq<Entry>, step: StepName, now: nat)
    requires Dated(j, now)
    ensures LastAt(j, step).Some? ==> LastAt(j, step).value <= now
  {
    if j != [] {
      LastAtDated(j[..|j| - 1], step, now);
    }
  }

  /** No apply has started while an operation is not yet admitted. */
  lemma StartedIsAdmitted(st: Status, name: string, now: nat)
    requires Good(st, name) && PastDeadline(st, now)
    ensures st.phase != Unset && st.phase != Pending && st.phase != Blocked
    ensures HasStep(st.journal, ApplyStarted)
  {
    hide WellKept, AtEpoch;
    FirstAtHas(st.journal, ApplyStarted);
  }

  ghost predicate LeaseObtained(spec: Spec, leases: map<string, Lease>, now: nat, env: Inputs) {
    AcquireResult(leases, spec.node, spec.name, now, env.lease).LeaseGranted?
  }

  lemma StepMeasure(ops: map<string, Operation>, spec: Spec, st: Status, leases: map<string, Lease>, prev: nat, now: nat, env: Inputs)
    requires Good(st, spec.name) && !Terminal(st.phase)
    requires Dated(st.journal, prev) && prev <= now && PastDeadline(st, now)
    requires st.phase == Planning ==> LeaseObtained(spec, leases, now, env)
    requires Step(ops, spec, st, leases, now, env).Stepped?
    ensures Counted(Landed(Step(ops, spec, st, leases, now, env)))
    ensures var m := Measure(Landed(Step(ops, spec, st, leases, now, env)), now);
            if RepeatedBoot(st, env) then m == Measure(st, prev) + 1
            else if Waits(st, prev, now, env) then m == Measure(st, prev)
            else m < Measure(st, prev)
  {
    hide WellKept, AtEpoch, Append, Recorded, FirstAt, LastAt, HasStep;
    StepKeeps(ops, spec, st, leases, now, env);
    StartedIsAdmitted(st, spec.name, now);
    match st.phase
    case Applying => ApplyMeasure(st, leases, prev, now, env);
    case WaitingForReboot => ApplyMeasure(st, leases, prev, now, env);
    case Verifying => VerifyMeasure(st, leases, prev, now, env);
    case _ =>
  }

  /** Past the deadline every persisted pass that gets its lease moves the operation strictly closer to an end,
      whatever the participant reports, if and only if it is neither a repeated boot report, which moves it
      one pass away, nor a second pass within one second over an ungraded verification. */
  lemma ProgressIff(ops: map<string, Operation>, spec: Spec, st: Status, leases: map<string, Lease>, prev: nat, now: nat, env: Inputs)
    requires Good(st, spec.name) && !Terminal(st.phase)
    requires Dated(st.journal, prev) && prev <= now && PastDeadline(st, now)
    requires LeaseObtained(spec, leases, now, env)
    requires Reconcile(ops, spec, st, leases, now, env).wrote
    ensures var st' := Reconcile(ops, spec, st, leases, now, env).st;
            && Counted(st') && Counted(st)
            && (Measure(st', now) < Measure(st, prev) <==> !RepeatedBoot(st, env) && !Waits(st, prev, now, env))
            && Measure(st', now) <= Measure(st, prev) + (if RepeatedBoot(st, env) then 1 else 0)
            && PastDeadline(st', now)
  {
    hide WellKept, AtEpoch, Append, Recorded, FirstAt, LastAt, HasStep, Step, Measure, WriteAhead, Waits, RepeatedBoot;
    StartedIsAdmitted(st, spec.name, now);
    var st1 := if st.leaseHolder == spec.name then st.(leaseExpiry := now + LEASE_DURATION) else st;
    var leases1 := if st.leaseHolder == spec.name then AcquireTable(leases, spec.node, spec.name, now, env.lease) else leases;
    BegunKeeps(st, spec.name, now + LEASE_DURATION);
    SameMeasure(st, st1, prev);
    assert Reconcile(ops, spec, st, leases, now, env) == Finish(st, spec, Step(ops, spec, st1, leases1, now, env), env);
    StepMeasure(ops, spec, st1, leases1, prev, now, env);
    ReconcileKeeps(ops, spec, st, leases, now, env);
    FirstAtKept(st.journal, Reconcile(ops, spec, st, leases, now, env).st.journal, ApplyStarted);
  }

  lemma SameMeasure(a: Status, b: Status, now: nat)
    requires Counted(a) && a.(leaseExpiry := b.leaseExpiry) == b
    ensures Counted(b) && Measure(a, now) == Measure(b, now)
    ensures forall later: nat, env: Inputs :: Waits(a, now, later, env) == Waits(b, now, later, env)
    ensures forall env: Inputs :: RepeatedBoot(a, env) == RepeatedBoot(b, env)
  {
    hide HasStep, FirstAt, LastAt;
    assert forall later: nat :: GraceLeft(a, later) == GraceLeft(b, later);
  }

  // ----- a run of one operation -----

  datatype Visit = Visit(ops: map<string, Operation>, leases: map<string, Lease>, now: nat, env: Inputs)

  /** A pass over an unfinished operation that obtains the lease and persists its result b. */
  ghost predicate SteadyPass(spec: Spec, a: Status, b: Status, prev: nat, v: Visit) {
    && !Terminal(a.phase)
    && prev <= v.now
    && LeaseObtained(spec, v.leases, v.now, v.env)
    && var p := Reconcile(v.ops, spec, a, v.leases, v.now, v.env);
       p.wrote && b == p.st
  }

  /** A run past the deadline without lease loss, step error or lost write: sts[i + 1] is what pass i stored.
      Other operations may do anything between two passes. */
  ghost predicate SteadyRun(spec: Spec, sts: seq<Status>, visits: seq<Visit>, start: nat) {
    && |sts| == |visits| + 1
    && Good(sts[0], spec.name) && Dated(sts[0].journal, start) && PastDeadline(sts[0], start)
    && forall i :: 0 <= i < |visits| ==> SteadyPass(spec, sts[i], sts[i + 1], LastTime(visits[..i], start), visits[i])
  }

  ghost function Repeats(sts: seq<Status>, visits: seq<Visit>): nat
    requires |sts| == |visits| + 1
  {
    if visits == [] then 0
    else
      var k := |visits| - 1;
      Repeats(sts[..k + 1], visits[..k]) + if RepeatedBoot(sts[k], visits[k].env) then 1 else 0
  }

  /** Passes within the second of the pass before that had nothing to do. */
  ghost function Idles(sts: seq<Status>, visits: seq<Visit>, start: nat): nat
    requires |sts| == |visits| + 1
  {
    if visits == [] then 0
    else
      var k := |visits| - 1;
      Idles(sts[..k + 1], visits[..k], start)
      + if Waits(sts[k], LastTime(visits[..k], start), visits[k].now, visits[k].env) then 1 else 0
  }

  function LastTime(visits: seq<Visit>, start: nat): nat {
    if visits == [] then start else visits[|visits| - 1].now
  }

  lemma SteadyPrefix(spec: Spec, sts: seq<Status>, visits: seq<Visit>, start: nat)
    requires SteadyRun(spec, sts, visits, start) && visits != []
    ensures SteadyRun(spec, sts[..|visits|], visits[..|visits| - 1], start)
  {
    hide SteadyPass, Good, PastDeadline, Dated;
    var sts', visits' := sts[..|visits|], visits[..|visits| - 1];
    forall i | 0 <= i < |visits'|
      ensures SteadyPass(spec, sts'[i], sts'[i + 1], LastTime(visits'[..i], start), visits'[i])
    {
      assert visits'[..i] == visits[..i];
    }
  }

  lemma {:induction false} SteadyRunMeasure(spec: Spec, sts: seq<Status>, visits: seq<Visit>, start: nat)
    requires SteadyRun(spec, sts, visits, start)
    ensures var n := |visits|; var t := LastTime(visits, start);
            && Good(sts[n], spec.name) && Dated(sts[n].journal, t) && PastDeadline(sts[n], t)
            && Counted(sts[0])
            && Measure(sts[n], t) + n <= Measure(sts[0], start) + 2 * Repeats(sts, visits) + Idles(sts, visits, start)
  {
    hide Reconcile, Measure, RepeatedBoot, Waits, WriteAhead, WellKept, FirstAt;
    var n := |visits|;
    if n > 0 {
      var sts', visits' := sts[..n], visits[..n - 1];
      SteadyPrefix(spec, sts, visits, start);
      SteadyRunMeasure(spec, sts', visits', start);
      assert visits[..n - 1] == visits';
      assert SteadyPass(spec, sts[n - 1], sts[n], LastTime(visits', start), visits[n - 1]);
      var v := visits[n - 1];
      var t := LastTime(visits', start);
      assert sts'[n - 1] == sts[n - 1];
      ProgressIff(v.ops, spec, sts[n - 1], v.leases, t, v.now, v.env);
      ReconcileKeeps(v.ops, spec, sts[n - 1], v.leases, v.now, v.env);
    }
  }

  /** With r repeated boot reports an operation past its deadline makes at most 212 + 2r passes, not counting those
      that find nothing to do within the second of the pass before; with no repeated report it ends within 212. */
  lemma EndsInTime(spec: Spec, sts: seq<Status>, visits: seq<Visit>, start: nat)
    requires SteadyRun(spec, sts, visits, start)
    ensures |visits| <= 212 + 2 * Repeats(sts, visits) + Idles(sts, visits, start)
  {
    SteadyRunMeasure(spec, sts, visits, start);
    MeasureBound(sts[0], start);
  }

  lemma MeasureBound(st: Status, now: nat)
    requires Counted(st)
    ensures Measure(st, now) <= 212
  {
  }

  // ----- who can report a boot twice -----

  /** The node-reboot participant (internal/controller/operation_reboot.go): None stands for a call error. */
  function NodeRebootAnswer(j: seq<Entry>, requestOK: bool, bootKnown: bool, booted: bool): Option<Event> {
    if HasStep(j, RebootObserved) then Some(EvApplyDone)
    else if CountStep(j, RebootRequested) == 0 then
      if requestOK then Some(EvRebootRequired) else Some(EvApplyFailed)
    else if !bootKnown then None
    else if booted then Some(EvBootObserved)
    else if CountStep(j, RebootRequested) >= 2 then Some(EvApplyFailed)
    else Some(EvRebootRequired)
  }

  function CountStep(j: seq<Entry>, step: StepName): nat {
    if j == [] then 0
    else CountStep(j[..|j| - 1], step) + if j[|j| - 1].step == step then 1 else 0
  }

  /** The participant that reports boots looks into the journal first, so its operations always progress. */
  lemma NodeRebootNeverRepeats(st: Status, env: Inputs, requestOK: bool, bootKnown: bool, booted: bool)
    requires env.apply.Reported? && env.apply.event == NodeRebootAnswer(st.journal, requestOK, bootKnown, booted)
    ensures !RepeatedBoot(st, env)
  {
  }

  /** A visit in which the participant answers as the node-reboot participant would. */
  predicate AnswersAsReboot(st: Status, v: Visit) {
    v.env.apply.Reported? ==>
      exists requestOK: bool, bootKnown: bool, booted: bool ::
        v.env.apply.event == NodeRebootAnswer(st.journal, requestOK, bootKnown, booted)
  }

  /** So a node reboot past its deadline ends within 212 passes that have something to do. */
  lemma NodeRebootEnds(spec: Spec, sts: seq<Status>, visits: seq<Visit>, start: nat)
    requires SteadyRun(spec, sts, visits, start)
    requires forall i :: 0 <= i < |visits| ==> AnswersAsReboot(sts[i], visits[i])
    ensures |visits| <= 212 + Idles(sts, visits, start)
  {
    hide SteadyPass, NodeRebootAnswer;
    EndsInTime(spec, sts, visits, start);
    NoRepeats(sts, visits);
  }

  lemma {:induction false} NoRepeats(sts: seq<Status>, visits: seq<Visit>)
    requires |sts| == |visits| + 1
    requires forall i :: 0 <= i < |visits| ==> AnswersAsReboot(sts[i], visits[i])
    ensures Repeats(sts, visits) == 0
  {
    hide NodeRebootAnswer;
    if visits != [] {
      var k := |visits| - 1;
      NoRepeats(sts[..k + 1], visits[..k]);
      var v := visits[k];
      if v.env.apply.Reported? {
        var requestOK: bool, bootKnown: bool, booted: bool :|
          v.env.apply.event == NodeRebootAnswer(sts[k].journal, requestOK, bootKnown, booted);
        NodeRebootNeverRepeats(sts[k], v.env, requestOK, bootKnown, booted);
      }
    }
  }

  // ----- the stall itself -----

  const SPIN_JOURNAL := [
    Entry(LeaseAcquired, 1, 0), Entry(SnapshotTaken, 1, 0), Entry(Quiesced, 1, 0), Entry(ApplyStarted, 1, 0),
    Entry(RebootRequested, 1, 0), Entry(RebootObserved, 1, 0)]

  const SPIN_SPEC := Spec("op", NodeReboot, "n", [])

  function Answer(e: Event): Inputs {
    Inputs(LeaseServed, true, NodeMissing, true, Reported(Some(e), false), NotApplicable, Graded,
           Reported(None, false), true, true)
  }

  function SpinStatus(i: nat): Status {
    Status(if i % 2 == 0 then WaitingForReboot else Applying, 1, "op", 1200 + i + LEASE_DURATION, SPIN_JOURNAL,
           Some(Snapshot(map[], "")), "", 0, 0)
  }

  function SpinVisit(i: nat): Visit {
    Visit(map[], map[], 1201 + i, Answer(if i % 2 == 0 then EvBootObserved else EvRebootRequired))
  }

  lemma SpinGood()
    ensures Good(SpinStatus(0), "op") && Dated(SpinStatus(0).journal, 1200) && PastDeadline(SpinStatus(0), 1200)
  {
    hide AtEpoch, FirstAt, WellKept, Recorded;
    SpinFirst();
    SpinEpoch();
    SpinKept();
  }

  lemma SpinKept()
    ensures WellKept(SPIN_JOURNAL, 1)
  {
    var j := SPIN_JOURNAL;
    assert forall i :: 0 <= i < |j| ==> j[i].epoch == 1 && (j[i].step == LeaseAcquired ==> i == 0);
    assert Recorded(SPIN_JOURNAL, LeaseAcquired, 1) by { assert SPIN_JOURNAL[0].step == LeaseAcquired; }
  }

  lemma SpinFirst()
    ensures FirstAt(SPIN_JOURNAL, ApplyStarted) == Some(0)
  {
    var j := SPIN_JOURNAL;
    assert FirstAt(j[3..], ApplyStarted) == Some(0);
    assert j[2..][1..] == j[3..] && j[1..][1..] == j[2..];
    assert FirstAt(j[2..], ApplyStarted) == Some(0);
    assert FirstAt(j[1..], ApplyStarted) == Some(0);
  }

  lemma SpinEpoch()
    ensures STARTED <= AtEpoch(SPIN_JOURNAL, 1)
  {
    var j := SPIN_JOURNAL;
    assert j[..5][..4] == j[..4] && j[..4][..3] == j[..3] && j[..3][..2] == j[..2] && j[..2][..1] == j[..1] && j[..1][..0] == [];
    assert AtEpoch(j[..1], 1) == [LeaseAcquired];
    assert AtEpoch(j[..2], 1) == [LeaseAcquired, SnapshotTaken];
    assert AtEpoch(j[..3], 1) == QUIESCED;
    assert AtEpoch(j[..4], 1) == STARTED;
    assert AtEpoch(j[..5], 1) == STARTED + [RebootRequested];
  }

  lemma SpinPass(i: nat)
    ensures var v := SpinVisit(i);
            var p := Reconcile(v.ops, SPIN_SPEC, SpinStatus(i), v.leases, v.now, v.env);
            p.wrote && p.st == SpinStatus(i + 1) && LeaseObtained(SPIN_SPEC, v.leases, v.now, v.env)
    ensures SteadyPass(SPIN_SPEC, SpinStatus(i), SpinStatus(i + 1), 1200 + i, SpinVisit(i))
  {
    hide FirstAt, LastAt, HasStep, AtEpoch, Step, Append, Recorded;
    var v := SpinVisit(i);
    var st := SpinStatus(i).(leaseExpiry := v.now + LEASE_DURATION);
    SpinStep(i);
    assert AcquireTable(v.leases, "n", "op", v.now, v.env.lease) == map["n" := Lease("op", v.now)];
    assert Reconcile(v.ops, SPIN_SPEC, SpinStatus(i), v.leases, v.now, v.env)
        == Finish(SpinStatus(i), SPIN_SPEC, Step(v.ops, SPIN_SPEC, st, map["n" := Lease("op", v.now)], v.now, v.env), v.env);
  }

  lemma SpinStep(i: nat)
    ensures var v := SpinVisit(i);
            var table := map["n" := Lease("op", v.now)];
            var st := SpinStatus(i).(leaseExpiry := v.now + LEASE_DURATION);
            Step(v.ops, SPIN_SPEC, st, table, v.now, v.env) == Stepped(st, Some(SpinStatus(i + 1).phase), table, true)
  {
    hide FirstAt, LastAt, HasStep, AtEpoch;
    assert SPIN_JOURNAL[4].step == RebootRequested && SPIN_JOURNAL[5].step == RebootObserved;
    assert Recorded(SPIN_JOURNAL, RebootRequested, 1) && Recorded(SPIN_JOURNAL, RebootObserved, 1);
  }

  /** A participant that keeps alternating "reboot required" and "boot observed" keeps its operation away from
      every end for as many passes as it likes, past the deadline and without losing its lease. */
  lemma RepeatedBootsNeverEnd(n: nat)
    ensures exists sts: seq<Status>, visits: seq<Visit> ::
              SteadyRun(SPIN_SPEC, sts, visits, 1200) && |visits| == n && !Terminal(sts[n].phase)
  {
    hide SteadyPass, Good, PastDeadline, Dated, SpinVisit, SpinStatus;
    var sts := seq(n + 1, i requires 0 <= i => SpinStatus(i));
    var visits := seq(n, i requires 0 <= i => SpinVisit(i));
    SpinGood();
    forall i | 0 <= i < n
      ensures SteadyPass(SPIN_SPEC, sts[i], sts[i + 1], LastTime(visits[..i], 1200), visits[i])
    {
      SpinPass(i);
      SpinTime(i);
      SpinLastTime(visits, i);
    }
    assert SteadyRun(SPIN_SPEC, sts, visits, 1200);
    SpinUnfinished(n);
  }

  lemma SpinLastTime(visits: seq<Visit>, i: nat)
    requires i < |visits| && forall k :: 0 <= k < |visits| ==> visits[k] == SpinVisit(k)
    ensures LastTime(visits[..i], 1200) == 1200 + i
  {
    if i > 0 {
      assert visits[..i][i - 1] == SpinVisit(i - 1);
    }
  }

  lemma SpinUnfinished(i: nat)
    ensures !Terminal(SpinStatus(i).phase)
  {
  }

  lemma SpinTime(i: nat)
    ensures SpinVisit(i).now == 1201 + i && (i > 0 ==> SpinVisit(i - 1).now == 1200 + i)
  {
  }
}
