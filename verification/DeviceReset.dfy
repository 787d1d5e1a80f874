/** The device-reset participant (internal/controller/devicereset_participant.go): how often it can reset a device
    over the life of its operation. */
module DeviceReset {
  import opened Journal
  import opened Conflict
  import opened Coordinator
  import opened OperationInvariant
  import opened OperationReconciler
  import opened Termination
  import opened Outcomes

  // ----- one call -----

  datatype JobState = Absent | Active | Completed | Broken

  datatype Gate = GateError | GateRefuses | GatePasses

  /** lookupOK: the Job could be read; stale: the read did not see a Job that exists. */
  datatype Api = Api(lookupOK: bool, stale: bool, createOK: bool)

  datatype Out = Out(reply: ParticipantReply, job: JobState, created: bool)

  /** One Apply. A Job that is gone although the journal says it was requested is not made again. */
  function ResetApply(j: seq<Entry>, job: JobState, gate: Gate, api: Api): Out {
    match gate
    case GateError => Out(ParticipantError, job, false)
    case GateRefuses => Out(Reported(Some(EvApplyFailed), false), job, false)
    case GatePasses =>
      if !api.lookupOK then Out(ParticipantError, job, false)
      else if job == Absent || api.stale then
        if HasStep(j, DeviceResetRequested) then Out(Reported(Some(EvApplyFailed), false), job, false)
        else if job != Absent then Out(Reported(None, true), job, false)
        else if !api.createOK then Out(ParticipantError, job, false)
        else Out(Reported(None, true), Active, true)
      else match job
        case Completed => Out(Reported(Some(EvApplyDone), false), job, false)
        case Broken => Out(Reported(Some(EvApplyFailed), false), job, false)
        case _ => Out(Reported(None, false), job, false)
  }

  predicate ReportsDone(r: ParticipantReply) {
    r.Reported? && r.event == Some(EvApplyDone)
  }

  predicate ReportsFailed(r: ParticipantReply) {
    r.Reported? && r.event == Some(EvApplyFailed)
  }

  /** The gates let the call through to a Job that is there and was seen. */
  predicate SeesJob(gate: Gate, api: Api, job: JobState) {
    gate == GatePasses && api.lookupOK && !api.stale && job != Absent
  }

  /** The gates let the call through, and no Job was seen. */
  predicate MissesJob(gate: Gate, api: Api, job: JobState) {
    gate == GatePasses && api.lookupOK && (api.stale || job == Absent)
  }

  /** Done means that the Job completed; failed, that the call was refused, the Job failed, or it is gone although it was
      asked for. Neither answer makes a Job. */
  lemma ResetReports(j: seq<Entry>, job: JobState, gate: Gate, api: Api)
    ensures var o := ResetApply(j, job, gate, api);
            && (ReportsDone(o.reply) <==> SeesJob(gate, api, job) && job == Completed)
            && (ReportsFailed(o.reply) <==>
                  || gate == GateRefuses
                  || (SeesJob(gate, api, job) && job == Broken)
                  || (MissesJob(gate, api, job) && HasStep(j, DeviceResetRequested)))
            && (ReportsDone(o.reply) || ReportsFailed(o.reply) ==> !o.created && o.job == job)
            && (o.reply.Reported? && !ReportsDone(o.reply) && !ReportsFailed(o.reply) ==> o.reply.event == None)
            && (o.reply == ParticipantError <==>
                  || gate == GateError || (gate == GatePasses && !api.lookupOK)
                  || (MissesJob(gate, api, job) && job == Absent && !HasStep(j, DeviceResetRequested) && !api.createOK))
            && (o.created <==> MissesJob(gate, api, job) && job == Absent && !HasStep(j, DeviceResetRequested) && api.createOK)
            && (o.created ==> o.job == Active && o.reply == Reported(None, true))
  {
    hide HasStep;
  }

  class ResetParticipant {
    var job: JobState

    constructor ()
      ensures job == Absent
    {
      job := Absent;
    }

    method AttemptsFrom(j: seq<Entry>) returns (n: nat)
      ensures n > 0 <==> HasStep(j, DeviceResetRequested)
    {
      n := 0;
      for i := 0 to |j|
        invariant n > 0 <==> exists k :: 0 <= k < i && j[k].step == DeviceResetRequested
      {
        if j[i].step == DeviceResetRequested {
          n := n + 1;
        }
      }
    }

    method Apply(op: LiveOperation, gate: Gate, api: Api, now: nat) returns (reply: ParticipantReply, created: bool)
      modifies this, op`journal
      ensures ReportsDone(reply) <==> SeesJob(gate, api, old(job)) && old(job) == Completed
      ensures ReportsFailed(reply) <==>
                || gate == GateRefuses
                || (SeesJob(gate, api, old(job)) && old(job) == Broken)
                || (MissesJob(gate, api, old(job)) && HasStep(old(op.journal), DeviceResetRequested))
      ensures created <==> MissesJob(gate, api, old(job)) && old(job) == Absent && api.createOK && !HasStep(old(op.journal), DeviceResetRequested)
      ensures if created then job == Active else job == old(job)
      ensures var o := ResetApply(old(op.journal), old(job), gate, api);
              && reply == o.reply && job == o.job && created == o.created
              && op.Value() == if reply.Reported? && reply.logsReset then Log(old(op.Value()), DeviceResetRequested, now)
                               else old(op.Value())
    {
      created := false;
      match gate {
        case GateError => return ParticipantError, false;
        case GateRefuses => return Reported(Some(EvApplyFailed), false), false;
        case GatePasses =>
      }
      if !api.lookupOK {
        return ParticipantError, false;
      }
      if job == Absent || api.stale {
        var attempts := AttemptsFrom(op.journal);
        if attempts >= 1 {
          return Reported(Some(EvApplyFailed), false), false;
        }
        if job == Absent {
          if !api.createOK {
            return ParticipantError, false;
          }
          job := Active;
          created := true;
        }
        op.Record(DeviceResetRequested, now);
        return Reported(None, true), created;
      }
      if job == Completed {
        return Reported(Some(EvApplyDone), false), false;
      }
      if job == Broken {
        return Reported(Some(EvApplyFailed), false), false;
      }
      return Reported(None, false), false;
    }
  }

  // ----- the life of an operation -----

  /** created: reset Jobs made so far; lost: passes that made one and whose status write did not persist. */
  datatype World = World(st: Status, job: JobState, created: nat, lost: nat)

  datatype Move =
    | PassOf(ops: map<string, Operation>, leases: map<string, Lease>, now: nat, env: Inputs, gate: Gate, api: Api)
    | JobIs(job: JobState)

  predicate CallsApply(st: Status, p: Pass) {
    (st.phase == Applying || st.phase == WaitingForReboot) && p.callTable.Some?
  }

  ghost function Next(spec: Spec, w: World, m: Move): World {
    match m
    case JobIs(job) => if w.job == Absent then w else w.(job := job)    // it runs, ends or expires
    case PassOf(ops, leases, now, env, gate, api) =>
      var o := ResetApply(w.st.journal, w.job, gate, api);
      var p := Reconcile(ops, spec, w.st, leases, now, env.(apply := o.reply));
      if CallsApply(w.st, p) then
        World(p.st, o.job, w.created + (if o.created then 1 else 0), w.lost + if o.created && !p.wrote then 1 else 0)
      else w.(st := p.st)
  }

  ghost function Run(spec: Spec, w: World, moves: seq<Move>): World {
    if moves == [] then w else Next(spec, Run(spec, w, moves[..|moves| - 1]), moves[|moves| - 1])
  }

  const START := World(FRESH, Absent, 0, 0)

  /** Every Job but the lost ones is on record, and at most one is. */
  ghost predicate Accounted(w: World, name: string) {
    Good(w.st, name) && w.created <= w.lost + if HasStep(w.st.journal, DeviceResetRequested) then 1 else 0
  }

  lemma HasStepGrows(a: seq<Entry>, b: seq<Entry>, step: StepName)
    requires a <= b && HasStep(a, step)
    ensures HasStep(b, step)
  {
    var i :| 0 <= i < |a| && a[i].step == step;
    assert b[i] == a[i];
  }

  lemma LoggedHasStep(st: Status, now: nat)
    ensures HasStep(Log(st, DeviceResetRequested, now).journal, DeviceResetRequested)
  {
    var j := Log(st, DeviceResetRequested, now).journal;
    if Recorded(st.journal, DeviceResetRequested, st.epoch) {
    } else {
      assert j[|st.journal|].step == DeviceResetRequested;
    }
  }

  /** A reset the participant reports reaches the stored journal when the pass persists. */
  lemma ReportedIsStored(ops: map<string, Operation>, spec: Spec, st: Status, leases: map<string, Lease>, now: nat, env: Inputs)
    requires Good(st, spec.name) && (st.phase == Applying || st.phase == WaitingForReboot)
    requires env.apply == Reported(None, true)
    requires Reconcile(ops, spec, st, leases, now, env).callTable.Some?
    ensures var p := Reconcile(ops, spec, st, leases, now, env);
            if p.wrote then HasStep(p.st.journal, DeviceResetRequested) else p.st == st
  {
    hide WellKept, AtEpoch, Append, FirstAt, LastAt, WriteAhead, HasStep;
    LoggedHasStep(st.(leaseExpiry := now + LEASE_DURATION), now);
    assert st.leaseHolder == spec.name;
  }

  lemma NextAccounted(spec: Spec, w: World, m: Move)
    requires Accounted(w, spec.name)
    ensures Accounted(Next(spec, w, m), spec.name)
  {
    hide Good, Reconcile, HasStep;
    if m.PassOf? {
      var o := ResetApply(w.st.journal, w.job, m.gate, m.api);
      var env := m.env.(apply := o.reply);
      var p := Reconcile(m.ops, spec, w.st, m.leases, m.now, env);
      ReconcileKeeps(m.ops, spec, w.st, m.leases, m.now, env);
      if HasStep(w.st.journal, DeviceResetRequested) {
        HasStepGrows(w.st.journal, p.st.journal, DeviceResetRequested);
      }
      if CallsApply(w.st, p) && o.created {
        ReportedIsStored(m.ops, spec, w.st, m.leases, m.now, env);
      }
    }
  }

  lemma {:induction false} RunAccounted(spec: Spec, moves: seq<Move>)
    requires spec.name != ""
    ensures Accounted(Run(spec, START, moves), spec.name)
  {
    hide Next, Good;
    if moves == [] {
      assert Good(FRESH, spec.name) by { FreshIsGood(spec.name); }
    } else {
      RunAccounted(spec, moves[..|moves| - 1]);
      NextAccounted(spec, Run(spec, START, moves[..|moves| - 1]), moves[|moves| - 1]);
    }
  }

  lemma FreshIsGood(name: string)
    requires name != ""
    ensures Good(FRESH, name)
  {
  }

  /** Across any passes, lease losses, new epochs and Job expiry an operation makes at most one reset Job more than
      the number of creating passes whose status write was lost: exactly at most once when none was. */
  lemma ResetsAtMostOnce(spec: Spec, moves: seq<Move>)
    requires spec.name != ""
    ensures var w := Run(spec, START, moves); w.created <= 1 + w.lost && (w.lost == 0 ==> w.created <= 1)
  {
    RunAccounted(spec, moves);
  }

  // ----- what the end of an apply rests on -----

  /** The pass found the reset Job completed, or found the reset failed while every device showed the target. */
  ghost predicate Finishes(w: World, m: Move) {
    && m.PassOf? && Applies(w.st.phase)
    && (|| (SeesJob(m.gate, m.api, w.job) && w.job == Completed)
        || (ShowsTarget(m.env.verifyRequest)
            && (|| m.gate == GateRefuses
                || (SeesJob(m.gate, m.api, w.job) && w.job == Broken)
                || (MissesJob(m.gate, m.api, w.job) && HasStep(w.st.journal, DeviceResetRequested)))))
  }

  lemma NextFinishes(spec: Spec, w: World, m: Move)
    requires Good(w.st, spec.name) && !HasStep(w.st.journal, ApplyFinished) && HasStep(Next(spec, w, m).st.journal, ApplyFinished)
    ensures Finishes(w, m)
  {
    hide Good, Reconcile, HasStep, ShowsTarget, Obtains, ResetApply, SeesJob, MissesJob;
    if m.PassOf? {
      var o := ResetApply(w.st.journal, w.job, m.gate, m.api);
      FinishedOnlyVerifying(m.ops, spec, w.st, m.leases, m.now, m.env.(apply := o.reply));
      ResetReports(w.st.journal, w.job, m.gate, m.api);
    }
  }

  /** Over the whole life of an operation the end of its apply is on record only if some pass found the reset Job completed,
      or found the reset failed and yet every device at the target. */
  lemma {:induction false} FinishIsEarned(spec: Spec, moves: seq<Move>)
    requires spec.name != "" && HasStep(Run(spec, START, moves).st.journal, ApplyFinished)
    ensures exists k :: 0 <= k < |moves| && Finishes(Run(spec, START, moves[..k]), moves[k])
  {
    hide Next, HasStep, Good, Finishes;
    if moves == [] {
      NothingYet();
    } else {
      var j := |moves| - 1;
      var w := Run(spec, START, moves[..j]);
      if HasStep(w.st.journal, ApplyFinished) {
        FinishIsEarned(spec, moves[..j]);
        var k :| 0 <= k < j && Finishes(Run(spec, START, moves[..j][..k]), moves[..j][k]);
        assert moves[..j][..k] == moves[..k];
      } else {
        RunAccounted(spec, moves[..j]);
        NextFinishes(spec, w, moves[j]);
      }
    }
  }

  lemma NothingYet()
    ensures !HasStep(FRESH.journal, ApplyFinished)
  {
  }

  // ----- exactly when a reset can still come -----

  /** A continuation from instant start on: its clock never goes back. */
  predicate Forward(moves: seq<Move>, start: nat) {
    && (forall i :: 0 <= i < |moves| && moves[i].PassOf? ==> start <= moves[i].now)
    && (forall i, k :: 0 <= i < k < |moves| && moves[i].PassOf? && moves[k].PassOf? ==> moves[i].now <= moves[k].now)
  }

  /** Some continuation from that instant on makes a reset Job. */
  ghost predicate CanReset(spec: Spec, w: World, start: nat) {
    exists moves :: Forward(moves, start) && Run(spec, w, moves).created != w.created
  }

  /** The continuations below need no time at all. */
  predicate AllAt(moves: seq<Move>, start: nat) {
    forall i :: 0 <= i < |moves| && moves[i].PassOf? ==> moves[i].now == start
  }

  lemma {:induction false} RunFirst(spec: Spec, w: World, m: Move, rest: seq<Move>)
    ensures Run(spec, w, [m] + rest) == Run(spec, Next(spec, w, m), rest)
  {
    hide Next;
    var moves := [m] + rest;
    if rest == [] {
      assert moves[..0] == [] && Run(spec, w, moves[..0]) == w;
    } else {
      var k := |rest| - 1;
      RunFirst(spec, w, m, rest[..k]);
      assert moves[..k + 1] == [m] + rest[..k];
    }
  }

  /** No reset can follow an end or a reset on record. */
  ghost predicate Spent(w: World, name: string) {
    Good(w.st, name) && (Terminal(w.st.phase) || HasStep(w.st.journal, DeviceResetRequested))
  }

  lemma NextSpent(spec: Spec, w: World, m: Move)
    requires Spent(w, spec.name)
    ensures Spent(Next(spec, w, m), spec.name) && Next(spec, w, m).created == w.created
  {
    hide Good, HasStep, Step;
    if m.PassOf? {
      var o := ResetApply(w.st.journal, w.job, m.gate, m.api);
      var env := m.env.(apply := o.reply);
      var p := Reconcile(m.ops, spec, w.st, m.leases, m.now, env);
      ReconcileKeeps(m.ops, spec, w.st, m.leases, m.now, env);
      if HasStep(w.st.journal, DeviceResetRequested) {
        HasStepGrows(w.st.journal, p.st.journal, DeviceResetRequested);
      }
    }
  }

  lemma {:induction false} RunSpent(spec: Spec, w: World, moves: seq<Move>)
    requires Spent(w, spec.name)
    ensures Spent(Run(spec, w, moves), spec.name) && Run(spec, w, moves).created == w.created
  {
    hide Next, Spent;
    if moves != [] {
      RunSpent(spec, w, moves[..|moves| - 1]);
      NextSpent(spec, Run(spec, w, moves[..|moves| - 1]), moves[|moves| - 1]);
    }
  }

  /** Nothing is on record, and there is no Job. */
  ghost predicate Unspent(w: World, name: string) {
    && Good(w.st, name) && !Terminal(w.st.phase) && w.job == Absent
    && !HasStep(w.st.journal, DeviceResetRequested)
  }

  function Visit(leases: map<string, Lease>, now: nat, writeOK: bool): Move {
    PassOf(map[], leases, now,
           Inputs(LeaseServed, true, NodeFound(Snapshot(map[], "")), true, ParticipantError, NotApplicable, Graded,
                  Reported(None, false), true, writeOK),
           GatePasses, Api(true, false, true))
  }

  function Calm(now: nat): Move {
    Visit(map[], now, true)
  }

  /** Another holder has the node. */
  function Robbed(spec: Spec, now: nat): Move {
    Visit(map[spec.node := Lease(spec.name + "'", now)], now, true)
  }

  predicate Applies(p: Phase) {
    p == Applying || p == WaitingForReboot
  }

  /** How many undisturbed passes an operation is from applying. */
  function Distance(p: Phase): nat {
    match p
    case Applying => 0
    case WaitingForReboot => 0
    case Quiescing => 1
    case Prepared => 2
    case Planning => 3
    case _ => 4
  }

  /** A move that brings the operation closer to applying without a reset. */
  function Closer(spec: Spec, w: World, now: nat): Move {
    if w.st.phase == Verifying || w.st.phase == RollingBack then Robbed(spec, now) else Calm(now)
  }

  /** The phase a pass of its closer move stores, while nothing else happens. */
  function PhaseAfter(p: Phase): Phase {
    match p
    case Quiescing => Applying
    case Prepared => Quiescing
    case Planning => Prepared
    case _ => Planning
  }

  predicate StoresCloser(a: Status, b: Status) {
    b.phase == PhaseAfter(a.phase)
    && (HasStep(b.journal, DeviceResetRequested) ==> HasStep(a.journal, DeviceResetRequested))
  }

  lemma AdmitsCalmly(spec: Spec, st: Status, now: nat, env: Inputs)
    requires HolderMatches(st, spec.name) && spec.name != "" && env == Calm(now).env.(apply := env.apply)
    requires st.phase == Unset || st.phase == Pending || st.phase == Blocked
    ensures StoresCloser(st, Reconcile(map[], spec, st, map[], now, env).st)
  {
    hide HasStep, Append, LeastName, Blocks;
    LogsNoReset(now);
    assert Blockers(map[], spec) == {};
  }

  lemma PlansCalmly(spec: Spec, st: Status, now: nat, env: Inputs)
    requires HolderMatches(st, spec.name) && spec.name != "" && env == Calm(now).env.(apply := env.apply)
    requires st.phase == Planning || st.phase == Prepared || st.phase == Quiescing
    ensures StoresCloser(st, Reconcile(map[], spec, st, map[], now, env).st)
  {
    hide HasStep, Append, StepApply, StepVerify, StepRollback, StepAdmit;
    LogsNoReset(now);
  }

  lemma LosesLease(spec: Spec, st: Status, now: nat, env: Inputs)
    requires HolderMatches(st, spec.name) && env == Calm(now).env.(apply := env.apply)
    requires st.phase == Verifying || st.phase == RollingBack
    ensures StoresCloser(st, Reconcile(map[], spec, st, Robbed(spec, now).leases, now, env).st)
  {
    hide Step;
    assert |spec.name + "'"| == |spec.name| + 1;
  }

  lemma ComesCloser(spec: Spec, w: World, now: nat)
    requires Unspent(w, spec.name) && !Applies(w.st.phase)
    ensures var w' := Next(spec, w, Closer(spec, w, now));
            && Unspent(w', spec.name) && Distance(w'.st.phase) < Distance(w.st.phase)
            && w'.created == w.created && w'.lost == w.lost
  {
    hide Good, HasStep, Reconcile;
    assert HolderMatches(w.st, spec.name) && spec.name != "" by { GoodHolds(w.st, spec.name); }
    var m := Closer(spec, w, now);
    var env := m.env.(apply := ResetApply(w.st.journal, w.job, m.gate, m.api).reply);
    ReconcileKeeps(m.ops, spec, w.st, m.leases, m.now, env);
    match w.st.phase {
      case Verifying => LosesLease(spec, w.st, now, env);
      case RollingBack => LosesLease(spec, w.st, now, env);
      case Planning => PlansCalmly(spec, w.st, now, env);
      case Prepared => PlansCalmly(spec, w.st, now, env);
      case Quiescing => PlansCalmly(spec, w.st, now, env);
      case _ => AdmitsCalmly(spec, w.st, now, env);
    }
  }

  lemma LogsNoReset(now: nat)
    ensures forall st: Status, step: StepName :: step != DeviceResetRequested ==>
              HasStep(Log(st, step, now).journal, DeviceResetRequested) == HasStep(st.journal, DeviceResetRequested)
  {
    hide Log, HasStep;
    forall st: Status, step: StepName | step != DeviceResetRequested
      ensures HasStep(Log(st, step, now).journal, DeviceResetRequested) == HasStep(st.journal, DeviceResetRequested)
    {
      HasStepLog(st, step, now, DeviceResetRequested);
    }
  }

  /** An applying operation with nothing on record resets the device, whether or not the pass persists. */
  lemma VisitCreates(spec: Spec, w: World, now: nat, writeOK: bool)
    requires Unspent(w, spec.name) && Applies(w.st.phase)
    ensures var w' := Next(spec, w, Visit(map[], now, writeOK));
            && w'.job == Active && w'.created == w.created + 1
            && w'.lost == w.lost + (if writeOK then 0 else 1) && (!writeOK ==> w'.st == w.st)
  {
    hide Good, HasStep, Append, FirstAt;
    assert HolderMatches(w.st, spec.name) by { GoodHolds(w.st, spec.name); }
  }

  lemma UnspentCanReset(spec: Spec, w: World, now: nat) returns (moves: seq<Move>)
    requires Unspent(w, spec.name)
    ensures AllAt(moves, now) && Run(spec, w, moves).created != w.created
  {
    hide Next, Unspent, Run;
    var v;
    moves, v := ReachApplying(spec, w, now);
    VisitCreates(spec, v, now, true);
    RunThen(spec, w, moves, Calm(now));
    moves := moves + [Calm(now)];
  }

  /** In whatever state an operation is, and whenever, some run of passes, lease losses and Job expiry from then on makes
      another reset Job if and only if the operation has not ended and no reset is on its record. */
  lemma ResetPossibleIff(spec: Spec, w: World, start: nat)
    requires Good(w.st, spec.name)
    ensures CanReset(spec, w, start) <==> !Terminal(w.st.phase) && !HasStep(w.st.journal, DeviceResetRequested)
  {
    hide Next, Run, HasStep, Good;
    if !Terminal(w.st.phase) && !HasStep(w.st.journal, DeviceResetRequested) {
      var gone := Next(spec, w, JobIs(Absent));
      Expires(spec, w);
      var rest := UnspentCanReset(spec, gone, start);
      RunFirst(spec, w, JobIs(Absent), rest);
      assert Forward([JobIs(Absent)] + rest, start);
    } else {
      forall moves ensures Run(spec, w, moves).created == w.created {
        RunSpent(spec, w, moves);
      }
    }
  }

  lemma Expires(spec: Spec, w: World)
    ensures Next(spec, w, JobIs(Absent)) == w.(job := Absent)
  {
  }

  /** It happens, at any instant, to every operation whose creating pass loses its write and whose Job then expires. */
  lemma LostWriteResetsTwice(spec: Spec, start: nat)
    requires spec.name != ""
    ensures exists moves :: var w := Run(spec, START, moves); Forward(moves, start) && w.created == 2 && w.lost == 1
  {
    hide Next, Run, Unspent;
    assert Unspent(START, spec.name) by { FreshIsUnspent(spec.name); }
    var moves, w := ReachApplying(spec, START, start);
    var lost := Visit(map[], start, false);
    VisitCreates(spec, w, start, false);
    var w1 := Next(spec, w, lost);
    Expires(spec, w1);
    var w2 := w1.(job := Absent);
    assert Unspent(w2, spec.name) by { StillUnspent(w, w2, spec.name); }
    VisitCreates(spec, w2, start, true);
    RunThen(spec, START, moves, lost);
    RunThen(spec, START, moves + [lost], JobIs(Absent));
    RunThen(spec, START, moves + [lost] + [JobIs(Absent)], Calm(start));
    assert Forward(moves + [lost] + [JobIs(Absent)] + [Calm(start)], start);
  }

  lemma FreshIsUnspent(name: string)
    requires name != ""
    ensures Unspent(START, name)
  {
    FreshIsGood(name);
  }

  lemma StillUnspent(a: World, b: World, name: string)
    requires Unspent(a, name) && b.st == a.st && b.job == Absent
    ensures Unspent(b, name)
  {
  }

  lemma {:induction false} ReachApplying(spec: Spec, w: World, now: nat) returns (moves: seq<Move>, w': World)
    requires Unspent(w, spec.name)
    ensures w' == Run(spec, w, moves) && Unspent(w', spec.name) && Applies(w'.st.phase)
    ensures w'.created == w.created && w'.lost == w.lost && AllAt(moves, now)
    decreases Distance(w.st.phase)
  {
    hide Next, Unspent, Run;
    if Applies(w.st.phase) {
      moves, w' := [], w;
      assert Run(spec, w, []) == w by { RunNothing(spec, w); }
    } else {
      ComesCloser(spec, w, now);
      var rest;
      rest, w' := ReachApplying(spec, Next(spec, w, Closer(spec, w, now)), now);
      RunFirst(spec, w, Closer(spec, w, now), rest);
      moves := [Closer(spec, w, now)] + rest;
    }
  }

  lemma RunNothing(spec: Spec, w: World)
    ensures Run(spec, w, []) == w
  {
  }

  lemma RunThen(spec: Spec, w: World, moves: seq<Move>, m: Move)
    ensures Run(spec, w, moves + [m]) == Next(spec, Run(spec, w, moves), m)
  {
    hide Next;
    assert (moves + [m])[..|moves|] == moves;
  }
}
