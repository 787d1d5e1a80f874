/** Runs of any number of operations and delegated policy deletions over one lease table. */
module CoordinatorRuns {
  import opened Journal
  import opened Conflict
  import opened Coordinator
  import opened OperationInvariant

  /** What the outside can see: somebody acted on a node, or gave the node's lease back. */
  datatype Mark = Acted(holder: string, node: string, at: nat) | Released(holder: string, node: string)

  datatype Sys = Sys(ops: map<string, Operation>, leases: map<string, Lease>, now: nat, trace: seq<Mark>)

  datatype Action =
    | Create(spec: Spec)
    | Remove(name: string)
    | Visit(name: string, dt: nat, env: Inputs)
    | DeletionVisit(policy: string, node: string, dt: nat, reply: LeaseReply)
    | DeletionDone(policy: string, node: string, dt: nat)

  const EMPTY := Sys(map[], map[], 0, [])

  /** The lease identity of a policy deletion (deletionLeaseHolder). */
  function DeletionHolder(policy: string): string {
    "acpp-delete-" + policy
  }

  function MarksOf(p: Pass, spec: Spec, now: nat): seq<Mark> {
    (if p.callTable.Some? then [Acted(spec.name, spec.node, now)] else [])
    + (if p.released then [Released(spec.name, spec.node)] else [])
  }

  ghost function Next(s: Sys, a: Action): Sys {
    match a
    case Create(spec) =>
      if spec.name == "" || spec.name in s.ops then s
      else s.(ops := s.ops[spec.name := Operation(spec, FRESH)])
    case Remove(name) => s.(ops := s.ops - {name})
    case Visit(name, dt, env) =>
      if name !in s.ops then s
      else
        var now := s.now + dt;
        var op := s.ops[name];
        var p := Reconcile(s.ops, op.spec, op.st, s.leases, now, env);
        Sys(s.ops[name := Operation(op.spec, p.st)], p.leases, now, s.trace + MarksOf(p, op.spec, now))
    case DeletionVisit(policy, node, dt, reply) =>
      var now := s.now + dt;
      var holder := DeletionHolder(policy);
      Sys(s.ops, AcquireTable(s.leases, node, holder, now, reply), now,
          s.trace + if AcquireResult(s.leases, node, holder, now, reply).LeaseGranted? then [Acted(holder, node, now)] else [])
    case DeletionDone(policy, node, dt) =>
      var holder := DeletionHolder(policy);
      Sys(s.ops, ReleaseTable(s.leases, node, holder), s.now + dt, s.trace + [Released(holder, node)])
  }

  ghost function Run(actions: seq<Action>): Sys {
    if actions == [] then EMPTY
    else Next(Run(actions[..|actions| - 1]), actions[|actions| - 1])
  }

  // ----- stored operations -----

  ghost predicate AllGood(s: Sys) {
    forall n :: n in s.ops ==> s.ops[n].spec.name == n && Good(s.ops[n].st, n) && Dated(s.ops[n].st.journal, s.now)
  }

  lemma NextGood(s: Sys, a: Action)
    requires AllGood(s)
    ensures AllGood(Next(s, a))
  {
    hide Good, Reconcile;
    var s' := Next(s, a);
    match a
    case Create(spec) =>
      FreshGood(spec.name);
    case Visit(name, dt, env) =>
      if name in s.ops {
        var op := s.ops[name];
        ReconcileKeeps(s.ops, op.spec, op.st, s.leases, s.now + dt, env);
      }
    case _ =>
  }

  lemma FreshGood(name: string)
    ensures name != "" ==> Good(FRESH, name)
  {
  }

  lemma {:induction false} RunGood(actions: seq<Action>)
    ensures AllGood(Run(actions))
  {
    if actions != [] {
      RunGood(actions[..|actions| - 1]);
      NextGood(Run(actions[..|actions| - 1]), actions[|actions| - 1]);
    }
  }

  /** Write-ahead journal: whatever ran before, an operation found applying or waiting for a reboot has its
      snapshot and, at its current epoch, the lease, the snapshot, the quiescing and the start of the apply
      journaled in that order; its journal has one line per step and epoch, epochs in order, and exactly one
      lease line for each epoch from 1 to the current one. */
  lemma WriteAheadInEveryRun(actions: seq<Action>, n: string)
    requires n in Run(actions).ops
    ensures var st := Run(actions).ops[n].st;
            && WellKept(st.journal, st.epoch)
            && (st.phase == Applying || st.phase == WaitingForReboot ==>
                  st.snapshot.Some? && STARTED <= AtEpoch(st.journal, st.epoch))
  {
    RunGood(actions);
  }

  /** Over the whole life of an operation, lease losses included, a rollback in progress has used at most
      two of its three attempts, and no operation ever counts more than three. */
  lemma RollbackAttemptsBounded(actions: seq<Action>, n: string)
    requires n in Run(actions).ops
    ensures var st := Run(actions).ops[n].st;
            && (st.phase == RollingBack ==> st.rollbackAttempts < MAX_ROLLBACK_ATTEMPTS)
            && st.rollbackAttempts <= MAX_ROLLBACK_ATTEMPTS
  {
    hide WellKept, AtEpoch;
    RunGood(actions);
  }

  lemma NextContinues(s: Sys, a: Action, n: string)
    requires AllGood(s) && n in s.ops && a != Remove(n)
    ensures n in Next(s, a).ops && Continues(s.ops[n].st, Next(s, a).ops[n].st)
  {
    hide Good, Reconcile;
    if a.Visit? && a.name == n {
      var op := s.ops[n];
      ReconcileKeeps(s.ops, op.spec, op.st, s.leases, s.now + a.dt, a.env);
    }
  }

  /** As long as the object is not removed, every later journal extends every earlier one. */
  lemma {:induction false} JournalsOnlyGrow(before: seq<Action>, after: seq<Action>, n: string)
    requires n in Run(before).ops && Remove(n) !in after
    ensures n in Run(before + after).ops
    ensures Continues(Run(before).ops[n].st, Run(before + after).ops[n].st)
  {
    if after == [] {
      assert before + after == before;
    } else {
      var k := |after| - 1;
      hide Good, Next, Run, AllGood;
      assert after[k] in after;
      JournalsOnlyGrow(before, after[..k], n);
      RunGood(before + after[..k]);
      NextContinues(Run(before + after[..k]), after[k], n);
      RunSplit(before, after);
    }
  }

  lemma RunSplit(before: seq<Action>, after: seq<Action>)
    requires after != []
    ensures Run(before + after) == Next(Run(before + after[..|after| - 1]), after[|after| - 1])
  {
    hide Next;
    assert (before + after)[..|before + after| - 1] == before + after[..|after| - 1];
  }

  // ----- conflict-free active set -----

  ghost predicate ConflictFree(ops: map<string, Operation>) {
    forall a, b :: a in ops && b in ops && a != b && Active(ops[a].st.phase) && Active(ops[b].st.phase)
               ==> !Blocks(ClaimOf(ops[a].spec), ClaimOf(ops[b].spec))
  }

  /** An operation becomes active only through an admission that found no blocker. */
  lemma ActivationIsAdmitted(ops: map<string, Operation>, spec: Spec, st: Status, leases: map<string, Lease>, now: nat, env: Inputs)
    requires Good(st, spec.name) && !Active(st.phase)
    ensures Active(Reconcile(ops, spec, st, leases, now, env).st.phase) ==> Blockers(ops, spec) == {}
  {
    hide WellKept, WriteAhead, Counted, Append;
  }

  lemma NextConflictFree(s: Sys, a: Action)
    requires AllGood(s) && ConflictFree(s.ops)
    ensures ConflictFree(Next(s, a).ops)
  {
    hide Good, Reconcile, Blocks;
    if a.Visit? && a.name in s.ops {
      var op := s.ops[a.name];
      var p := Reconcile(s.ops, op.spec, op.st, s.leases, s.now + a.dt, a.env);
      if !Active(op.st.phase) {
        ActivationIsAdmitted(s.ops, op.spec, op.st, s.leases, s.now + a.dt, a.env);
        if Active(p.st.phase) {
          forall b | b in s.ops && b != a.name && Active(s.ops[b].st.phase)
            ensures !Blocks(ClaimOf(s.ops[b].spec), ClaimOf(op.spec)) && !Blocks(ClaimOf(op.spec), ClaimOf(s.ops[b].spec))
          {
            BlocksSymmetric(ClaimOf(s.ops[b].spec), ClaimOf(op.spec));
            assert b !in Blockers(s.ops, op.spec);
          }
        }
      }
    }
  }

  /** In every reachable state no two active operations conflict, also after lease losses sent some of them
      back to planning; a blocked operation never took a lease, has no epoch and an empty journal. */
  lemma {:induction false} ActiveSetConflictFree(actions: seq<Action>)
    ensures ConflictFree(Run(actions).ops)
    ensures forall n :: n in Run(actions).ops && Run(actions).ops[n].st.phase == Blocked ==>
              var st := Run(actions).ops[n].st; st.leaseHolder == "" && st.epoch == 0 && st.journal == []
  {
    hide WellKept, AtEpoch;
    RunGood(actions);
    if actions != [] {
      var k := |actions| - 1;
      ActiveSetConflictFree(actions[..k]);
      RunGood(actions[..k]);
      NextConflictFree(Run(actions[..k]), actions[k]);
    }
  }

  /** In plain terms: no two active operations that change something name the same resource, or facets of the same PCI
      device, but for a partition change and the plugin restart that depends on it. */
  lemma ActiveShareNothing(actions: seq<Action>, a: string, b: string, x: string, y: string)
    requires var ops := Run(actions).ops;
             && a in ops && b in ops && a != b && Active(ops[a].st.phase) && Active(ops[b].st.phase)
             && !Harmless(ops[a].spec.typ) && !Harmless(ops[b].spec.typ)
             && {ops[a].spec.typ, ops[b].spec.typ} != {DevicePluginRestart, PartitionReconfigure}
             && x in ops[a].spec.keys && y in ops[b].spec.keys
    ensures x != y && (DeviceOf(x) == "" || DeviceOf(x) != DeviceOf(y))
  {
    hide Run, Blocks;
    ActiveSetConflictFree(actions);
    var ops := Run(actions).ops;
    BlocksIff(ClaimOf(ops[a].spec), ClaimOf(ops[b].spec));
  }

  // ----- exclusion -----

  ghost predicate ReleasedAfter(trace: seq<Mark>, i: nat, holder: string, node: string) {
    exists k :: i < k < |trace| && trace[k] == Released(holder, node)
  }

  /** The lease table remembers everyone who acted under a lease that can still be running. */
  ghost predicate Remembers(trace: seq<Mark>, leases: map<string, Lease>, now: nat) {
    forall i :: 0 <= i < |trace| && trace[i].Acted? ==>
      var m := trace[i];
      && m.at <= now
      && (now < m.at + LEASE_DURATION && !ReleasedAfter(trace, i, m.holder, m.node) ==>
            m.node in leases && leases[m.node].holder == m.holder && leases[m.node].renewed >= m.at)
  }

  ghost predicate Exclusive(trace: seq<Mark>) {
    forall i, j | 0 <= i < j < |trace| && trace[i].Acted? && trace[j].Acted?
                  && trace[i].node == trace[j].node && trace[i].holder != trace[j].holder ::
      || trace[j].at >= trace[i].at + LEASE_DURATION
      || ReleasedBetween(trace, i, j, trace[i].holder, trace[i].node)
  }

  ghost predicate ReleasedBetween(trace: seq<Mark>, i: nat, j: nat, holder: string, node: string) {
    exists k :: i < k < j && k < |trace| && trace[k] == Released(holder, node)
  }

  lemma AcquireRemembers(trace: seq<Mark>, leases: map<string, Lease>, now: nat, node: string, holder: string, now': nat, reply: LeaseReply)
    requires Remembers(trace, leases, now) && now <= now'
    ensures Remembers(trace, AcquireTable(leases, node, holder, now', reply), now')
  {
  }

  lemma ReleaseRemembers(trace: seq<Mark>, leases: map<string, Lease>, now: nat, node: string, holder: string)
    requires Remembers(trace, leases, now)
    ensures Remembers(trace + [Released(holder, node)], ReleaseTable(leases, node, holder), now)
  {
    var t := trace + [Released(holder, node)];
    assert t[|trace|] == Released(holder, node);
    ExtendAfter(trace, Released(holder, node));
    assert forall i: nat :: i < |trace| ==> ReleasedAfter(t, i, holder, node);
  }

  lemma ReleaseExclusive(trace: seq<Mark>, m: Mark)
    requires Exclusive(trace) && m.Released?
    ensures Exclusive(trace + [m])
  {
    ExtendBetween(trace, m);
  }

  lemma ExtendBetween(trace: seq<Mark>, m: Mark)
    ensures forall i: nat, j: nat, h, n :: j <= |trace| && ReleasedBetween(trace, i, j, h, n) ==> ReleasedBetween(trace + [m], i, j, h, n)
  {
    forall i: nat, j: nat, h, n | j <= |trace| && ReleasedBetween(trace, i, j, h, n)
      ensures ReleasedBetween(trace + [m], i, j, h, n)
    {
      var k :| i < k < j && k < |trace| && trace[k] == Released(h, n);
      assert (trace + [m])[k] == trace[k];
    }
  }

  lemma ExtendAfter(trace: seq<Mark>, m: Mark)
    ensures forall i: nat, h, n :: ReleasedAfter(trace, i, h, n) ==> ReleasedAfter(trace + [m], i, h, n)
  {
    forall i: nat, h, n | ReleasedAfter(trace, i, h, n)
      ensures ReleasedAfter(trace + [m], i, h, n)
    {
      var k :| i < k < |trace| && trace[k] == Released(h, n);
      assert (trace + [m])[k] == trace[k];
    }
  }

  /** Acting while the table shows one's own fresh lease. */
  lemma ActUnderLease(trace: seq<Mark>, leases: map<string, Lease>, now: nat, node: string, holder: string)
    requires Remembers(trace, leases, now) && Exclusive(trace)
    requires node in leases && leases[node] == Lease(holder, now)
    ensures Remembers(trace + [Acted(holder, node, now)], leases, now)
    ensures Exclusive(trace + [Acted(holder, node, now)])
  {
    var m := Acted(holder, node, now);
    var t := trace + [m];
    ExtendBetween(trace, m);
    ExtendAfter(trace, m);
    forall i | 0 <= i < |trace| && trace[i].Acted? && trace[i].node == node && trace[i].holder != holder
      ensures now >= trace[i].at + LEASE_DURATION || ReleasedBetween(t, i, |trace|, trace[i].holder, node)
    {
      if now < trace[i].at + LEASE_DURATION {
        assert ReleasedAfter(trace, i, trace[i].holder, node);
        var k :| i < k < |trace| && trace[k] == Released(trace[i].holder, node);
        assert t[k] == trace[k];
      }
    }
  }

  /** How one pass moves the lease table: at most one acquisition, then at most one release, with every
      participant call in between. */
  lemma PassTable(ops: map<string, Operation>, spec: Spec, st: Status, leases: map<string, Lease>, now: nat, env: Inputs)
    returns (mid: map<string, Lease>)
    requires Good(st, spec.name)
    ensures mid == leases || mid == AcquireTable(leases, spec.node, spec.name, now, env.lease)
    ensures var p := Reconcile(ops, spec, st, leases, now, env);
            && (p.callTable.Some? ==> p.callTable.value == mid)
            && p.leases == if p.released then ReleaseTable(mid, spec.node, spec.name) else mid
  {
    hide Good, Step, Finish;
    GoodHolds(st, spec.name);
    var st0 := Begun(st);
    var st1 := st0.(leaseExpiry := now + LEASE_DURATION);
    var leases' := AcquireTable(leases, spec.node, spec.name, now, env.lease);
    StepTable(ops, spec, st0, leases, now, env);
    StepTable(ops, spec, st1, leases', now, env);
    FinishTable(st, spec, Step(ops, spec, st0, leases, now, env), env);
    FinishTable(st, spec, Step(ops, spec, st1, leases', now, env), env);
    mid := if Terminal(st0.phase) || (st0.leaseHolder != spec.name && st0.phase != Planning) then leases else leases';
  }

  lemma FinishTable(prior: Status, spec: Spec, r: StepResult, env: Inputs)
    ensures var p := Finish(prior, spec, r, env);
            && (p.callTable.Some? ==> p.callTable.value == r.leases)
            && p.leases == if p.released then ReleaseTable(r.leases, spec.node, spec.name) else r.leases
  {
  }

  lemma StepTable(ops: map<string, Operation>, spec: Spec, st: Status, leases: map<string, Lease>, now: nat, env: Inputs)
    ensures Step(ops, spec, st, leases, now, env).leases
         == if st.phase == Planning then AcquireTable(leases, spec.node, spec.name, now, env.lease) else leases
  {
    hide Append, LastAt, FirstAt, LeastName, Blockers;
  }

  lemma NextExclusive(s: Sys, a: Action)
    requires AllGood(s) && Remembers(s.trace, s.leases, s.now) && Exclusive(s.trace)
    ensures var s' := Next(s, a); Remembers(s'.trace, s'.leases, s'.now) && Exclusive(s'.trace)
  {
    hide Good, Reconcile, Remembers, Exclusive;
    var s' := Next(s, a);
    match a
    case Visit(name, dt, env) =>
      if name in s.ops {
        var op := s.ops[name];
        var now := s.now + dt;
        var p := Reconcile(s.ops, op.spec, op.st, s.leases, now, env);
        var mid := PassTable(s.ops, op.spec, op.st, s.leases, now, env);
        RemembersLater(s.trace, s.leases, s.now, now);
        AcquireRemembers(s.trace, s.leases, s.now, op.spec.node, op.spec.name, now, env.lease);
        var t := s.trace;
        if p.callTable.Some? {
          CallsUnderOwnLease(s.ops, op.spec, op.st, s.leases, now, env);
          ActUnderLease(t, mid, now, op.spec.node, op.spec.name);
          t := t + [Acted(op.spec.name, op.spec.node, now)];
        }
        if p.released {
          ReleaseRemembers(t, mid, now, op.spec.node, op.spec.name);
          ReleaseExclusive(t, Released(op.spec.name, op.spec.node));
          t := t + [Released(op.spec.name, op.spec.node)];
        }
        assert s'.trace == t;
      }
    case DeletionVisit(policy, node, dt, reply) =>
      var holder := DeletionHolder(policy);
      AcquireRemembers(s.trace, s.leases, s.now, node, holder, s.now + dt, reply);
      if AcquireResult(s.leases, node, holder, s.now + dt, reply).LeaseGranted? {
        ActUnderLease(s.trace, s'.leases, s.now + dt, node, holder);
      } else {
        assert s'.trace == s.trace;
      }
    case DeletionDone(policy, node, dt) =>
      RemembersLater(s.trace, s.leases, s.now, s.now + dt);
      ReleaseRemembers(s.trace, s.leases, s.now + dt, node, DeletionHolder(policy));
      ReleaseExclusive(s.trace, Released(DeletionHolder(policy), node));
    case _ =>
  }

  lemma RemembersLater(trace: seq<Mark>, leases: map<string, Lease>, now: nat, now': nat)
    requires Remembers(trace, leases, now) && now <= now'
    ensures Remembers(trace, leases, now')
  {
  }

  lemma {:induction false} RunExclusive(actions: seq<Action>)
    ensures var s := Run(actions); Remembers(s.trace, s.leases, s.now) && Exclusive(s.trace)
  {
    if actions != [] {
      var k := |actions| - 1;
      RunExclusive(actions[..k]);
      RunGood(actions[..k]);
      NextExclusive(Run(actions[..k]), actions[k]);
    }
  }

  /** For any number of operations and policy deletions in any interleaving, with leases expiring, races
      lost, writes dropped and steps failing at will: when two different lease identities act on one node,
      the first one's lease ran out in between or was given back in between. */
  lemma NoTwoActUnderOneLease(actions: seq<Action>, i: nat, j: nat)
    requires i < j < |Run(actions).trace|
    requires var t := Run(actions).trace;
             t[i].Acted? && t[j].Acted? && t[i].node == t[j].node && t[i].holder != t[j].holder
    ensures var t := Run(actions).trace;
            || t[j].at >= t[i].at + LEASE_DURATION
            || exists k :: i < k < j && t[k] == Released(t[i].holder, t[i].node)
  {
    RunExclusive(actions);
    var t := Run(actions).trace;
    if t[j].at < t[i].at + LEASE_DURATION {
      assert ReleasedBetween(t, i, j, t[i].holder, t[i].node);
    }
  }
}
