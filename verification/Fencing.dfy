/** The status write (writeStatus in internal/controller/operation_controller.go) with any number of processes
    working from copies of any age: read the object, compare epochs, update with the version just read.
    The stored object is the sequence of its versions; a process keeps version numbers, not references. */
module Fencing {
  import opened Journal
  import opened Conflict
  import opened Coordinator
  import opened OperationInvariant

  /** at: when the pass ran. */
  datatype Process =
    | Resting
    | Reading(read: nat)
    | Computed(read: nat, at: nat, mine: Status)
    | Fetched(read: nat, at: nat, mine: Status, seen: nat)

  datatype World = World(versions: seq<Status>, procs: map<nat, Process>)

  /** A process reads, and later re-reads, any version up to the newest: both reads may come from a cache.
      Compute stands for any program whatsoever, Reconciled for a real pass over the copy. */
  datatype Move =
    | Begin(p: nat, version: nat)
    | Compute(p: nat, result: Status)
    | Reconciled(p: nat, ops: map<string, Operation>, leases: map<string, Lease>, now: nat, env: Inputs)
    | Fetch(p: nat, version: nat)
    | Update(p: nat)

  function Newest(w: World): Status
    requires w.versions != []
  {
    w.versions[|w.versions| - 1]
  }

  function Proc(w: World, p: nat): Process {
    if p in w.procs then w.procs[p] else Resting
  }

  function Updated(versions: seq<Status>, mine: Status, seen: nat): seq<Status>
    requires seen < |versions|
  {
    if versions[seen].epoch > mine.epoch then versions        // fenced: an older epoch is dropped
    else if seen != |versions| - 1 then versions              // version conflict
    else versions + [mine]
  }

  ghost function Apply(spec: Spec, w: World, m: Move): World
    requires w.versions != []
  {
    match m
    case Begin(p, v) =>
      if Proc(w, p).Resting? && v < |w.versions| then w.(procs := w.procs[p := Reading(v)]) else w
    case Compute(p, result) =>
      if Proc(w, p).Reading? then w.(procs := w.procs[p := Computed(Proc(w, p).read, 0, result)]) else w
    case Reconciled(p, ops, leases, now, env) =>
      if Proc(w, p).Reading? && Proc(w, p).read < |w.versions| then
        var r := Proc(w, p).read;
        var pass := Reconcile(ops, spec, w.versions[r], leases, now, env);
        w.(procs := w.procs[p := if pass.wrote then Computed(r, now, pass.st) else Resting])
      else w
    case Fetch(p, v) =>
      if Proc(w, p).Computed? && v < |w.versions| then
        w.(procs := w.procs[p := Fetched(Proc(w, p).read, Proc(w, p).at, Proc(w, p).mine, v)])
      else w
    case Update(p) =>
      if Proc(w, p).Fetched? && Proc(w, p).seen < |w.versions| then
        World(Updated(w.versions, Proc(w, p).mine, Proc(w, p).seen), w.procs[p := Resting])
      else w
  }

  ghost function Run(spec: Spec, first: Status, moves: seq<Move>): (w: World)
    ensures w.versions != [] && w.versions[0] == first
  {
    if moves == [] then World([first], map[0 := Resting])
    else Apply(spec, Run(spec, first, moves[..|moves| - 1]), moves[|moves| - 1])
  }

  ghost predicate EpochsRise(versions: seq<Status>) {
    forall i, k :: 0 <= i <= k < |versions| ==> versions[i].epoch <= versions[k].epoch
  }

  /** Whatever the processes compute, and however old their copies are, the stored epoch never falls. */
  lemma {:induction false} StoredEpochNeverFalls(spec: Spec, first: Status, moves: seq<Move>)
    ensures EpochsRise(Run(spec, first, moves).versions)
  {
    hide Reconcile;
    if moves != [] {
      StoredEpochNeverFalls(spec, first, moves[..|moves| - 1]);
    }
  }

  /** In every reachable state the write of a process changes the object if and only if the version it fetched
      is still the newest and no older than its own epoch allows; in particular a result computed at an epoch
      below the stored one leaves the object alone, wherever the process got its fetched version from. */
  lemma WriteLandsIff(spec: Spec, first: Status, moves: seq<Move>, p: nat)
    requires Proc(Run(spec, first, moves), p).Fetched?
    ensures var w := Run(spec, first, moves);
            var mine := w.procs[p].mine;
            var w' := Apply(spec, w, Update(p));
            && (w'.versions != w.versions <==> w.procs[p].seen == |w.versions| - 1 && Newest(w).epoch <= mine.epoch)
            && (mine.epoch < Newest(w).epoch ==> w'.versions == w.versions)
            && (w'.versions != w.versions ==> Newest(w') == mine)
  {
    FetchedInRange(spec, first, moves, p);
  }

  lemma {:induction false} FetchedInRange(spec: Spec, first: Status, moves: seq<Move>, p: nat)
    ensures var w := Run(spec, first, moves);
            Proc(w, p).Fetched? ==> w.procs[p].seen < |w.versions|
  {
    hide Reconcile;
    if moves != [] {
      FetchedInRange(spec, first, moves[..|moves| - 1], p);
    }
  }

  // ----- what the fence does not give: lines journaled at the same epoch -----

  /** Only real passes run. */
  predicate RealPasses(moves: seq<Move>) {
    forall i :: 0 <= i < |moves| ==> !moves[i].Compute?
  }

  /** Every write compares with the version its pass was computed from. */
  ghost predicate OneVersion(spec: Spec, first: Status, moves: seq<Move>) {
    forall i :: 0 <= i < |moves| && moves[i].Fetch? ==> ReadAgain(Proc(Run(spec, first, moves[..i]), moves[i].p), moves[i].version)
  }

  predicate ReadAgain(p: Process, version: nat) {
    p.Computed? ==> p.read == version
  }

  ghost predicate Linked(w: World, name: string) {
    && w.versions != []
    && (forall i :: 0 <= i < |w.versions| ==> Good(w.versions[i], name))
    && (forall i :: 0 < i < |w.versions| ==> Continues(w.versions[i - 1], w.versions[i]))
    && (forall p :: p in w.procs ==> ProcLinked(w.versions, w.procs[p], name))
  }

  ghost predicate ProcLinked(versions: seq<Status>, p: Process, name: string) {
    && (p.Reading? ==> p.read < |versions|)
    && (p.Computed? || p.Fetched? ==>
          p.read < |versions| && Good(p.mine, name) && Continues(versions[p.read], p.mine))
    && (p.Fetched? ==> p.seen == p.read)
  }

  lemma ApplyLinked(spec: Spec, w: World, m: Move)
    requires Linked(w, spec.name) && !m.Compute? && (m.Fetch? ==> ReadAgain(Proc(w, m.p), m.version))
    ensures Linked(Apply(spec, w, m), spec.name)
  {
    hide Good, Reconcile, Continues;
    if m.Reconciled? && Proc(w, m.p).Reading? {
      ReconcileKeeps(m.ops, spec, w.versions[Proc(w, m.p).read], m.leases, m.now, m.env);
    }
    var w' := Apply(spec, w, m);
    assert forall p :: p in w'.procs && p != m.p ==> p in w.procs && w'.procs[p] == w.procs[p];
    assert forall i :: 0 <= i < |w.versions| ==> w'.versions[i] == w.versions[i];
  }

  /** In particular, if every write named the version its pass was computed from, each stored version would continue the one
      before it: no journal line is ever lost, with any number of processes. */
  lemma {:induction false} OneVersionKeepsLines(spec: Spec, first: Status, moves: seq<Move>)
    requires Good(first, spec.name) && RealPasses(moves) && OneVersion(spec, first, moves)
    ensures Linked(Run(spec, first, moves), spec.name)
    ensures var v := Run(spec, first, moves).versions; forall i :: 0 < i < |v| ==> v[i - 1].journal <= v[i].journal
  {
    hide Good, Apply;
    if moves != [] {
      var k := |moves| - 1;
      forall i | 0 <= i < k && moves[..k][i].Fetch?
        ensures ReadAgain(Proc(Run(spec, first, moves[..k][..i]), moves[..k][i].p), moves[..k][i].version)
      {
        assert moves[..k][..i] == moves[..i] && moves[..k][i] == moves[i];
      }
      OneVersionKeepsLines(spec, first, moves[..k]);
      ApplyLinked(spec, Run(spec, first, moves[..k]), moves[k]);
    }
  }

  // ----- exactly when a write keeps every stored line -----

  /** b is a with lines of one instant added at its end. */
  ghost predicate Stamps(a: seq<Entry>, b: seq<Entry>, now: nat) {
    a <= b && forall i :: |a| <= i < |b| ==> b[i].at == now
  }

  lemma LogStamps(now: nat)
    ensures forall st: Status, step: StepName :: Stamps(st.journal, Log(st, step, now).journal, now)
  {
  }

  lemma StampsCompose(now: nat)
    ensures forall a :: Stamps(a, a, now)
    ensures forall a, b, c :: Stamps(a, b, now) && Stamps(b, c, now) ==> Stamps(a, c, now)
  {
  }

  lemma StepStamps(ops: map<string, Operation>, spec: Spec, st: Status, leases: map<string, Lease>, now: nat, env: Inputs)
    ensures var r := Step(ops, spec, st, leases, now, env); r.Stepped? ==> Stamps(st.journal, r.st.journal, now)
  {
    hide Stamps, Append, LastAt, FirstAt, HasStep, Blockers, LeastName, DecideRecovery;
    LogStamps(now);
    StampsCompose(now);
  }

  /** Whatever a pass adds to the journal it read carries the time of the pass. */
  lemma PassStamps(ops: map<string, Operation>, spec: Spec, st: Status, leases: map<string, Lease>, now: nat, env: Inputs)
    ensures Stamps(st.journal, Reconcile(ops, spec, st, leases, now, env).st.journal, now)
  {
    hide Stamps, Step;
    StampsCompose(now);
    var leases' := AcquireTable(leases, spec.node, spec.name, now, env.lease);
    StepStamps(ops, spec, Begun(st).(leaseExpiry := now + LEASE_DURATION), leases', now, env);
    StepStamps(ops, spec, Begun(st), leases, now, env);
  }

  /** A pass over one version keeps the lines of another if and only if the version it read has them already; no line
      the pass adds itself can stand for a line journaled at another time. */
  lemma PassKeepsLinesIff(ops: map<string, Operation>, spec: Spec, read: Status, leases: map<string, Lease>, now: nat, env: Inputs,
                          newest: seq<Entry>)
    requires forall i :: 0 <= i < |newest| ==> newest[i].at != now
    ensures newest <= Reconcile(ops, spec, read, leases, now, env).st.journal <==> newest <= read.journal
  {
    hide Reconcile;
    PassStamps(ops, spec, read, leases, now, env);
    StampedKeepsIff(read.journal, Reconcile(ops, spec, read, leases, now, env).st.journal, now, newest);
  }

  lemma StampedKeepsIff(read: seq<Entry>, mine: seq<Entry>, now: nat, newest: seq<Entry>)
    requires Stamps(read, mine, now) && forall i :: 0 <= i < |newest| ==> newest[i].at != now
    ensures newest <= mine <==> newest <= read
  {
    if newest <= mine && |newest| > |read| {
      AddedLine(read, mine, now, newest);
    }
  }

  lemma AddedLine(read: seq<Entry>, mine: seq<Entry>, now: nat, part: seq<Entry>)
    requires Stamps(read, mine, now) && part <= mine && |part| > |read|
    ensures exists i :: 0 <= i < |part| && part[i].at == now
  {
    assert part[|read|] == mine[|read|];
  }

  /** When the last pass of the run so far was made. */
  function ClockAt(moves: seq<Move>, start: nat): nat {
    if moves == [] then start
    else
      var k := |moves| - 1;
      if moves[k].Reconciled? then moves[k].now else ClockAt(moves[..k], start)
  }

  /** Every pass has an instant of its own; everything else may happen at any time. */
  predicate Clocked(moves: seq<Move>, start: nat) {
    forall i :: 0 <= i < |moves| && moves[i].Reconciled? ==> ClockAt(moves[..i], start) < moves[i].now
  }

  ghost predicate NoLineAt(versions: seq<Status>, t: nat) {
    forall i, k :: 0 <= i < |versions| && 0 <= k < |versions[i].journal| ==> versions[i].journal[k].at != t
  }

  predicate Pending(p: Process) {
    p.Computed? || p.Fetched?
  }

  ghost predicate ProcTimed(versions: seq<Status>, p: Process, clock: nat) {
    && (p.Reading? ==> p.read < |versions|)
    && (Pending(p) ==>
          && p.read < |versions| && p.at <= clock
          && Stamps(versions[p.read].journal, p.mine.journal, p.at) && NoLineAt(versions, p.at))
  }

  /** A result waiting to be written differs from the version it was computed from by lines of an instant that is on no
      stored line and of no other waiting result. */
  ghost predicate Timed(w: World, clock: nat) {
    && w.versions != []
    && (forall i :: 0 <= i < |w.versions| ==> Dated(w.versions[i].journal, clock))
    && (forall p :: p in w.procs ==> ProcTimed(w.versions, w.procs[p], clock))
    && (forall p, q :: p in w.procs && q in w.procs && p != q && Pending(w.procs[p]) && Pending(w.procs[q]) ==>
          w.procs[p].at != w.procs[q].at)
  }

  lemma PassTimed(spec: Spec, w: World, m: Move, clock: nat)
    requires Timed(w, clock) && m.Reconciled? && clock < m.now
    ensures Timed(Apply(spec, w, m), m.now)
  {
    hide Reconcile, Stamps;
    if Proc(w, m.p).Reading? {
      PassStamps(m.ops, spec, w.versions[Proc(w, m.p).read], m.leases, m.now, m.env);
    }
  }

  lemma WriteTimed(spec: Spec, w: World, p: nat, clock: nat)
    requires Timed(w, clock)
    ensures Timed(Apply(spec, w, Update(p)), clock)
  {
    hide Reconcile;
    var w' := Apply(spec, w, Update(p));
    if w'.versions != w.versions {
      var mine := w.procs[p];
      assert Dated(mine.mine.journal, clock) by {
        assert Dated(w.versions[mine.read].journal, clock);
      }
      forall q | q in w'.procs && q != p && Pending(w'.procs[q]) ensures NoLineAt(w'.versions, w'.procs[q].at) {
        StaysUnused(w.versions, mine, w.procs[q].at);
      }
    }
  }

  lemma StaysUnused(versions: seq<Status>, p: Process, t: nat)
    requires Pending(p) && p.read < |versions| && Stamps(versions[p.read].journal, p.mine.journal, p.at)
    requires NoLineAt(versions, t) && p.at != t
    ensures NoLineAt(versions + [p.mine], t)
  {
    forall k | 0 <= k < |p.mine.journal| ensures p.mine.journal[k].at != t {
      if k < |versions[p.read].journal| {
        assert versions[p.read].journal[k] == p.mine.journal[k];
      }
    }
  }

  lemma {:induction false} RunTimed(spec: Spec, first: Status, start: nat, moves: seq<Move>)
    requires Dated(first.journal, start) && RealPasses(moves) && Clocked(moves, start)
    ensures Timed(Run(spec, first, moves), ClockAt(moves, start))
  {
    hide Reconcile, Timed;
    if moves == [] {
      assert Timed(World([first], map[0 := Resting]), start) by { FirstTimed(first, start); }
    } else {
      var k := |moves| - 1;
      ClockedPrefix(moves, k, start);
      RunTimed(spec, first, start, moves[..k]);
      var w := Run(spec, first, moves[..k]);
      var clock := ClockAt(moves[..k], start);
      if moves[k].Reconciled? {
        PassTimed(spec, w, moves[k], clock);
      } else if moves[k].Update? {
        WriteTimed(spec, w, moves[k].p, clock);
      } else {
        ReadTimed(spec, w, moves[k], clock);
      }
    }
  }

  lemma FirstTimed(first: Status, start: nat)
    requires Dated(first.journal, start)
    ensures Timed(World([first], map[0 := Resting]), start)
  {
  }

  lemma ReadTimed(spec: Spec, w: World, m: Move, clock: nat)
    requires Timed(w, clock) && (m.Begin? || m.Fetch?)
    ensures Timed(Apply(spec, w, m), clock)
  {
    hide Stamps, NoLineAt;
  }

  lemma ClockedPrefix(moves: seq<Move>, k: nat, start: nat)
    requires RealPasses(moves) && Clocked(moves, start) && k <= |moves|
    ensures RealPasses(moves[..k]) && Clocked(moves[..k], start)
  {
    forall i | 0 <= i < k && moves[..k][i].Reconciled? ensures ClockAt(moves[..k][..i], start) < moves[..k][i].now {
      assert moves[..k][..i] == moves[..i] && moves[..k][i] == moves[i];
    }
  }

  /** The write lands although lines were journaled beyond the version its pass was computed from: a comparison of the
      two reads the process makes. */
  ghost predicate StaleLanding(w: World, m: Move)
    requires w.versions != []
  {
    && m.Update? && Proc(w, m.p).Fetched?
    && var pr := Proc(w, m.p);
       && pr.seen == |w.versions| - 1 && pr.read < |w.versions|
       && w.versions[pr.seen].epoch <= pr.mine.epoch
       && !(w.versions[pr.seen].journal <= w.versions[pr.read].journal)
  }

  ghost predicate KeepsLines(spec: Spec, w: World, m: Move)
    requires w.versions != []
  {
    var w' := Apply(spec, w, m);
    w'.versions != [] && Newest(w).journal <= Newest(w').journal
  }

  /** In every reachable state a move keeps every line of the stored journal if and only if it is not such a write. */
  lemma MoveKeepsLinesIff(spec: Spec, first: Status, start: nat, moves: seq<Move>, m: Move)
    requires Dated(first.journal, start) && RealPasses(moves) && Clocked(moves, start) && !m.Compute?
    ensures KeepsLines(spec, Run(spec, first, moves), m) <==> !StaleLanding(Run(spec, first, moves), m)
  {
    hide Reconcile, Run;
    RunTimed(spec, first, start, moves);
    var w := Run(spec, first, moves);
    if m.Update? && Proc(w, m.p).Fetched? {
      var pr := w.procs[m.p];
      var newest := Newest(w);
      assert newest == w.versions[|w.versions| - 1];
      StampedKeepsIff(w.versions[pr.read].journal, pr.mine.journal, pr.at, newest.journal);
    }
  }

  ghost predicate NothingLost(versions: seq<Status>) {
    forall i :: 0 < i < |versions| ==> versions[i - 1].journal <= versions[i].journal
  }

  ghost predicate NeverStale(spec: Spec, first: Status, moves: seq<Move>) {
    forall k :: 0 <= k < |moves| ==> !StaleLanding(Run(spec, first, moves[..k]), moves[k])
  }

  /** With any number of processes making real passes, no journal line is ever lost in a run if and only if no write
      lands over lines its pass had not read. */
  lemma {:induction false} RunKeepsLinesIff(spec: Spec, first: Status, start: nat, moves: seq<Move>)
    requires Dated(first.journal, start) && RealPasses(moves) && Clocked(moves, start)
    ensures NothingLost(Run(spec, first, moves).versions) <==> NeverStale(spec, first, moves)
  {
    hide Apply, StaleLanding, NeverStale;
    NeverStalePrefix(spec, first, moves);
    if moves != [] {
      var k := |moves| - 1;
      ClockedPrefix(moves, k, start);
      RunKeepsLinesIff(spec, first, start, moves[..k]);
      MoveKeepsLinesIff(spec, first, start, moves[..k], moves[k]);
      OneMore(spec, Run(spec, first, moves[..k]), moves[k]);
    }
  }

  lemma NeverStalePrefix(spec: Spec, first: Status, moves: seq<Move>)
    ensures NeverStale(spec, first, moves) <==>
              moves == [] || (NeverStale(spec, first, moves[..|moves| - 1])
                              && !StaleLanding(Run(spec, first, moves[..|moves| - 1]), moves[|moves| - 1]))
  {
    hide StaleLanding, Run;
    if moves != [] {
      var n := |moves| - 1;
      forall k | 0 <= k < n ensures moves[..n][..k] == moves[..k] && moves[..n][k] == moves[k] {}
    }
  }

  /** A move leaves the versions alone or adds one. */
  lemma OneMore(spec: Spec, w: World, m: Move)
    requires w.versions != []
    ensures NothingLost(Apply(spec, w, m).versions) <==> NothingLost(w.versions) && KeepsLines(spec, w, m)
  {
    hide Reconcile;
    var w' := Apply(spec, w, m);
    assert w'.versions == w.versions || (|w'.versions| == |w.versions| + 1 && w'.versions[..|w.versions|] == w.versions);
    forall i | 0 <= i < |w.versions| ensures w'.versions[i] == w.versions[i] {}
  }

  const SPEC := Spec("op", PartitionReconfigure, "n", [])
  const ENTRIES := [Entry(LeaseAcquired, 1, 0), Entry(SnapshotTaken, 1, 0), Entry(Quiesced, 1, 0)]
  const QUIESCING := Status(Quiescing, 1, "op", 60, ENTRIES, Some(Snapshot(map[], "")), "", 0, 0)

  function Pass0(p: nat, now: nat): Move {
    Reconciled(p, map[], map[], now,
               Inputs(LeaseServed, true, NodeMissing, true, Reported(Some(EvApplyDone), false), NotApplicable, Graded,
                      Reported(None, false), true, true))
  }

  /** Process 0 starts the apply and finishes it; process 1, which read the object before that, then writes the
      start of the apply over it. */
  const STALE_RUN := [
    Begin(1, 0),
    Begin(0, 0), Pass0(0, 5), Fetch(0, 0), Update(0),
    Begin(0, 1), Pass0(0, 6), Fetch(0, 1), Update(0),
    Pass0(1, 7), Fetch(1, 2), Update(1)]

  function Applied(at: nat): Status {
    Status(Applying, 1, "op", at + LEASE_DURATION, ENTRIES + [Entry(ApplyStarted, 1, at)], Some(Snapshot(map[], "")), "", 0, 0)
  }

  function Finished(): Status {
    Status(Verifying, 1, "op", 6 + LEASE_DURATION,
           ENTRIES + [Entry(ApplyStarted, 1, 5), Entry(ApplyFinished, 1, 6), Entry(VerifyStarted, 1, 6)],
           Some(Snapshot(map[], "")), "", 0, 0)
  }

  lemma StartPass(p: nat, now: nat)
    ensures var m := Pass0(p, now); Reconcile(m.ops, SPEC, QUIESCING, m.leases, m.now, m.env).st == Applied(now)
    ensures var m := Pass0(p, now); Reconcile(m.ops, SPEC, QUIESCING, m.leases, m.now, m.env).wrote
  {
    assert !Recorded(ENTRIES, ApplyStarted, 1);
  }

  lemma FinishPass(p: nat)
    ensures var m := Pass0(p, 6); Reconcile(m.ops, SPEC, Applied(5), m.leases, m.now, m.env).st == Finished()
    ensures var m := Pass0(p, 6); Reconcile(m.ops, SPEC, Applied(5), m.leases, m.now, m.env).wrote
  {
    var j := ENTRIES + [Entry(ApplyStarted, 1, 5)];
    assert !Recorded(j, ApplyFinished, 1);
    assert !Recorded(j + [Entry(ApplyFinished, 1, 6)], VerifyStarted, 1);
  }

  /** The code takes the version from its second read, so at an equal epoch a stale pass is accepted: it erases the
      line that says the apply finished and sends the operation from verifying back to applying. */
  lemma StaleWriteAtSameEpochLosesLines()
    ensures var v := Run(SPEC, QUIESCING, STALE_RUN).versions;
            && RealPasses(STALE_RUN)
            && v == [QUIESCING, Applied(5), Finished(), Applied(7)]
            && v[2].phase == Verifying && v[3].phase == Applying && v[2].epoch == v[3].epoch
            && HasStep(v[2].journal, ApplyFinished) && !HasStep(v[3].journal, ApplyFinished)
  {
    hide Reconcile, Run, Apply;
    ThirdWrite();
    assert STALE_RUN[..|STALE_RUN|] == STALE_RUN;
    assert Finished().journal[4].step == ApplyFinished;
  }

  /** An undisturbed pass adds its result. */
  lemma CleanPass(w: World, m: Move, result: Status)
    requires w.versions != [] && m.Reconciled? && m.p in w.procs && w.procs[m.p] == Resting
    requires var r := Reconcile(m.ops, SPEC, Newest(w), m.leases, m.now, m.env); r.wrote && r.st == result
    requires Newest(w).epoch <= result.epoch
    ensures var n := |w.versions| - 1;
            var w1 := Apply(SPEC, w, Begin(m.p, n));
            var w2 := Apply(SPEC, w1, m);
            var w3 := Apply(SPEC, w2, Fetch(m.p, n));
            Apply(SPEC, w3, Update(m.p)) == World(w.versions + [result], w.procs)
  {
    hide Reconcile;
    var n := |w.versions| - 1;
    var w1 := Apply(SPEC, w, Begin(m.p, n));
    var w2 := Apply(SPEC, w1, m);
    var w3 := Apply(SPEC, w2, Fetch(m.p, n));
    assert Apply(SPEC, w3, Update(m.p)).procs == w.procs;
  }

  lemma FirstWrite() returns (w: World)
    ensures w == Run(SPEC, QUIESCING, STALE_RUN[..5])
    ensures w == World([QUIESCING, Applied(5)], map[0 := Resting, 1 := Reading(0)])
  {
    hide Reconcile, Apply;
    var w1 := World([QUIESCING], map[0 := Resting, 1 := Reading(0)]);
    Prefixes(1);
    Prefixes(2);
    Prefixes(3);
    Prefixes(4);
    Prefixes(5);
    StartPass(0, 5);
    CleanPass(w1, Pass0(0, 5), Applied(5));
    StartReading();
    w := Run(SPEC, QUIESCING, STALE_RUN[..5]);
  }

  lemma StartReading()
    ensures Apply(SPEC, World([QUIESCING], map[0 := Resting]), Begin(1, 0)) == World([QUIESCING], map[0 := Resting, 1 := Reading(0)])
    ensures Run(SPEC, QUIESCING, STALE_RUN[..0]) == World([QUIESCING], map[0 := Resting])
  {
  }

  lemma SecondWrite() returns (w: World)
    ensures w == Run(SPEC, QUIESCING, STALE_RUN[..9])
    ensures w == World([QUIESCING, Applied(5), Finished()], map[0 := Resting, 1 := Reading(0)])
  {
    hide Reconcile, Apply;
    var w5 := FirstWrite();
    Prefixes(6);
    Prefixes(7);
    Prefixes(8);
    Prefixes(9);
    FinishPass(0);
    CleanPass(w5, Pass0(0, 6), Finished());
    w := Run(SPEC, QUIESCING, STALE_RUN[..9]);
    assert w5.versions + [Finished()] == [QUIESCING, Applied(5), Finished()];
  }

  lemma ThirdWrite()
    ensures Run(SPEC, QUIESCING, STALE_RUN[..12]).versions == [QUIESCING, Applied(5), Finished(), Applied(7)]
  {
    hide Reconcile, Apply;
    var w9 := SecondWrite();
    Prefixes(10);
    Prefixes(11);
    Prefixes(12);
    StartPass(1, 7);
    StaleWrite(w9, Pass0(1, 7), Applied(7));
    assert w9.versions + [Applied(7)] == [QUIESCING, Applied(5), Finished(), Applied(7)];
  }

  /** A pass over the first version, written over the newest. */
  lemma StaleWrite(w: World, m: Move, result: Status)
    requires w.versions != [] && m.Reconciled? && m.p in w.procs && w.procs[m.p] == Reading(0)
    requires var r := Reconcile(m.ops, SPEC, w.versions[0], m.leases, m.now, m.env); r.wrote && r.st == result
    requires Newest(w).epoch <= result.epoch
    ensures var w2 := Apply(SPEC, w, m);
            var w3 := Apply(SPEC, w2, Fetch(m.p, |w.versions| - 1));
            Apply(SPEC, w3, Update(m.p)).versions == w.versions + [result]
  {
    hide Reconcile;
  }

  lemma Prefixes(i: nat)
    requires 0 < i <= 12
    ensures Run(SPEC, QUIESCING, STALE_RUN[..i]) == Apply(SPEC, Run(SPEC, QUIESCING, STALE_RUN[..i - 1]), STALE_RUN[i - 1])
  {
    assert STALE_RUN[..i][..i - 1] == STALE_RUN[..i - 1];
  }
}
