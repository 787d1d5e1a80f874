/** What a finished deletion proves, and what a deletion that stops half way leaves for the next call. */
module MigDeletionProofs {
  import opened MigModel
  import opened MigDeletion

  /** One record a node; the node of a record may be gone. */
  ghost predicate Distinct(d: D) {
    forall i, k :: 0 <= i < k < |d.records| ==> d.records[i].node != d.records[k].node
  }

  /** The part of a record a proof of restoration reads. */
  predicate SameProof(a: Record, b: Record) {
    a.pcis == b.pcis && a.baseline == b.baseline && a.expectedFull == b.expectedFull
  }

  /** What the steps of one record never change before its lock is released. */
  predicate Steady(a: Spot, b: Spot) {
    SameProof(a.r, b.r) && a.r.phase == b.r.phase && a.n.owner == b.n.owner && a.n.made == b.n.made
  }

  function NodeAt(d: D, i: nat): Node
    requires Known(d, i)
  {
    d.nodes[d.records[i].node]
  }

  /** The answers record i is judged by. */
  function ProofFor(uid: string, s: Spot, a: Answers): Check {
    if s.n.owner == uid then a.check else a.lookup
  }

  function ProofOf(uid: string, d: D, i: nat, a: Answers): Check
    requires Known(d, i)
  {
    ProofFor(uid, SpotAt(d, i), a)
  }

  lemma StepsSteady(s: Spot, a: Answers)
    ensures Steady(s, CordonForRollback(s, a).s) && Steady(s, GiveBack(s, a).s) && Steady(s, RestoreMode(s, a).s)
  {
    hide ModeObservable, NeedsModeDisable;
  }

  lemma UndoProves(uid: string, restoreMode: bool, s: Spot, a: Answers)
    ensures var r := Undo(uid, restoreMode, s, a);
            && SameProof(r.s.r, s.r) && r.s.r.phase == s.r.phase
            && (r.ok ==> Passes(s.r, a.check, restoreMode) && (uid != "" ==> r.s.n.owner != uid))
            && (r.ok ==> r.s.n.made == RolledBackAt(s, a).n.made)
  {
    hide Passes, CordonForRollback, GiveBack, RestoreMode;
    StepsSteady(s, a);
    var s1 := CordonForRollback(s, a).s;
    var s3 := RolledBackAt(s1, a);
    StepsSteady(s3, a);
    var s4 := if restoreMode then RestoreMode(s3, a).s else s3;
    StepsSteady(s4, a);
    PassesReads(s.r, s4.r, a.check, restoreMode);
  }

  lemma PassesReads(a: Record, b: Record, c: Check, restoreMode: bool)
    requires SameProof(a, b)
    ensures Passes(a, c, restoreMode) == Passes(b, c, restoreMode)
  {
  }

  // ----- one record -----

  /** What one record leaves behind when its turn ends without an error. */
  lemma RecordDone(uid: string, restoreMode: bool, shared: bool, s: Spot, a: Answers)
    requires uid != "" && DeleteOne(uid, restoreMode, shared, s, a).ok
    ensures var r := DeleteOne(uid, restoreMode, shared, s, a);
            && SameProof(r.s.r, s.r) && r.s.r.phase == s.r.phase && r.s.n.owner != uid
            && (HardwareChanged(s.r.phase) ==> Passes(s.r, ProofFor(uid, s, a), restoreMode))
  {
    hide Passes, Undo, GiveBack, HardwareChanged;
    UndoProves(uid, restoreMode, s, a);
    StepsSteady(s, a);
  }

  /** A node with changed hardware is opened again only after the proof of restoration passed in that same turn, and a
      cordon the record does not claim is never lifted. */
  lemma UncordonedIsProven(uid: string, restoreMode: bool, shared: bool, s: Spot, a: Answers)
    requires s.n.cordon != Nobody && DeleteOne(uid, restoreMode, shared, s, a).s.n.cordon == Nobody
    ensures s.r.cordoned && s.n.owner == uid
    ensures HardwareChanged(s.r.phase) ==> Restored(s.r, a.check, restoreMode)
  {
    hide Passes, Restored, HardwareChanged, GiveBack, RestoreMode, CordonForRollback;
    PassingIsRestored(s.r, a.check, restoreMode);
    StepsSteady(s, a);
    CordonsOf(s, a);
    var s3 := RolledBackAt(CordonForRollback(s, a).s, a);
    StepsSteady(s3, a);
    CordonsOf(s3, a);
    var s4 := if restoreMode then RestoreMode(s3, a).s else s3;
    CordonsOf(s4, a);
    PassesReads(s.r, s4.r, a.check, restoreMode);
  }

  lemma CordonsOf(s: Spot, a: Answers)
    ensures s.n.cordon != Nobody ==> CordonForRollback(s, a).s == s
    ensures RestoreMode(s, a).s.n.cordon == s.n.cordon && RestoreMode(s, a).s.r.cordoned == s.r.cordoned
    ensures GiveBack(s, a).s.n.cordon == s.n.cordon || s.r.cordoned
  {
    hide ModeObservable, NeedsModeDisable;
  }

  /** A record is marked blocked exactly when its lock is lost, its hardware was changed and the restoration cannot
      be shown. */
  lemma MarkedIff(uid: string, restoreMode: bool, shared: bool, s: Spot, a: Answers)
    requires s.r.phase != CleanupBlocked
    ensures DeleteOne(uid, restoreMode, shared, s, a).s.r.phase == CleanupBlocked
       <==> && Admitted(shared, a) && a.markOK
            && s.n.owner != uid && HardwareChanged(s.r.phase)
            && !Restored(s.r, a.lookup, restoreMode)
  {
    hide Passes, Restored, Undo, GiveBack, HardwareChanged;
    PassingIsRestored(s.r, a.lookup, restoreMode);
    UndoProves(uid, restoreMode, s, a);
    StepsSteady(s, a);
  }

  // ----- the sweep -----

  lemma {:induction false} SweepFrame(uid: string, restoreMode: bool, d: D, answers: seq<Answers>, k: nat)
    requires Distinct(d) && k <= |d.records| == |answers|
    ensures Sweep(uid, restoreMode, d, answers, k).ok ==> forall j :: 0 <= j < k ==> Known(d, j)
    ensures var d' := Sweep(uid, restoreMode, d, answers, k).d;
            && Distinct(d') && d'.nodes.Keys == d.nodes.Keys
            && (forall j :: 0 <= j < |d.records| ==> d'.records[j].node == d.records[j].node && d'.records[j].shared == d.records[j].shared)
            && (forall j :: k <= j < |d.records| ==>
                  d'.records[j] == d.records[j] && (Known(d, j) ==> NodeAt(d', j) == NodeAt(d, j)))
  {
    hide DeleteOne;
    if k > 0 {
      SweepFrame(uid, restoreMode, d, answers, k - 1);
    }
  }

  /** Everything the first k records proved, in terms of the state the call started from. */
  lemma {:induction false} SweepProves(uid: string, restoreMode: bool, d: D, answers: seq<Answers>, k: nat)
    requires uid != "" && Distinct(d) && k <= |d.records| == |answers| && Sweep(uid, restoreMode, d, answers, k).ok
    ensures var d' := Sweep(uid, restoreMode, d, answers, k).d;
            && Distinct(d')
            && forall i :: 0 <= i < k ==>
                 && Known(d, i) && Known(d', i)
                 && SameProof(d'.records[i].r, d.records[i].r) && d'.records[i].r.phase == d.records[i].r.phase
                 && d'.records[i].node == d.records[i].node && NodeAt(d', i).owner != uid
                 && (HardwareChanged(d.records[i].r.phase) ==>
                       Passes(d.records[i].r, ProofOf(uid, d, i, answers[i]), restoreMode))
  {
    hide DeleteOne, Passes, HardwareChanged;
    SweepFrame(uid, restoreMode, d, answers, k);
    if k > 0 {
      SweepFrame(uid, restoreMode, d, answers, k - 1);
      SweepProves(uid, restoreMode, d, answers, k - 1);
      var d1 := Sweep(uid, restoreMode, d, answers, k - 1).d;
      RecordDone(uid, restoreMode, d1.records[k - 1].shared, SpotAt(d1, k - 1), answers[k - 1]);
    }
  }

  lemma {:induction false} SweepForeign(uid: string, restoreMode: bool, d: D, answers: seq<Answers>, k: nat, n: string)
    requires Distinct(d) && k <= |d.records| == |answers| && n in d.nodes && d.nodes[n].owner != uid
    ensures var d' := Sweep(uid, restoreMode, d, answers, k).d; n in d'.nodes && d'.nodes[n] == d.nodes[n]
  {
    hide DeleteOne;
    if k > 0 {
      SweepFrame(uid, restoreMode, d, answers, k - 1);
      SweepForeign(uid, restoreMode, d, answers, k - 1, n);
      var r := Sweep(uid, restoreMode, d, answers, k - 1);
      if r.ok && Known(r.d, k - 1) && r.d.records[k - 1].node == n {
        ForeignNode(uid, restoreMode, r.d.records[k - 1].shared, SpotAt(r.d, k - 1), answers[k - 1]);
      }
    }
  }

  lemma ForeignNode(uid: string, restoreMode: bool, shared: bool, s: Spot, a: Answers)
    requires s.n.owner != uid
    ensures DeleteOne(uid, restoreMode, shared, s, a).s.n == s.n
  {
    hide GiveBackAll, Undo, Passes, HardwareChanged;
  }

  lemma {:induction false} OrphansReleased(d: D, uid: string, listed: seq<string>, refusing: set<string>)
    decreases |listed|
    ensures var r := ReleaseOrphans(d, uid, listed, refusing);
            && r.d.records == d.records && r.d.nodes.Keys == d.nodes.Keys
            && (forall n :: n in d.nodes ==> r.d.nodes[n] == d.nodes[n] ||
                                             (d.nodes[n].owner == uid && r.d.nodes[n] == d.nodes[n].(owner := "")))
            && (r.ok && uid != "" ==> forall n :: n in d.nodes && n in listed ==> r.d.nodes[n].owner != uid)
  {
    if listed != [] && !(listed[0] in d.nodes && d.nodes[listed[0]].owner == uid && listed[0] in refusing) {
      OrphansReleased(Released(d, listed[0], uid), uid, listed[1..], refusing);
    }
  }

  /** A deletion that returns no error: no node carries the policy's lock any more, and every record whose hardware
      was changed passed the proof of restoration during this very call. */
  lemma FinishedDeletion(uid: string, restoreMode: bool, d: D, answers: seq<Answers>, end: EndAnswers)
    requires uid != "" && Distinct(d) && |answers| == |d.records|
    requires forall n :: n in d.nodes ==> n in end.listed
    requires Delete(uid, restoreMode, d, answers, end).ok
    ensures var d' := Delete(uid, restoreMode, d, answers, end).d;
            && (forall n :: n in d'.nodes ==> d'.nodes[n].owner != uid)
            && (forall i :: 0 <= i < |d.records| ==> Known(d, i))
            && (forall i :: 0 <= i < |d.records| && HardwareChanged(d.records[i].r.phase) ==>
                  Restored(d.records[i].r, ProofOf(uid, d, i, answers[i]), restoreMode))
  {
    hide Sweep, ReleaseOrphans, Passes, Restored, HardwareChanged;
    SweepFrame(uid, restoreMode, d, answers, |d.records|);
    SweepProves(uid, restoreMode, d, answers, |d.records|);
    OrphansReleased(Sweep(uid, restoreMode, d, answers, |d.records|).d, uid, end.listed, end.refusing);
    forall i | 0 <= i < |d.records| && HardwareChanged(d.records[i].r.phase)
      ensures Restored(d.records[i].r, ProofOf(uid, d, i, answers[i]), restoreMode)
    {
      PassingIsRestored(d.records[i].r, ProofOf(uid, d, i, answers[i]), restoreMode);
    }
  }

  /** However the call ends, a node that another policy or nobody holds is exactly as it was. */
  lemma OthersUntouched(uid: string, restoreMode: bool, d: D, answers: seq<Answers>, end: EndAnswers, n: string)
    requires Distinct(d) && |answers| == |d.records| && n in d.nodes && d.nodes[n].owner != uid
    ensures var d' := Delete(uid, restoreMode, d, answers, end).d; n in d'.nodes && d'.nodes[n] == d.nodes[n]
  {
    hide Sweep, ReleaseOrphans;
    SweepForeign(uid, restoreMode, d, answers, |d.records|, n);
    OrphansReleased(Sweep(uid, restoreMode, d, answers, |d.records|).d, uid, end.listed, end.refusing);
  }

  // ----- a call that stopped half way, and the next one -----

  lemma PutElsewhere(d: D, j: nat, s: Spot, i: nat)
    requires Distinct(d) && Known(d, i) && Known(d, j) && i != j
    ensures var d' := Put(d, j, s); Known(d', i) && d'.records[i] == d.records[i] && NodeAt(d', i) == NodeAt(d, i)
  {
  }

  /** Later records leave an earlier one alone. */
  lemma {:induction false} SweepKeepsEarlier(uid: string, restoreMode: bool, d: D, answers: seq<Answers>, i: nat, k: nat)
    requires Distinct(d) && i < k <= |d.records| == |answers|
    ensures var a := Sweep(uid, restoreMode, d, answers, i + 1); var b := Sweep(uid, restoreMode, d, answers, k);
            a.ok ==> && Known(a.d, i) && Known(b.d, i)
                     && b.d.records[i] == a.d.records[i] && NodeAt(b.d, i) == NodeAt(a.d, i)
  {
    hide DeleteOne, Put, Distinct;
    SweepKnown(uid, restoreMode, d, answers, i + 1, i);
    SweepKnown(uid, restoreMode, d, answers, k, i);
    if i + 1 < k {
      SweepKeepsEarlier(uid, restoreMode, d, answers, i, k - 1);
      SweepKnown(uid, restoreMode, d, answers, k - 1, k - 1);
      var r := Sweep(uid, restoreMode, d, answers, k - 1);
      if r.ok && Sweep(uid, restoreMode, d, answers, i + 1).ok && Known(r.d, k - 1) {
        PutElsewhere(r.d, k - 1, DeleteOne(uid, restoreMode, r.d.records[k - 1].shared, SpotAt(r.d, k - 1), answers[k - 1]).s, i);
      }
    }
  }

  lemma SweepKnown(uid: string, restoreMode: bool, d: D, answers: seq<Answers>, k: nat, i: nat)
    requires Distinct(d) && k <= |d.records| == |answers| && i < |d.records|
    ensures var r := Sweep(uid, restoreMode, d, answers, k);
            Distinct(r.d) && (Known(r.d, i) <==> Known(d, i)) && (r.ok && i < k ==> Known(d, i))
  {
    hide DeleteAt, Sweep;
    SweepFrame(uid, restoreMode, d, answers, k);
  }

  /** If a call got record i done and then stopped anywhere, the next call, reading the unchanged hardware of that
      node the same way, never marks the record blocked and never touches its node. */
  lemma RerunLeavesRestored(uid: string, restoreMode: bool, d: D, first: seq<Answers>, e1: EndAnswers,
                            again: seq<Answers>, e2: EndAnswers, i: nat)
    requires uid != "" && Distinct(d) && |d.records| == |first| == |again| && Known(d, i)
    requires Sweep(uid, restoreMode, d, first, i + 1).ok
    requires HardwareChanged(d.records[i].r.phase)
    requires again[i].lookup == ProofOf(uid, d, i, first[i])
    ensures var d1 := Delete(uid, restoreMode, d, first, e1).d;
            var d2 := Delete(uid, restoreMode, d1, again, e2).d;
            && d2.records[i].r.phase == d.records[i].r.phase
            && d2.records[i] == d1.records[i]
            && Known(d1, i) && Known(d2, i) && NodeAt(d2, i) == NodeAt(d1, i)
  {
    hide Sweep, ReleaseOrphans, Passes, HardwareChanged;
    var n := |d.records|;
    SweepFrame(uid, restoreMode, d, first, n);
    SweepProves(uid, restoreMode, d, first, i + 1);
    SweepKeepsEarlier(uid, restoreMode, d, first, i, n);
    var s1 := Sweep(uid, restoreMode, d, first, n).d;
    OrphansReleased(s1, uid, e1.listed, e1.refusing);
    var d1 := Delete(uid, restoreMode, d, first, e1).d;
    assert Distinct(d1) && d1.records[i] == s1.records[i] && NodeAt(d1, i).owner != uid;
    PassesReads(d.records[i].r, d1.records[i].r, again[i].lookup, restoreMode);
    RestoredIsSkipped(uid, restoreMode, d1, again, i);
    SweepForeign(uid, restoreMode, d1, again, n, d1.records[i].node);
    OrphansReleased(Sweep(uid, restoreMode, d1, again, n).d, uid, e2.listed, e2.refusing);
  }

  /** A record whose lock is gone and whose restoration shows keeps its record through a whole sweep. */
  lemma RestoredIsSkipped(uid: string, restoreMode: bool, d: D, answers: seq<Answers>, i: nat)
    requires Distinct(d) && |d.records| == |answers| && Known(d, i)
    requires NodeAt(d, i).owner != uid && Passes(d.records[i].r, answers[i].lookup, restoreMode)
    ensures var d' := Sweep(uid, restoreMode, d, answers, |d.records|).d;
            && Distinct(d') && d'.records[i] == d.records[i] && d'.records[i].node == d.records[i].node
  {
    hide DeleteOne, Sweep, Passes;
    SweepFrame(uid, restoreMode, d, answers, i);
    SweepFrame(uid, restoreMode, d, answers, |d.records|);
    SweepKeepsEarlier(uid, restoreMode, d, answers, i, |d.records|);
    var a := Sweep(uid, restoreMode, d, answers, i);
    var b := Sweep(uid, restoreMode, d, answers, i + 1);
    assert b == if a.ok then DeleteAt(uid, restoreMode, a.d, i, answers[i]) else a by { SweepTurn(uid, restoreMode, d, answers, i); }
    SkipsRecord(uid, restoreMode, d.records[i].shared, SpotAt(d, i), answers[i]);
    assert b.d.records[i] == d.records[i];
    if !b.ok {
      StopsForGood(uid, restoreMode, d, answers, i + 1, |d.records|);
    }
  }

  lemma SweepTurn(uid: string, restoreMode: bool, d: D, answers: seq<Answers>, i: nat)
    requires i < |d.records| == |answers|
    ensures var a := Sweep(uid, restoreMode, d, answers, i);
            Sweep(uid, restoreMode, d, answers, i + 1) == if a.ok then DeleteAt(uid, restoreMode, a.d, i, answers[i]) else a
  {
    hide DeleteAt;
  }

  lemma SkipsRecord(uid: string, restoreMode: bool, shared: bool, s: Spot, a: Answers)
    requires s.n.owner != uid && Passes(s.r, a.lookup, restoreMode)
    ensures DeleteOne(uid, restoreMode, shared, s, a).s == s
  {
    hide Passes, Undo, GiveBackAll;
  }

  // ----- the reboot budget of the deletion -----

  predicate Budgeted(s: Spot) {
    s.n.disables <= s.r.disableReboots <= MAX_REBOOTS
  }

  predicate WithinBudget(d: D, i: nat) {
    Known(d, i) ==> Budgeted(SpotAt(d, i))
  }

  lemma UndoBudgeted(uid: string, restoreMode: bool, s: Spot, a: Answers)
    requires Budgeted(s)
    ensures Budgeted(Undo(uid, restoreMode, s, a).s)
  {
    hide Passes, CordonForRollback, GiveBack, RestoreMode;
    StepsBudgeted(s, a);
    var s3 := RolledBackAt(CordonForRollback(s, a).s, a);
    StepsBudgeted(s3, a);
    StepsBudgeted(FinishRollback(restoreMode, s3, a).s, a);
  }

  lemma StepsBudgeted(s: Spot, a: Answers)
    requires Budgeted(s)
    ensures Budgeted(CordonForRollback(s, a).s) && Budgeted(GiveBack(s, a).s) && Budgeted(RestoreMode(s, a).s)
  {
    hide ModeObservable, NeedsModeDisable;
  }

  lemma RecordBudgeted(uid: string, restoreMode: bool, shared: bool, s: Spot, a: Answers)
    requires Budgeted(s)
    ensures Budgeted(DeleteOne(uid, restoreMode, shared, s, a).s)
  {
    hide Passes, Undo, HardwareChanged;
    UndoBudgeted(uid, restoreMode, s, a);
  }

  lemma {:induction false} SweepWithinBudget(uid: string, restoreMode: bool, d: D, answers: seq<Answers>, k: nat, i: nat)
    requires Distinct(d) && k <= |d.records| == |answers| && i < |d.records| && WithinBudget(d, i)
    ensures WithinBudget(Sweep(uid, restoreMode, d, answers, k).d, i)
  {
    hide DeleteOne;
    if k > 0 {
      SweepFrame(uid, restoreMode, d, answers, k - 1);
      SweepWithinBudget(uid, restoreMode, d, answers, k - 1, i);
      var r := Sweep(uid, restoreMode, d, answers, k - 1);
      if r.ok && i == k - 1 && Known(r.d, i) {
        RecordBudgeted(uid, restoreMode, r.d.records[i].shared, SpotAt(r.d, i), answers[i]);
      }
    }
  }

  /** Deletion calls, one after the other, with anything happening to Jobs and cordons in between, and nodes vanishing. */
  datatype Attempt = Attempt(
    restoreMode: bool, answers: seq<Answers>, end: EndAnswers, jobs: map<string, bool>, cordons: map<string, Cordon>, gone: set<string>)

  function Between(d: D, t: Attempt): D {
    d.(nodes := map n | n in d.nodes && n !in t.gone ::
         d.nodes[n].(job := if n in t.jobs then t.jobs[n] else d.nodes[n].job,
                     cordon := if n in t.cordons then t.cordons[n] else d.nodes[n].cordon))
  }

  predicate Sized(d: D, attempts: seq<Attempt>) {
    forall t :: 0 <= t < |attempts| ==> |attempts[t].answers| == |d.records|
  }

  function Attempts(uid: string, d: D, attempts: seq<Attempt>): (r: D)
    requires Sized(d, attempts)
    ensures |r.records| == |d.records|
  {
    if attempts == [] then d
    else
      var k := |attempts| - 1;
      var d1 := Between(Attempts(uid, d, attempts[..k]), attempts[k]);
      assert |d1.records| == |attempts[k].answers|;
      Delete(uid, attempts[k].restoreMode, d1, attempts[k].answers, attempts[k].end).d
  }

  /** Over the whole life of a deletion, with any number of failing calls and Jobs expiring in between, at most two
      reboots are requested on a node to switch the MIG mode off, each one counted first. */
  lemma {:induction false} DisableRebootsBounded(uid: string, d: D, attempts: seq<Attempt>, i: nat)
    requires Sized(d, attempts) && Distinct(d) && i < |d.records| && WithinBudget(d, i)
    ensures var d' := Attempts(uid, d, attempts);
            && Distinct(d') && WithinBudget(d', i) && (Known(d', i) ==> NodeAt(d', i).disables <= MAX_REBOOTS)
  {
    hide Delete, Between, Distinct;
    if attempts != [] {
      var k := |attempts| - 1;
      var t := attempts[k];
      DisableRebootsBounded(uid, d, attempts[..k], i);
      BetweenWithinBudget(Attempts(uid, d, attempts[..k]), t, i);
      var d1 := Between(Attempts(uid, d, attempts[..k]), t);
      DeleteWithinBudget(uid, d1, t, i);
    }
  }

  lemma DeleteWithinBudget(uid: string, d: D, t: Attempt, i: nat)
    requires Distinct(d) && i < |d.records| == |t.answers| && WithinBudget(d, i)
    ensures var d' := Delete(uid, t.restoreMode, d, t.answers, t.end).d; Distinct(d') && WithinBudget(d', i)
  {
    hide Sweep, ReleaseOrphans;
    SweepFrame(uid, t.restoreMode, d, t.answers, |d.records|);
    SweepWithinBudget(uid, t.restoreMode, d, t.answers, |d.records|, i);
    OrphansReleased(Sweep(uid, t.restoreMode, d, t.answers, |d.records|).d, uid, t.end.listed, t.end.refusing);
  }

  lemma BetweenWithinBudget(d: D, t: Attempt, i: nat)
    requires Distinct(d) && WithinBudget(d, i)
    ensures Distinct(Between(d, t)) && WithinBudget(Between(d, t), i) && |Between(d, t).records| == |d.records|
  {
  }

  // ----- nothing of the policy is left -----

  /** A GPU that carries instances is not observed as empty. */
  predicate Faithful(c: Check, made: set<string>) {
    forall i :: 0 <= i < |c.obs| ==> c.obs[i].pci in made ==> !Empty(c.obs[i].geometry)
  }

  function MadeFor(uid: string, s: Spot, a: Answers): set<string> {
    if s.n.owner == uid && HardwareChanged(s.r.phase) then RolledBackAt(s, a).n.made else s.n.made
  }

  function MadeAfter(uid: string, d: D, i: nat, a: Answers): set<string>
    requires Known(d, i)
  {
    MadeFor(uid, SpotAt(d, i), a)
  }

  /** The journal accounts for the instances on its node (what module MigCoverage shows passes to keep). */
  predicate Accounted(e: Entry, made: set<string>) {
    made != {} ==> HardwareChanged(e.r.phase) && forall x :: x in made ==> x in e.r.pcis
  }

  lemma RestoredMeansEmpty(r: Record, c: Check, restoreMode: bool, made: set<string>)
    requires Restored(r, c, restoreMode) && Faithful(c, made) && (forall x :: x in made ==> x in r.pcis)
    ensures made == {}
  {
    forall x | x in r.pcis ensures x !in made {
      var o :| o in c.obs && o.pci == x;
      var i :| 0 <= i < |c.obs| && c.obs[i] == o;
      assert Allowed(c.obs[i], restoreMode);
    }
  }

  lemma RecordMade(uid: string, restoreMode: bool, shared: bool, s: Spot, a: Answers)
    requires DeleteOne(uid, restoreMode, shared, s, a).ok
    ensures DeleteOne(uid, restoreMode, shared, s, a).s.n.made == MadeFor(uid, s, a)
  {
    hide Passes, Undo, GiveBack, HardwareChanged, RolledBackAt;
    UndoProves(uid, restoreMode, s, a);
    StepsSteady(s, a);
  }

  lemma {:induction false} SweepMade(uid: string, restoreMode: bool, d: D, answers: seq<Answers>, k: nat)
    requires Distinct(d) && k <= |d.records| == |answers| && Sweep(uid, restoreMode, d, answers, k).ok
    ensures var d' := Sweep(uid, restoreMode, d, answers, k).d;
            && Distinct(d')
            && forall i :: 0 <= i < k ==> Known(d, i) && Known(d', i) && NodeAt(d', i).made == MadeAfter(uid, d, i, answers[i])
  {
    hide DeleteOne, MadeFor;
    SweepFrame(uid, restoreMode, d, answers, k);
    if k > 0 {
      SweepFrame(uid, restoreMode, d, answers, k - 1);
      SweepMade(uid, restoreMode, d, answers, k - 1);
      var d1 := Sweep(uid, restoreMode, d, answers, k - 1).d;
      assert Sweep(uid, restoreMode, d, answers, k) == DeleteAt(uid, restoreMode, d1, k - 1, answers[k - 1]);
      RecordMade(uid, restoreMode, d1.records[k - 1].shared, SpotAt(d1, k - 1), answers[k - 1]);
    }
  }

  /** When the journal accounted for all instances and the observations were true, a deletion that returns no error
      leaves no GPU instance of the policy on any node. */
  lemma DeletionLeavesNothing(uid: string, restoreMode: bool, d: D, answers: seq<Answers>, end: EndAnswers)
    requires uid != "" && Distinct(d) && |answers| == |d.records|
    requires forall n :: n in d.nodes ==> n in end.listed
    requires Delete(uid, restoreMode, d, answers, end).ok
    requires forall n :: n in d.nodes && d.nodes[n].made != {} ==> exists i :: 0 <= i < |d.records| && d.records[i].node == n
    requires forall i :: 0 <= i < |d.records| && Known(d, i) ==>
               Accounted(d.records[i], NodeAt(d, i).made) && Faithful(ProofOf(uid, d, i, answers[i]), MadeAfter(uid, d, i, answers[i]))
    ensures var d' := Delete(uid, restoreMode, d, answers, end).d; forall n :: n in d'.nodes ==> d'.nodes[n].made == {}
  {
    hide Sweep, ReleaseOrphans, Restored, HardwareChanged, Faithful;
    FinishedDeletion(uid, restoreMode, d, answers, end);
    SweepFrame(uid, restoreMode, d, answers, |d.records|);
    SweepMade(uid, restoreMode, d, answers, |d.records|);
    var s := Sweep(uid, restoreMode, d, answers, |d.records|).d;
    OrphansReleased(s, uid, end.listed, end.refusing);
    forall i | 0 <= i < |d.records| ensures Known(s, i) && NodeAt(s, i).made == {} {
      if NodeAt(d, i).made != {} {
        RestoredMeansEmpty(d.records[i].r, ProofOf(uid, d, i, answers[i]), restoreMode, MadeAfter(uid, d, i, answers[i]));
      }
    }
    var d' := Delete(uid, restoreMode, d, answers, end).d;
    forall n | n in d'.nodes ensures d'.nodes[n].made == {} {
      if i :| 0 <= i < |d.records| && d.records[i].node == n {
        assert NodeAt(s, i).made == {};
      } else {
        SweepElsewhere(uid, restoreMode, d, answers, |d.records|, n);
      }
    }
  }

  lemma {:induction false} SweepElsewhere(uid: string, restoreMode: bool, d: D, answers: seq<Answers>, k: nat, n: string)
    requires Distinct(d) && k <= |d.records| == |answers| && n in d.nodes
    requires forall i :: 0 <= i < |d.records| ==> d.records[i].node != n
    ensures var d' := Sweep(uid, restoreMode, d, answers, k).d; n in d'.nodes && d'.nodes[n] == d.nodes[n]
  {
    hide DeleteOne;
    if k > 0 {
      SweepFrame(uid, restoreMode, d, answers, k - 1);
      SweepElsewhere(uid, restoreMode, d, answers, k - 1, n);
    }
  }
}
