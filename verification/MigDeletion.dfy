/** Deleting an NVIDIA partition policy (handleNvidiaDeletion in
    internal/controller/acceleratorpartitionpolicy_controller.go): record by record, the node is cordoned, its
    instances removed, the result observed, and the node given back. */
module MigDeletion {
  import opened MigModel

  datatype Observation = Observation(pci: string, current: Mode, geometry: Geometry, failed: bool)

  /** What the environment answers to one proof of restoration. */
  datatype Check = Check(observed: bool, obs: seq<Observation>, nodeRead: bool, allocatable: int)

  /** made and disables are bookkeeping: GPUs with instances of the policy, mode-disable reboots requested. */
  datatype Node = Node(owner: string, cordon: Cordon, job: bool, made: set<string>, disables: nat)

  datatype Entry = Entry(node: string, r: Record, shared: bool)

  datatype D = D(records: seq<Entry>, nodes: map<string, Node>)

  /** Answers while one record is handled: true where a call succeeds. removed: instances the rollback got rid of. */
  datatype Answers = Answers(
    leaseOK: bool, sharingOK: bool, ownerOK: bool, lookup: Check, markOK: bool,
    nodeOK: bool, journalOK: bool, cordonOK: bool, quiesced: bool, rollbackOK: bool, removed: set<string>, restartOK: bool,
    modeObserved: bool, modeDevs: seq<MigDevice>, jobLookupOK: bool, disableOK: bool, countOK: bool, rebootOK: bool,
    check: Check, labelOK: bool, jobOK: bool, uncordonOK: bool, uncordonedOK: bool, releaseOK: bool)

  datatype EndAnswers = EndAnswers(daemonOK: bool, listOK: bool, listed: seq<string>, refusing: set<string>, leasesOK: bool)

  /** One record and its node. */
  datatype Spot = Spot(r: Record, n: Node)

  /** ok: the handling went on; otherwise it returned an error and left s behind. */
  datatype Res = Res(s: Spot, ok: bool) {
    predicate IsFailure() { !ok }
    function PropagateFailure(): Res { this }
    function Extract(): Spot { s }
  }

  datatype Del = Del(d: D, ok: bool) {
    predicate IsFailure() { !ok }
    function PropagateFailure(): Del { this }
    function Extract(): D { d }
  }

  // ----- the proof of restoration -----

  predicate Empty(g: Geometry) {
    g == NoInstances || g == ModeOff
  }

  predicate Clean(o: Observation, restoreMode: bool) {
    !o.failed && (o.current == Enabled || (restoreMode && o.current == Disabled)) && Empty(o.geometry)
  }

  predicate Seen(obs: seq<Observation>, pci: string) {
    exists i :: 0 <= i < |obs| && obs[i].pci == pci
  }

  /** Every observed GPU is free of instances, every recorded one was observed, and the node advertises what it
      should: no less than before when the mode goes back too, exactly the untouched GPUs otherwise. */
  predicate Passes(r: Record, c: Check, restoreMode: bool) {
    && c.observed
    && (forall i :: 0 <= i < |c.obs| ==> Clean(c.obs[i], restoreMode))
    && (forall i :: 0 <= i < |r.pcis| ==> Seen(c.obs, r.pcis[i]))
    && c.nodeRead
    && (if restoreMode then c.allocatable >= r.baseline else c.allocatable == r.expectedFull)
  }

  /** In plain terms: every recorded GPU was seen, all that were seen are readable, empty and in a mode the policy allows,
      and the node advertises at least what it did before, or exactly its untouched GPUs. */
  ghost predicate Restored(r: Record, c: Check, restoreMode: bool) {
    && (forall x :: x in r.pcis ==> exists o :: o in c.obs && o.pci == x)
    && (forall i :: 0 <= i < |c.obs| ==> Allowed(c.obs[i], restoreMode))
    && c.observed && c.nodeRead
    && (if restoreMode then r.baseline <= c.allocatable else c.allocatable == r.expectedFull)
  }

  predicate Allowed(o: Observation, restoreMode: bool) {
    && !o.failed && (o.geometry == NoInstances || o.geometry == ModeOff)
    && (o.current == Enabled || (o.current == Disabled && restoreMode))
  }

  lemma PassingIsRestored(r: Record, c: Check, restoreMode: bool)
    ensures Passes(r, c, restoreMode) <==> Restored(r, c, restoreMode)
  {
    hide Seen, Clean, Allowed;
    AllSeen(r.pcis, c.obs);
    CleanIsAllowed(c, restoreMode);
  }

  lemma SeenMeans(obs: seq<Observation>, pci: string)
    ensures Seen(obs, pci) <==> exists o :: o in obs && o.pci == pci
  {
    if Seen(obs, pci) {
      var i :| 0 <= i < |obs| && obs[i].pci == pci;
      assert obs[i] in obs;
    }
  }

  lemma AllSeen(pcis: seq<string>, obs: seq<Observation>)
    ensures (forall i :: 0 <= i < |pcis| ==> Seen(obs, pcis[i])) <==> (forall x :: x in pcis ==> exists o :: o in obs && o.pci == x)
  {
    hide Seen;
    forall x | x in pcis ensures Seen(obs, x) <==> exists o :: o in obs && o.pci == x {
      SeenMeans(obs, x);
    }
    if forall x :: x in pcis ==> exists o :: o in obs && o.pci == x {
      forall i | 0 <= i < |pcis| ensures Seen(obs, pcis[i]) {
        assert pcis[i] in pcis;
      }
    }
  }

  lemma CleanIsAllowed(c: Check, restoreMode: bool)
    ensures (forall i :: 0 <= i < |c.obs| ==> Clean(c.obs[i], restoreMode)) <==> (forall i :: 0 <= i < |c.obs| ==> Allowed(c.obs[i], restoreMode))
  {
    forall o: Observation ensures Clean(o, restoreMode) == Allowed(o, restoreMode) {}
  }

  method AssertMigEmptyAndBaseline(r: Record, c: Check, restoreMode: bool) returns (ok: bool)
    ensures ok == Passes(r, c, restoreMode)
    ensures ok <==> Restored(r, c, restoreMode)
  {
    PassingIsRestored(r, c, restoreMode);
    hide Restored;
    if !c.observed {
      return false;
    }
    var seen := {};
    for i := 0 to |c.obs|
      invariant forall k :: 0 <= k < i ==> Clean(c.obs[k], restoreMode)
      invariant forall p :: p in seen <==> exists k :: 0 <= k < i && c.obs[k].pci == p
    {
      var o := c.obs[i];
      seen := seen + {o.pci};
      if o.failed {
        return false;
      }
      if !(o.current == Enabled || (restoreMode && o.current == Disabled)) {
        return false;
      }
      if !Empty(o.geometry) {
        return false;
      }
    }
    for i := 0 to |r.pcis|
      invariant forall k :: 0 <= k < i ==> Seen(c.obs, r.pcis[k])
    {
      if r.pcis[i] !in seen {
        return false;
      }
    }
    if !c.nodeRead {
      return false;
    }
    if restoreMode {
      return c.allocatable >= r.baseline;
    }
    return c.allocatable == r.expectedFull;
  }

  // ----- one record -----

  function CordonForRollback(s: Spot, a: Answers): Res {
    var s0 :- Res(s, a.nodeOK);
    if s0.n.cordon != Nobody then Res(s0, true)
    else
      var s1 :- Res(s0, a.journalOK);
      var s2 :- Res(s1.(r := s1.r.(cordoned := true)), a.cordonOK);
      Res(s2.(n := s2.n.(cordon := ByPolicy)), true)
  }

  /** restoreSchedulable: cancels a pending reboot, then lifts the policy's own cordon. */
  function GiveBack(s: Spot, a: Answers): Res {
    var s0 :- Res(s, a.jobOK);
    var s1 := s0.(n := s0.n.(job := false));
    if !s1.r.cordoned then Res(s1, true)
    else
      var s2 :- Res(s1, a.uncordonOK);
      var s3 :- Res(s2.(n := s2.n.(cordon := Nobody)), a.uncordonedOK);
      Res(s3.(r := s3.r.(cordoned := false)), true)
  }

  function Unlocked(n: Node, uid: string): Node {
    if n.owner == uid then n.(owner := "") else n
  }

  function ReleaseLock(s: Spot, uid: string, a: Answers): Res {
    var s0 :- Res(s, a.releaseOK);
    Res(s0.(n := Unlocked(s0.n, uid)), true)
  }

  predicate NeedsModeDisable(devs: seq<MigDevice>) {
    exists i :: 0 <= i < |devs| && devs[i].current == Enabled && devs[i].pci != ""
  }

  /** ok: the mode reads Disabled. A reboot that was requested, or is still pending, is waited for in a later call. */
  function RestoreMode(s: Spot, a: Answers): Res {
    var devs := if s.r.pcis == [] then [] else a.modeDevs;
    var s0 :- Res(s, (s.r.pcis == [] || a.modeObserved) && ModeObservable(devs));
    if !NeedsModeDisable(devs) then Res(s0, true)
    else
      var s1 :- Res(s0, a.jobLookupOK && !s0.n.job && s0.r.disableReboots < MAX_REBOOTS && a.disableOK && a.countOK);
      var s2 :- Res(s1.(r := s1.r.(disableReboots := s1.r.disableReboots + 1)), a.rebootOK);
      Res(s2.(n := s2.n.(job := true, disables := s2.n.disables + 1)), false)
  }

  /** The rollback command removes instances of the recorded GPUs. */
  function RolledBackAt(s: Spot, a: Answers): Spot {
    s.(n := s.n.(made := s.n.made - (set x | x in s.n.made && x in s.r.pcis && x in a.removed)))
  }

  /** The mode goes back before the proof, which could not pass while it is on. */
  function FinishRollback(restoreMode: bool, s: Spot, a: Answers): Res {
    var s1 :- if restoreMode then RestoreMode(s, a) else Res(s, true);
    Res(s1, Passes(s1.r, a.check, restoreMode))
  }

  function Undo(uid: string, restoreMode: bool, s: Spot, a: Answers): Res {
    var s1 :- CordonForRollback(s, a);
    var s2 :- Res(s1, a.quiesced);
    var s3 :- Res(RolledBackAt(s2, a), a.rollbackOK && a.restartOK);
    var s4 :- FinishRollback(restoreMode, s3, a);
    var s5 :- Res(s4, a.labelOK);
    var s6 :- GiveBack(s5, a);
    ReleaseLock(s6, uid, a)
  }

  function GiveBackAll(uid: string, s: Spot, a: Answers): Res {
    var s1 :- GiveBack(s, a);
    ReleaseLock(s1, uid, a)
  }

  predicate Admitted(shared: bool, a: Answers) {
    a.leaseOK && (shared ==> a.sharingOK) && a.ownerOK
  }

  function DeleteOne(uid: string, restoreMode: bool, shared: bool, s: Spot, a: Answers): Res {
    var s0 :- Res(s, Admitted(shared, a));
    var changed := HardwareChanged(s0.r.phase);
    if s0.n.owner != uid then
      if !changed || Passes(s0.r, a.lookup, restoreMode) then Res(s0, true)
      else Res(if a.markOK then s0.(r := s0.r.(phase := CleanupBlocked)) else s0, false)
    else if !changed then GiveBackAll(uid, s0, a)
    else Undo(uid, restoreMode, s0, a)
  }

  predicate Known(d: D, i: nat) {
    i < |d.records| && d.records[i].node in d.nodes
  }

  function SpotAt(d: D, i: nat): Spot
    requires Known(d, i)
  {
    Spot(d.records[i].r, d.nodes[d.records[i].node])
  }

  function Put(d: D, i: nat, s: Spot): D
    requires Known(d, i)
  {
    D(d.records[i := d.records[i].(r := s.r)], d.nodes[d.records[i].node := s.n])
  }

  /** A record whose node is gone ends the call: reading its owner fails. */
  function DeleteAt(uid: string, restoreMode: bool, d: D, i: nat, a: Answers): (r: Del)
    requires i < |d.records|
    ensures |r.d.records| == |d.records|
  {
    if !Known(d, i) then Del(d, false)
    else
      var r := DeleteOne(uid, restoreMode, d.records[i].shared, SpotAt(d, i), a);
      Del(Put(d, i, r.s), r.ok)
  }

  // ----- the whole call -----

  function Sweep(uid: string, restoreMode: bool, d: D, answers: seq<Answers>, k: nat): (r: Del)
    requires k <= |d.records| && |answers| == |d.records|
    ensures |r.d.records| == |d.records|
    decreases k
  {
    if k == 0 then Del(d, true)
    else
      var d1 :- Sweep(uid, restoreMode, d, answers, k - 1);
      DeleteAt(uid, restoreMode, d1, k - 1, answers[k - 1])
  }

  /** A sweep that stopped stays where it stopped. */
  lemma {:induction false} StopsForGood(uid: string, restoreMode: bool, d: D, answers: seq<Answers>, i: nat, k: nat)
    requires i <= k <= |d.records| == |answers| && !Sweep(uid, restoreMode, d, answers, i).ok
    ensures Sweep(uid, restoreMode, d, answers, k) == Sweep(uid, restoreMode, d, answers, i)
  {
    hide DeleteOne;
    if i < k {
      StopsForGood(uid, restoreMode, d, answers, i, k - 1);
    }
  }

  function Released(d: D, name: string, uid: string): D {
    if name in d.nodes then d.(nodes := d.nodes[name := Unlocked(d.nodes[name], uid)]) else d
  }

  function ReleaseOrphans(d: D, uid: string, listed: seq<string>, refusing: set<string>): (r: Del)
    ensures r.d.records == d.records
    decreases |listed|
  {
    if listed == [] then Del(d, true)
    else if listed[0] in d.nodes && d.nodes[listed[0]].owner == uid && listed[0] in refusing then Del(d, false)
    else ReleaseOrphans(Released(d, listed[0], uid), uid, listed[1..], refusing)
  }

  function Delete(uid: string, restoreMode: bool, d: D, answers: seq<Answers>, end: EndAnswers): (r: Del)
    requires |answers| == |d.records|
    ensures |r.d.records| == |d.records|
  {
    var d1 :- Sweep(uid, restoreMode, d, answers, |d.records|);
    var d2 :- Del(d1, end.daemonOK && end.listOK);
    var d3 :- ReleaseOrphans(d2, uid, end.listed, end.refusing);
    Del(d3, end.leasesOK)
  }
}
