/** The deletion as the program runs it: a loop over the records of the policy, each handled in place. */
module DeletionReconciler {
  import opened MigModel
  import opened MigDeletion

  class PolicyDeletion {
    const uid: string
    const restoreMode: bool
    var records: seq<Entry>
    var nodes: map<string, Node>

    function Value(): D
      reads this
    {
      D(records, nodes)
    }

    constructor (uid: string, restoreMode: bool, d: D)
      ensures Value() == d && this.uid == uid && this.restoreMode == restoreMode
    {
      this.uid, this.restoreMode, records, nodes := uid, restoreMode, d.records, d.nodes;
    }

    /** A step over record i left what r says. */
    ghost predicate Left(before: D, i: nat, r: Res, ok: bool)
      reads this
    {
      Known(before, i) && Value() == Put(before, i, r.s) && ok == r.ok
    }

    method SetRecord(i: nat, r: Record)
      requires Known(Value(), i)
      modifies this`records
      ensures Value() == Put(old(Value()), i, SpotAt(old(Value()), i).(r := r))
    {
      records := records[i := records[i].(r := r)];
      assert nodes == nodes[records[i].node := nodes[records[i].node]];
    }

    method SetNode(i: nat, n: Node)
      requires Known(Value(), i)
      modifies this`nodes
      ensures Value() == Put(old(Value()), i, SpotAt(old(Value()), i).(n := n))
    {
      nodes := nodes[records[i].node := n];
      assert records == records[i := records[i].(r := records[i].r)];
    }

    method CordonForRollback(i: nat, a: Answers) returns (ok: bool)
      requires Known(Value(), i)
      modifies this
      ensures Left(old(Value()), i, MigDeletion.CordonForRollback(SpotAt(old(Value()), i), a), ok)
    {
      SameSpot(Value(), i);
      if !a.nodeOK {
        return false;
      }
      if nodes[records[i].node].cordon != Nobody {
        return true;
      }
      if !a.journalOK {
        return false;
      }
      SetRecord(i, records[i].r.(cordoned := true));
      if !a.cordonOK {
        return false;
      }
      SetNode(i, nodes[records[i].node].(cordon := ByPolicy));
      return true;
    }

    method RestoreSchedulable(i: nat, a: Answers) returns (ok: bool)
      requires Known(Value(), i)
      modifies this
      ensures Left(old(Value()), i, GiveBack(SpotAt(old(Value()), i), a), ok)
    {
      SameSpot(Value(), i);
      if !a.jobOK {
        return false;
      }
      SetNode(i, nodes[records[i].node].(job := false));
      if !records[i].r.cordoned {
        return true;
      }
      if !a.uncordonOK {
        return false;
      }
      SetNode(i, nodes[records[i].node].(cordon := Nobody));
      if !a.uncordonedOK {
        return false;
      }
      SetRecord(i, records[i].r.(cordoned := false));
      return true;
    }

    method ReleaseNodeOwnerLock(i: nat, a: Answers) returns (ok: bool)
      requires Known(Value(), i)
      modifies this
      ensures Left(old(Value()), i, ReleaseLock(SpotAt(old(Value()), i), uid, a), ok)
    {
      SameSpot(Value(), i);
      if !a.releaseOK {
        return false;
      }
      var n := nodes[records[i].node];
      if n.owner == uid {
        SetNode(i, n.(owner := ""));
      }
      return true;
    }

    method RestoreMigModeDisabled(i: nat, a: Answers) returns (done: bool)
      requires Known(Value(), i)
      modifies this
      ensures Left(old(Value()), i, RestoreMode(SpotAt(old(Value()), i), a), done)
    {
      hide ModeObservable, NeedsModeDisable, Put, SpotAt, Known;
      ghost var d := Value();
      ghost var s := SpotAt(d, i);
      SameSpot(d, i);
      SpotReads(d, i);
      var devs := [];
      if records[i].r.pcis != [] {
        if !a.modeObserved {
          return false;
        }
        devs := a.modeDevs;
      }
      if !ModeObservable(devs) {
        return false;
      }
      if !NeedsModeDisable(devs) {
        return true;
      }
      if !a.jobLookupOK || nodes[records[i].node].job {
        return false;
      }
      if records[i].r.disableReboots >= MAX_REBOOTS {
        return false;
      }
      if !a.disableOK || !a.countOK {
        return false;
      }
      ghost var s1 := s.(r := s.r.(disableReboots := s.r.disableReboots + 1));
      PutTwice(d, i, s1, s1.(n := s1.n.(job := true, disables := s1.n.disables + 1)));
      SetRecord(i, records[i].r.(disableReboots := records[i].r.disableReboots + 1));
      if !a.rebootOK {
        return false;
      }
      SpotReads(Value(), i);
      var n := nodes[records[i].node];
      SetNode(i, n.(job := true, disables := n.disables + 1));
      return false;
    }

    method RollBackInstances(i: nat, a: Answers)
      requires Known(Value(), i)
      modifies this
      ensures Value() == Put(old(Value()), i, RolledBackAt(SpotAt(old(Value()), i), a))
    {
      var n := nodes[records[i].node];
      SetNode(i, n.(made := n.made - (set x | x in n.made && x in records[i].r.pcis && x in a.removed)));
    }

    method FinishDeletionRollback(i: nat, a: Answers) returns (ok: bool)
      requires Known(Value(), i)
      modifies this
      ensures Left(old(Value()), i, FinishRollback(restoreMode, SpotAt(old(Value()), i), a), ok)
    {
      hide RestoreMode, Passes;
      SameSpot(Value(), i);
      if restoreMode {
        ok := RestoreMigModeDisabled(i, a);
        if !ok {
          return;
        }
      }
      ok := AssertMigEmptyAndBaseline(records[i].r, a.check, restoreMode);
    }

    method UndoRecord(i: nat, a: Answers) returns (ok: bool)
      requires Known(Value(), i)
      modifies this
      ensures Left(old(Value()), i, Undo(uid, restoreMode, SpotAt(old(Value()), i), a), ok)
    {
      hide MigDeletion.CordonForRollback, GiveBack, ReleaseLock, FinishRollback, RolledBackAt, Put, SpotAt, Known;
      ghost var d := Value();
      ghost var s0 := SpotAt(d, i);
      ok := CordonForRollback(i, a);
      ghost var s1 := MigDeletion.CordonForRollback(s0, a).s;
      PutTwice(d, i, s1, RolledBackAt(s1, a));
      if !ok || !a.quiesced {
        return false;
      }
      RollBackInstances(i, a);
      ghost var s2 := RolledBackAt(s1, a);
      PutTwice(d, i, s2, FinishRollback(restoreMode, s2, a).s);
      if !a.rollbackOK || !a.restartOK {
        return false;
      }
      ok := FinishDeletionRollback(i, a);
      ghost var s3 := FinishRollback(restoreMode, s2, a).s;
      PutTwice(d, i, s3, GiveBack(s3, a).s);
      if !ok || !a.labelOK {
        return false;
      }
      ok := RestoreSchedulable(i, a);
      ghost var s4 := GiveBack(s3, a).s;
      PutTwice(d, i, s4, ReleaseLock(s4, uid, a).s);
      if !ok {
        return;
      }
      ok := ReleaseNodeOwnerLock(i, a);
    }

    method HandleRecord(i: nat, a: Answers) returns (ok: bool)
      requires i < |records|
      modifies this
      ensures Del(Value(), ok) == DeleteAt(uid, restoreMode, old(Value()), i, a)
    {
      hide GiveBackAll, Passes, Undo, HardwareChanged;
      if !Known(Value(), i) {
        return false;
      }
      SameSpot(Value(), i);
      if !a.leaseOK || (records[i].shared && !a.sharingOK) || !a.ownerOK {
        return false;
      }
      var changed := HardwareChanged(records[i].r.phase);
      if nodes[records[i].node].owner != uid {
        if !changed {
          return true;
        }
        ok := AssertMigEmptyAndBaseline(records[i].r, a.lookup, restoreMode);
        if !ok && a.markOK {
          SetRecord(i, records[i].r.(phase := CleanupBlocked));
        }
        return;
      }
      if changed {
        ok := UndoRecord(i, a);
        return;
      }
      ok := GiveNodeBack(i, a);
    }

    /** A record without changed hardware: the cordon and the lock go back. */
    method GiveNodeBack(i: nat, a: Answers) returns (ok: bool)
      requires Known(Value(), i)
      modifies this
      ensures Left(old(Value()), i, GiveBackAll(uid, SpotAt(old(Value()), i), a), ok)
    {
      hide GiveBack, ReleaseLock, Put, SpotAt, Known;
      ghost var d := Value();
      ghost var s := GiveBack(SpotAt(d, i), a).s;
      PutTwice(d, i, s, ReleaseLock(s, uid, a).s);
      ok := RestoreSchedulable(i, a);
      if !ok {
        return;
      }
      ok := ReleaseNodeOwnerLock(i, a);
    }

    method ReleaseOrphanOwnerLocks(listed: seq<string>, refusing: set<string>) returns (ok: bool)
      modifies this`nodes
      ensures Del(Value(), ok) == ReleaseOrphans(old(Value()), uid, listed, refusing)
    {
      for i := 0 to |listed|
        invariant ReleaseOrphans(Value(), uid, listed[i..], refusing) == ReleaseOrphans(old(Value()), uid, listed, refusing)
        invariant records == old(records)
      {
        var name := listed[i];
        assert listed[i..][0] == name && listed[i..][1..] == listed[i + 1..];
        if name in nodes && nodes[name].owner == uid {
          if name in refusing {
            return false;
          }
          nodes := nodes[name := nodes[name].(owner := "")];
        } else if name in nodes {
          assert nodes == nodes[name := nodes[name]];
        }
      }
      return true;
    }

    method HandleNvidiaDeletion(answers: seq<Answers>, end: EndAnswers) returns (ok: bool)
      requires |answers| == |records|
      modifies this
      ensures Del(Value(), ok) == Delete(uid, restoreMode, old(Value()), answers, end)
    {
      hide DeleteAt, ReleaseOrphans;
      ghost var d := Value();
      ok := true;
      for i := 0 to |records|
        invariant |records| == |d.records| == |answers|
        invariant ok && Del(Value(), true) == Sweep(uid, restoreMode, d, answers, i)
      {
        ok := HandleRecord(i, answers[i]);
        if !ok {
          assert Del(Value(), false) == Sweep(uid, restoreMode, d, answers, i + 1);
          StopsForGood(uid, restoreMode, d, answers, i + 1, |answers|);
          return;
        }
      }
      if !end.daemonOK || !end.listOK {
        return false;
      }
      ok := ReleaseOrphanOwnerLocks(end.listed, end.refusing);
      if !ok {
        return;
      }
      return end.leasesOK;
    }
  }

  lemma SpotReads(d: D, i: nat)
    requires Known(d, i)
    ensures i < |d.records| && d.records[i].node in d.nodes
    ensures SpotAt(d, i) == Spot(d.records[i].r, d.nodes[d.records[i].node])
  {
  }

  lemma SameSpot(d: D, i: nat)
    requires Known(d, i)
    ensures Put(d, i, SpotAt(d, i)) == d
  {
  }

  lemma PutTwice(d: D, i: nat, s: Spot, t: Spot)
    requires Known(d, i)
    ensures Known(Put(d, i, s), i) && SpotAt(Put(d, i, s), i) == s
    ensures Put(Put(d, i, s), i, t) == Put(d, i, t)
  {
  }
}
