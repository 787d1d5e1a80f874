/** What one record's turn in a deletion needs, and what it leaves: on the node, in the record, and on the way out. */
module DeletionOutcomes {
  import opened MigModel
  import opened MigDeletion
  import opened MigDeletionProofs

  /** The answers that let a call go past the lease, the sharing rollback and the owner. */
  predicate LetIn(shared: bool, a: Answers) {
    a.leaseOK && a.ownerOK && (shared ==> a.sharingOK)
  }

  /** The node is given back: the Job cancelled, and a claimed cordon lifted and cleared. */
  predicate CanGiveBack(claims: bool, a: Answers) {
    a.jobOK && a.releaseOK && (claims ==> a.uncordonOK && a.uncordonedOK)
  }

  predicate GivenBack(claims: bool, s: Spot, t: Spot) {
    && t.n.owner == "" && !t.n.job && !t.r.cordoned
    && t.n.cordon == (if claims then Nobody else s.n.cordon)
  }

  /** GPUs whose mode reads on, and a mode that can be told for all of them. */
  predicate StillOn(devs: seq<MigDevice>) {
    exists d :: d in devs && d.current == Enabled && d.pci != ""
  }

  predicate ModesTold(devs: seq<MigDevice>) {
    forall d :: d in devs ==> !d.failed && d.current != Unread && d.current != Unknown
  }

  /** The recorded GPUs as the deletion observes them to switch their mode off. */
  function ModeView(s: Spot, a: Answers): seq<MigDevice> {
    if s.r.pcis == [] then [] else a.modeDevs
  }

  predicate ModeIsOff(s: Spot, a: Answers) {
    (s.r.pcis == [] || a.modeObserved) && ModesTold(ModeView(s, a)) && !StillOn(ModeView(s, a))
  }

  lemma ModeMeans(s: Spot, a: Answers)
    ensures NeedsModeDisable(ModeView(s, a)) <==> StillOn(ModeView(s, a))
    ensures ModeObservable(ModeView(s, a)) <==> ModesTold(ModeView(s, a))
  {
    var ds := ModeView(s, a);
    forall i | 0 <= i < |ds| ensures ds[i] in ds {}
    if d :| d in ds && d.current == Enabled && d.pci != "" { var i :| 0 <= i < |ds| && ds[i] == d; }
  }

  /** Switching the mode off takes a call that observed the GPUs; it is done when none is on. Otherwise one reboot is asked
      for, counted first, unless one is pending, the budget is used up, or a call fails; and the turn waits. */
  lemma RestoreModeIff(s: Spot, a: Answers)
    ensures var r := RestoreMode(s, a);
            && (r.ok <==> ModeIsOff(s, a))
            && (r.ok ==> r.s == s)
            && (r.s.n.disables == s.n.disables + 1 <==>
                  && (s.r.pcis == [] || a.modeObserved) && ModesTold(ModeView(s, a)) && StillOn(ModeView(s, a))
                  && a.jobLookupOK && !s.n.job && s.r.disableReboots < 2 && a.disableOK && a.countOK && a.rebootOK)
            && (r.s.n.disables != s.n.disables ==> r.s.n.job && r.s.r.disableReboots == s.r.disableReboots + 1)
  {
    hide NeedsModeDisable, ModeObservable, StillOn, ModesTold;
    ModeMeans(s, a);
  }

  /** The node as the rollback of a record leaves it: cordoned, and by the record's claim where it was open before. */
  predicate Fenced(s: Spot, t: Spot) {
    && (s.n.cordon != Nobody ==> t.n.cordon == s.n.cordon && t.r.cordoned == s.r.cordoned)
    && (s.n.cordon == Nobody ==> t.n.cordon == ByPolicy && t.r.cordoned)
  }

  predicate CanFence(s: Spot, a: Answers) {
    a.nodeOK && (s.n.cordon == Nobody ==> a.journalOK && a.cordonOK)
  }

  lemma FencesIff(s: Spot, a: Answers)
    ensures var r := CordonForRollback(s, a);
            && (r.ok <==> CanFence(s, a))
            && (r.ok ==> Fenced(s, r.s) && r.s == s.(r := s.r.(cordoned := r.s.r.cordoned), n := s.n.(cordon := r.s.n.cordon)))
            && (!r.ok ==> r.s.n == s.n && (s.n.cordon != Nobody ==> r.s == s))
  {
  }

  lemma GivesBackIff(s: Spot, uid: string, a: Answers)
    requires s.n.owner == uid
    ensures var r := GiveBackAll(uid, s, a);
            && (r.ok <==> CanGiveBack(s.r.cordoned, a))
            && (r.ok ==> GivenBack(s.r.cordoned, s, r.s) && r.s.n.made == s.n.made && r.s.r == s.r.(cordoned := false))
  {
  }

  lemma LetInMeans(shared: bool, a: Answers)
    ensures Admitted(shared, a) <==> LetIn(shared, a)
  {
  }

  /** A record without changed hardware is done exactly when its node could be given back, or was not the policy's. */
  lemma UnchangedDoneIff(uid: string, restoreMode: bool, shared: bool, s: Spot, a: Answers)
    requires !HardwareChanged(s.r.phase)
    ensures var r := DeleteOne(uid, restoreMode, shared, s, a);
            && (r.ok <==> LetIn(shared, a) && (s.n.owner == uid ==> CanGiveBack(s.r.cordoned, a)))
            && (r.ok && s.n.owner == uid ==> GivenBack(s.r.cordoned, s, r.s))
            && (s.n.owner != uid || !LetIn(shared, a) ==> r.s == s)
            && r.s.n.made == s.n.made
  {
    hide GiveBackAll, HardwareChanged, Undo, Passes;
    LetInMeans(shared, a);
    if s.n.owner == uid { GivesBackIff(s, uid, a); BackMakesNothing(uid, s, a); }
  }

  lemma BackMakesNothing(uid: string, s: Spot, a: Answers)
    ensures GiveBackAll(uid, s, a).s.n.made == s.n.made
  {
  }

  /** A record with changed hardware, on the policy's own node, is done exactly when: the node could be cordoned and was free of
      pods, the instances were removed and the plugin restarted, the mode is off where it has to be, the proof of restoration
      passed, and the node could be relabelled and given back. */
  lemma ChangedDoneIff(uid: string, restoreMode: bool, shared: bool, s: Spot, a: Answers)
    requires HardwareChanged(s.r.phase) && s.n.owner == uid
    ensures var r := DeleteOne(uid, restoreMode, shared, s, a);
            && (r.ok <==>
                  && LetIn(shared, a) && CanFence(s, a) && a.quiesced && a.rollbackOK && a.restartOK
                  && (restoreMode ==> ModeIsOff(s, a)) && Restored(s.r, a.check, restoreMode)
                  && a.labelOK && CanGiveBack(s.r.cordoned || s.n.cordon == Nobody, a))
            && (r.ok ==> GivenBack(s.r.cordoned || s.n.cordon == Nobody, s, r.s))
  {
    hide Undo, GiveBackAll, HardwareChanged, Passes, Restored, ModeIsOff;
    LetInMeans(shared, a);
    UndoneIff(uid, restoreMode, s, a);
  }

  lemma UndoneIff(uid: string, restoreMode: bool, s: Spot, a: Answers)
    requires s.n.owner == uid
    ensures var r := Undo(uid, restoreMode, s, a);
            && (r.ok <==>
                  && CanFence(s, a) && a.quiesced && a.rollbackOK && a.restartOK
                  && (restoreMode ==> ModeIsOff(s, a)) && Restored(s.r, a.check, restoreMode)
                  && a.labelOK && CanGiveBack(s.r.cordoned || s.n.cordon == Nobody, a))
            && (r.ok ==> GivenBack(s.r.cordoned || s.n.cordon == Nobody, s, r.s))
  {
    hide CordonForRollback, RestoreMode, GiveBack, ReleaseLock, Passes, Restored, ModeIsOff, StillOn, ModesTold;
    FencesIff(s, a);
    var s1 := CordonForRollback(s, a).s;
    var s3 := RolledBackAt(s1, a);
    RestoreModeIff(s3, a);
    assert CordonForRollback(s, a).ok ==> (ModeIsOff(s3, a) <==> ModeIsOff(s, a)) by {
      if CordonForRollback(s, a).ok { SameModeView(s, s3, a); }
    }
    PassesReads(s.r, s3.r, a.check, restoreMode) by { StepsSteady(s, a); }
    PassingIsRestored(s.r, a.check, restoreMode);
    BackAndFree(uid, s3, a);
  }

  lemma SameModeView(s: Spot, t: Spot, a: Answers)
    requires t.r.pcis == s.r.pcis
    ensures ModeIsOff(t, a) == ModeIsOff(s, a)
  {
  }

  lemma BackAndFree(uid: string, s: Spot, a: Answers)
    ensures var b := GiveBack(s, a);
            && (b.ok && ReleaseLock(b.s, uid, a).ok <==> CanGiveBack(s.r.cordoned, a))
            && (b.ok && s.n.owner == uid && ReleaseLock(b.s, uid, a).ok ==> GivenBack(s.r.cordoned, s, ReleaseLock(b.s, uid, a).s))
  {
  }

  /** Until the proof of restoration has passed, the node of a record with changed hardware stays cordoned, with the cordon
      claimed where the policy put it; and no instance is removed from a node that is open or still runs pods. */
  lemma StoppedStaysFenced(uid: string, restoreMode: bool, shared: bool, s: Spot, a: Answers)
    requires HardwareChanged(s.r.phase) && s.n.owner == uid
    ensures var r := DeleteOne(uid, restoreMode, shared, s, a);
            && (r.s.n.made != s.n.made ==> LetIn(shared, a) && CanFence(s, a) && a.quiesced)
            && (LetIn(shared, a) && CanFence(s, a) && !(a.quiesced && a.rollbackOK && a.restartOK && Restored(s.r, a.check, restoreMode)) ==>
                  Fenced(s, r.s) && r.s.n.owner == uid)
  {
    hide CordonForRollback, RestoreMode, GiveBack, ReleaseLock, Passes, Restored, HardwareChanged;
    LetInMeans(shared, a);
    FencesIff(s, a);
    var s1 := CordonForRollback(s, a).s;
    var s3 := RolledBackAt(s1, a);
    CordonsOf(s3, a);
    StepsSteady(s, a);
    StepsSteady(s3, a);
    PassesReads(s.r, s3.r, a.check, restoreMode);
    PassesReads(s.r, if restoreMode then RestoreMode(s3, a).s.r else s3.r, a.check, restoreMode);
    PassingIsRestored(s.r, a.check, restoreMode);
  }

  /** A call is finished exactly when every record's turn was, the daemon could be released and the nodes listed, no listed node
      of the policy refused to be freed, and the leases could be given back. */
  lemma FinishedIff(uid: string, restoreMode: bool, d: D, answers: seq<Answers>, end: EndAnswers)
    requires |answers| == |d.records|
    ensures Delete(uid, restoreMode, d, answers, end).ok <==>
              && Sweep(uid, restoreMode, d, answers, |d.records|).ok && end.daemonOK && end.listOK && end.leasesOK
              && ReleaseOrphans(Sweep(uid, restoreMode, d, answers, |d.records|).d, uid, end.listed, end.refusing).ok
  {
  }
}
