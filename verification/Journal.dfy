/** The write-ahead journal of an operation (internal/operation/journal.go): append-only,
    one line per (step, epoch). */
module Journal {

  datatype Option<+T> = None | Some(value: T)

  datatype StepName =
    | Planned | LeaseAcquired | SnapshotTaken | Quiesced | ApplyStarted | ApplyFinished
    | RebootRequested | RebootObserved | DeviceResetRequested | VerifyStarted | Committed
    | RollbackStarted | RollbackFinished

  datatype Entry = Entry(step: StepName, epoch: nat, at: nat)

  predicate Recorded(j: seq<Entry>, step: StepName, epoch: nat) {
    exists i :: 0 <= i < |j| && j[i].step == step && j[i].epoch == epoch
  }

  predicate HasStep(j: seq<Entry>, step: StepName) {
    exists i :: 0 <= i < |j| && j[i].step == step
  }

  function Append(j: seq<Entry>, step: StepName, epoch: nat, at: nat): seq<Entry> {
    if Recorded(j, step, epoch) then j else j + [Entry(step, epoch, at)]
  }

  method AppendJournal(entries: seq<Entry>, step: StepName, epoch: nat, at: nat) returns (r: seq<Entry>)
    ensures r == Append(entries, step, epoch, at)
  {
    for i := 0 to |entries|
      invariant forall k :: 0 <= k < i ==> !(entries[k].step == step && entries[k].epoch == epoch)
    {
      if entries[i].step == step && entries[i].epoch == epoch {
        return entries;
      }
    }
    return entries + [Entry(step, epoch, at)];
  }

  /** Time of the first line of a step, whatever its epoch. */
  function FirstAt(j: seq<Entry>, step: StepName): Option<nat> {
    if j == [] then None
    else if j[0].step == step then Some(j[0].at)
    else FirstAt(j[1..], step)
  }

  /** Time of the last line of a step, whatever its epoch. */
  function LastAt(j: seq<Entry>, step: StepName): Option<nat> {
    if j == [] then None
    else
      var k := |j| - 1;
      if j[k].step == step then Some(j[k].at) else LastAt(j[..k], step)
  }

  /** The steps journaled at one epoch, in order. */
  function AtEpoch(j: seq<Entry>, epoch: nat): seq<StepName> {
    if j == [] then []
    else
      var k := |j| - 1;
      AtEpoch(j[..k], epoch) + if j[k].epoch == epoch then [j[k].step] else []
  }

  /** What every stored journal keeps: no (step, epoch) twice, epochs never go back and never pass
      the current one, and the lease was journaled exactly once per epoch 1..epoch. */
  ghost predicate WellKept(j: seq<Entry>, epoch: nat) {
    && (forall i, k :: 0 <= i < k < |j| ==> j[i].step != j[k].step || j[i].epoch != j[k].epoch)
    && (forall i, k :: 0 <= i < k < |j| ==> j[i].epoch <= j[k].epoch)
    && (forall i :: 0 <= i < |j| ==> j[i].epoch <= epoch)
    && (forall e: nat :: Recorded(j, LeaseAcquired, e) <==> 1 <= e <= epoch)
  }

  lemma RecordedAppend(j: seq<Entry>, x: Entry, step: StepName, epoch: nat)
    ensures Recorded(j + [x], step, epoch) <==> Recorded(j, step, epoch) || (x.step == step && x.epoch == epoch)
  {
    var j' := j + [x];
    assert j'[|j|] == x;
    if Recorded(j, step, epoch) {
      var i :| 0 <= i < |j| && j[i].step == step && j[i].epoch == epoch;
      assert j'[i] == j[i];
    }
    if Recorded(j', step, epoch) {
      var i :| 0 <= i < |j'| && j'[i].step == step && j'[i].epoch == epoch;
      assert i < |j| ==> j[i] == j'[i];
    }
  }

  lemma {:induction false} AtEpochRecorded(j: seq<Entry>, step: StepName, epoch: nat)
    ensures step in AtEpoch(j, epoch) <==> Recorded(j, step, epoch)
  {
    if j != [] {
      var k := |j| - 1;
      AtEpochRecorded(j[..k], step, epoch);
      RecordedAppend(j[..k], j[k], step, epoch);
      assert j == j[..k] + [j[k]];
    }
  }

  /** Journaling a step at the current epoch either changes nothing or adds it after every
      line of that epoch; other epochs keep their lines. */
  lemma AtEpochAppend(j: seq<Entry>, step: StepName, epoch: nat, at: nat, e: nat)
    ensures AtEpoch(Append(j, step, epoch, at), e)
         == AtEpoch(j, e) + (if e == epoch && !Recorded(j, step, epoch) then [step] else [])
    ensures j <= Append(j, step, epoch, at)
    ensures Recorded(Append(j, step, epoch, at), step, epoch)
  {
    if !Recorded(j, step, epoch) {
      var j' := j + [Entry(step, epoch, at)];
      assert j'[..|j|] == j;
      RecordedAppend(j, Entry(step, epoch, at), step, epoch);
    }
  }

  /** Journaling anything but a lease at the current epoch keeps the journal well kept. */
  lemma AppendKeeps(j: seq<Entry>, step: StepName, epoch: nat, at: nat)
    requires WellKept(j, epoch) && step != LeaseAcquired
    ensures WellKept(Append(j, step, epoch, at), epoch)
  {
    if !Recorded(j, step, epoch) {
      var x := Entry(step, epoch, at);
      forall e: nat
        ensures Recorded(j + [x], LeaseAcquired, e) <==> Recorded(j, LeaseAcquired, e)
      {
        RecordedAppend(j, x, LeaseAcquired, e);
      }
    }
  }

  /** Taking the lease raises the epoch by one and journals it there, as its first line. */
  lemma AppendLeaseKeeps(j: seq<Entry>, epoch: nat, at: nat)
    requires WellKept(j, epoch)
    ensures WellKept(Append(j, LeaseAcquired, epoch + 1, at), epoch + 1)
    ensures AtEpoch(Append(j, LeaseAcquired, epoch + 1, at), epoch + 1) == [LeaseAcquired]
    ensures Append(j, LeaseAcquired, epoch + 1, at) == j + [Entry(LeaseAcquired, epoch + 1, at)]
  {
    hide AtEpoch;
    assert !Recorded(j, LeaseAcquired, epoch + 1);
    var x := Entry(LeaseAcquired, epoch + 1, at);
    assert forall i :: 0 <= i < |j| ==> (j + [x])[i] == j[i];
    forall e: nat
      ensures Recorded(j + [x], LeaseAcquired, e) <==> Recorded(j, LeaseAcquired, e) || e == epoch + 1
    {
      RecordedAppend(j, x, LeaseAcquired, e);
    }
    NothingAbove(j, epoch, epoch + 1);
    AtEpochAppend(j, LeaseAcquired, epoch + 1, at, epoch + 1);
  }

  lemma NothingAbove(j: seq<Entry>, epoch: nat, e: nat)
    requires (forall i :: 0 <= i < |j| ==> j[i].epoch <= epoch) && epoch < e
    ensures AtEpoch(j, e) == []
  {
  }

  lemma {:induction false} FirstAtKept(j: seq<Entry>, j': seq<Entry>, step: StepName)
    requires j <= j' && FirstAt(j, step).Some?
    ensures FirstAt(j', step) == FirstAt(j, step)
  {
    if j[0].step != step {
      assert j[1..] <= j'[1..];
      FirstAtKept(j[1..], j'[1..], step);
    }
  }

  lemma {:induction false} FirstAtHas(j: seq<Entry>, step: StepName)
    ensures FirstAt(j, step).Some? <==> HasStep(j, step)
  {
    if j != [] && j[0].step != step {
      FirstAtHas(j[1..], step);
      if HasStep(j, step) {
        var i :| 0 <= i < |j| && j[i].step == step;
        assert j[1..][i - 1] == j[i];
      }
    }
  }

  /** Line i is the first of its step. */
  predicate FirstLine(j: seq<Entry>, i: nat, step: StepName) {
    i < |j| && j[i].step == step && forall k :: 0 <= k < i ==> j[k].step != step
  }

  predicate LastLine(j: seq<Entry>, i: nat, step: StepName) {
    i < |j| && j[i].step == step && forall k :: i < k < |j| ==> j[k].step != step
  }

  lemma {:induction false} FirstAtIsFirst(j: seq<Entry>, step: StepName) returns (i: nat)
    requires FirstAt(j, step).Some?
    ensures FirstLine(j, i, step) && j[i].at == FirstAt(j, step).value
  {
    if j[0].step == step {
      i := 0;
    } else {
      i := FirstAtIsFirst(j[1..], step);
      i := i + 1;
      assert forall k :: 1 <= k < i ==> j[k] == j[1..][k - 1];
    }
  }

  lemma {:induction false} LastAtIsLast(j: seq<Entry>, step: StepName) returns (i: nat)
    requires LastAt(j, step).Some?
    ensures LastLine(j, i, step) && j[i].at == LastAt(j, step).value
  {
    var n := |j| - 1;
    if j[n].step == step {
      i := n;
    } else {
      i := LastAtIsLast(j[..n], step);
      assert forall k :: i < k < n ==> j[k] == j[..n][k];
    }
  }
}
