/** A policy that has converged (shouldReverify, monitorDrift, applyDriftVerdict, writeTargetStatus and carryCondTimes
    in internal/controller/acceleratorpartitionpolicy_controller.go; EvaluateDrift in internal/verification/drift.go):
    passes that only watch the advertisement, and conditions that keep their times. */
module Converged {

  // ----- conditions -----

  datatype Truth = Yes | No | Unsure

  datatype Condition = Condition(typ: string, status: Truth, reason: string, message: string, generation: int, since: nat)

  datatype Option<+T> = None | Some(value: T)

  function Find(cs: seq<Condition>, typ: string): Option<Condition> {
    if cs == [] then None else if cs[0].typ == typ then Some(cs[0]) else Find(cs[1..], typ)
  }

  predicate OneEach(cs: seq<Condition>) {
    forall i, k :: 0 <= i < k < |cs| ==> cs[i].typ != cs[k].typ
  }

  /** Sets a condition: its time moves only when its status does. */
  function SetCond(cs: seq<Condition>, typ: string, status: Truth, reason: string, message: string, generation: int, now: nat): seq<Condition> {
    if cs == [] then [Condition(typ, status, reason, message, generation, now)]
    else if cs[0].typ == typ then
      [Condition(typ, status, reason, message, generation, if cs[0].status == status then cs[0].since else now)] + cs[1..]
    else [cs[0]] + SetCond(cs[1..], typ, status, reason, message, generation, now)
  }

  lemma {:induction false} SetCondFinds(cs: seq<Condition>, typ: string, status: Truth, reason: string, message: string, generation: int, now: nat, other: string)
    ensures var c := SetCond(cs, typ, status, reason, message, generation, now);
            if other != typ then Find(c, other) == Find(cs, other)
            else var was := Find(cs, typ);
                 Find(c, typ) == Some(Condition(typ, status, reason, message, generation,
                                                if was.Some? && was.value.status == status then was.value.since else now))
  {
    if cs != [] && cs[0].typ != typ {
      SetCondFinds(cs[1..], typ, status, reason, message, generation, now, other);
      assert SetCond(cs, typ, status, reason, message, generation, now)[1..] == SetCond(cs[1..], typ, status, reason, message, generation, now);
    } else if cs != [] {
      assert SetCond(cs, typ, status, reason, message, generation, now)[1..] == cs[1..];
    }
  }

  // ----- carried times -----

  function Carried(prev: seq<Condition>, c: Condition): Condition {
    var o := Find(prev, c.typ);
    if o.Some? && o.value.status == c.status then c.(since := o.value.since) else c
  }

  method FindCondition(cs: seq<Condition>, typ: string) returns (r: Option<Condition>)
    ensures r == Find(cs, typ)
  {
    for i := 0 to |cs|
      invariant Find(cs, typ) == Find(cs[i..], typ)
    {
      if cs[i].typ == typ {
        return Some(cs[i]);
      }
      assert cs[i..][1..] == cs[i + 1..];
    }
    return None;
  }

  /** Rewrites the conditions of a new status in place. */
  method CarryCondTimes(prev: Option<seq<Condition>>, conditions: array<Condition>)
    modifies conditions
    ensures prev.None? ==> conditions[..] == old(conditions[..])
    ensures prev.Some? ==> forall i :: 0 <= i < conditions.Length ==> conditions[i] == Carried(prev.value, old(conditions[i]))
  {
    if prev.None? {
      return;
    }
    for i := 0 to conditions.Length
      invariant forall k :: 0 <= k < i ==> conditions[k] == Carried(prev.value, old(conditions[k]))
      invariant forall k :: i <= k < conditions.Length ==> conditions[k] == old(conditions[k])
    {
      var o := FindCondition(prev.value, conditions[i].typ);
      if o.Some? && o.value.status == conditions[i].status {
        conditions[i] := conditions[i].(since := o.value.since);
      }
    }
  }

  lemma FindsItself(cs: seq<Condition>, i: nat)
    requires i < |cs| && OneEach(cs)
    ensures Find(cs, cs[i].typ) == Some(cs[i])
  {
    if i > 0 {
      assert cs[0].typ != cs[i].typ;
      FindsItself(cs[1..], i - 1);
    }
  }

  /** Rewriting conditions that differ from the stored ones in their times only reproduces the stored ones exactly, so
      the write changes nothing; a condition whose status did change keeps its new time, and nothing but times moves. */
  lemma CarryReproduces(prev: seq<Condition>, next: seq<Condition>)
    requires OneEach(prev) && |next| == |prev|
    requires forall i :: 0 <= i < |next| ==> next[i].(since := prev[i].since) == prev[i]
    ensures forall i :: 0 <= i < |next| ==> Carried(prev, next[i]) == prev[i]
  {
    forall i | 0 <= i < |next| ensures Carried(prev, next[i]) == prev[i] {
      FindsItself(prev, i);
    }
  }

  lemma CarryMovesOnlyUnchangedTimes(prev: seq<Condition>, c: Condition, i: nat)
    requires OneEach(prev) && i < |prev| && prev[i].typ == c.typ
    ensures Carried(prev, c) == c.(since := if prev[i].status == c.status then prev[i].since else c.since)
  {
    FindsItself(prev, i);
  }

  // ----- watching -----

  datatype Phase = Ready | Degraded | Elsewhere

  datatype Status = Status(phase: Phase, conditions: seq<Condition>, observed: int)

  const DEGRADED := "Degraded"
  const DRIFT := "AdvertisementDrift"

  datatype Verdict = NoDrift | Suppressed | Suspected | Confirmed

  /** Everything one pass learns. blind: no verifier, a DRA node, a missing node or a read error. */
  datatype Look = Look(now: nat, grace: nat, blind: bool, based: bool, suppressed: bool, short: bool, lostConflict: bool)

  /** Advertising less than what was verified, with a basis to say so. */
  predicate Bad(l: Look) {
    l.based && !l.suppressed && l.short
  }

  function FirstSeen(cs: seq<Condition>): Option<nat> {
    var c := Find(cs, DEGRADED);
    if c.Some? && c.value.status == Unsure then Some(c.value.since) else None
  }

  predicate AlreadyConfirmed(cs: seq<Condition>) {
    var c := Find(cs, DEGRADED);
    c.Some? && c.value.status == Yes && c.value.reason == DRIFT
  }

  function Evaluate(l: Look, cs: seq<Condition>): Verdict {
    if !l.based then NoDrift
    else if l.suppressed then Suppressed
    else if !l.short then NoDrift
    else if AlreadyConfirmed(cs) then Confirmed
    else match FirstSeen(cs)
      case None => Suspected
      case Some(t) => if l.now - t >= l.grace then Confirmed else Suspected
  }

  function Applied(st: Status, v: Verdict, generation: int, now: nat): Status {
    match v
    case Confirmed => st.(phase := Degraded, conditions := SetCond(st.conditions, DEGRADED, Yes, DRIFT, "", generation, now))
    case Suspected => st.(phase := Ready, conditions := SetCond(st.conditions, DEGRADED, Unsure, "AdvertisementDriftSuspected", "", generation, now))
    case Suppressed => st.(phase := Ready, conditions := SetCond(st.conditions, DEGRADED, No, "AdvertisementCheckSuppressed", "", generation, now))
    case NoDrift => st.(phase := Ready, conditions := SetCond(st.conditions, DEGRADED, No, "AdvertisementConsistent", "", generation, now))
  }

  function Monitor(st: Status, generation: int, l: Look): Status {
    if l.blind then st else Applied(st, Evaluate(l, st.conditions), generation, l.now)
  }

  predicate ShouldReverify(st: Status, generation: int) {
    (st.phase != Ready && st.phase != Degraded) || st.observed != generation
  }

  /** The status a whole pass over the one target leaves; applied is what the applying path ends in. */
  function Reconcile(st: Status, generation: int, l: Look, applied: Status): Status {
    if l.lostConflict then Status(Elsewhere, [], generation)
    else if ShouldReverify(st, generation) then applied.(observed := generation)
    else Monitor(st, generation, l).(observed := generation)
  }

  predicate Settled(st: Status, generation: int) {
    (st.phase == Ready || st.phase == Degraded) && st.observed == generation
  }

  function Run(st: Status, generation: int, looks: seq<Look>): Status {
    if looks == [] then st
    else Reconcile(Run(st, generation, looks[..|looks| - 1]), generation, looks[|looks| - 1], st)
  }

  predicate Timely(looks: seq<Look>) {
    && (forall i, k :: 0 <= i < k < |looks| ==> looks[i].now <= looks[k].now)
    && (forall i :: 0 <= i < |looks| ==> !looks[i].lostConflict)
  }

  /** Every pass from i on saw too little advertised, or saw nothing. */
  predicate BadSince(looks: seq<Look>, i: nat) {
    i < |looks| && !looks[i].blind && forall k :: i <= k < |looks| ==> looks[k].blind || Bad(looks[k])
  }

  /** Some pass j confirmed what pass i had first seen, the grace of pass j later, and it never let up since i. */
  ghost predicate Earned(looks: seq<Look>, generation: int) {
    exists i: nat, j: nat :: i < j < |looks| && BadSince(looks, i) && looks[j].now - looks[i].now >= looks[j].grace
  }

  ghost predicate Watching(st: Status, looks: seq<Look>, generation: int) {
    && (FirstSeen(st.conditions).Some? ==>
          exists i: nat :: i < |looks| && BadSince(looks, i) && looks[i].now == FirstSeen(st.conditions).value)
    && (AlreadyConfirmed(st.conditions) ==> Earned(looks, generation))
    && (st.phase == Degraded ==> AlreadyConfirmed(st.conditions))
  }

  lemma BadSinceGrows(looks: seq<Look>, l: Look, i: nat)
    requires BadSince(looks, i) && (l.blind || Bad(l))
    ensures BadSince(looks + [l], i)
  {
    var more := looks + [l];
    assert forall k :: 0 <= k < |looks| ==> more[k] == looks[k];
  }

  lemma EarnedGrows(looks: seq<Look>, l: Look, generation: int)
    requires Earned(looks, generation) && (l.blind || Bad(l))
    ensures Earned(looks + [l], generation)
  {
    var i: nat, j: nat :| i < j < |looks| && BadSince(looks, i) && looks[j].now - looks[i].now >= looks[j].grace;
    BadSinceGrows(looks, l, i);
    var more := looks + [l];
    assert more[i] == looks[i] && more[j] == looks[j];
    assert i < j < |more| && BadSince(more, i) && more[j].now - more[i].now >= more[j].grace;
  }

  lemma WatchStep(st: Status, generation: int, looks: seq<Look>, l: Look)
    requires Settled(st, generation) && Watching(st, looks, generation) && !l.lostConflict
    ensures Watching(Reconcile(st, generation, l, st), looks + [l], generation)
  {
    hide Earned, BadSince, SetCond;
    var more := looks + [l];
    assert more[|looks|] == l;
    if l.blind || Bad(l) {
      if AlreadyConfirmed(st.conditions) { EarnedGrows(looks, l, generation); }
      if FirstSeen(st.conditions).Some? {
        var i: nat :| i < |looks| && BadSince(looks, i) && looks[i].now == FirstSeen(st.conditions).value;
        BadSinceGrows(looks, l, i);
        assert more[i] == looks[i];
        if !l.blind && l.now - looks[i].now >= l.grace { EarnedNow(more, i, generation); }
      }
    }
    if !l.blind {
      var st' := Reconcile(st, generation, l, st);
      var v := Evaluate(l, st.conditions);
      SetCondFinds(st.conditions, DEGRADED, Yes, DRIFT, "", generation, l.now, DEGRADED);
      SetCondFinds(st.conditions, DEGRADED, Unsure, "AdvertisementDriftSuspected", "", generation, l.now, DEGRADED);
      SetCondFinds(st.conditions, DEGRADED, No, "AdvertisementCheckSuppressed", "", generation, l.now, DEGRADED);
      SetCondFinds(st.conditions, DEGRADED, No, "AdvertisementConsistent", "", generation, l.now, DEGRADED);
      if v == Suspected && FirstSeen(st.conditions).None? {
        FreshSuspicion(looks, l);
      }
    }
  }

  lemma EarnedNow(looks: seq<Look>, i: nat, generation: int)
    requires looks != [] && i < |looks| - 1 && BadSince(looks, i)
    requires looks[|looks| - 1].now - looks[i].now >= looks[|looks| - 1].grace
    ensures Earned(looks, generation)
  {
    var j: nat := |looks| - 1;
    assert i < j < |looks|;
  }

  lemma FreshSuspicion(looks: seq<Look>, l: Look)
    requires !l.blind && Bad(l)
    ensures BadSince(looks + [l], |looks|)
  {
    assert (looks + [l])[|looks|] == l;
  }

  lemma {:induction false} RunWatches(st: Status, generation: int, looks: seq<Look>)
    requires Settled(st, generation) && Timely(looks) && st.phase == Ready && Find(st.conditions, DEGRADED).None?
    ensures Settled(Run(st, generation, looks), generation)
    ensures Watching(Run(st, generation, looks), looks, generation)
  {
    hide Watching, Reconcile;
    if looks == [] {
      assert Watching(st, looks, generation) by { NothingSeen(st, generation); }
    } else {
      var k := |looks| - 1;
      RunWatches(st, generation, looks[..k]);
      assert looks[..k] + [looks[k]] == looks;
      WatchStep(Run(st, generation, looks[..k]), generation, looks[..k], looks[k]);
      StaysSettled(Run(st, generation, looks[..k]), generation, looks[k], st);
      SameOutcome(Run(st, generation, looks[..k]), generation, looks[k], st);
    }
  }

  lemma NothingSeen(st: Status, generation: int)
    requires st.phase == Ready && Find(st.conditions, DEGRADED).None?
    ensures Watching(st, [], generation)
  {
  }

  lemma StaysSettled(st: Status, generation: int, l: Look, other: Status)
    requires Settled(st, generation) && !l.lostConflict
    ensures Settled(Reconcile(st, generation, l, other), generation)
  {
    hide SetCond, Evaluate;
  }

  lemma SameOutcome(st: Status, generation: int, l: Look, other: Status)
    requires Settled(st, generation)
    ensures Reconcile(st, generation, l, other) == Reconcile(st, generation, l, st)
  {
    hide SetCond, Evaluate;
  }

  /** A converged policy is called Degraded only after its advertisement was short, without a pass saying otherwise,
      for at least the grace period. */
  lemma DegradedIsEarned(st: Status, generation: int, looks: seq<Look>)
    requires Settled(st, generation) && Timely(looks) && st.phase == Ready && Find(st.conditions, DEGRADED).None?
    requires Run(st, generation, looks).phase == Degraded
    ensures exists i: nat, j: nat :: i < j < |looks| && BadSince(looks, i) && looks[j].now - looks[i].now >= looks[j].grace
  {
    RunWatches(st, generation, looks);
  }

  /** Once it is called Degraded it stays so until a pass sees the advertisement whole, or may not judge. */
  lemma DegradedStays(st: Status, generation: int, l: Look)
    requires Settled(st, generation) && AlreadyConfirmed(st.conditions) && st.phase == Degraded && !l.lostConflict
    ensures Reconcile(st, generation, l, st).phase == Degraded <==> l.blind || Bad(l)
  {
    hide SetCond;
  }

  /** The advertisement has been short since t, as the conditions say. */
  predicate SuspectedSince(cs: seq<Condition>, t: nat) {
    Find(cs, DEGRADED).Some? && Find(cs, DEGRADED).value.status == Unsure && Find(cs, DEGRADED).value.since == t
  }

  /** What one pass that can judge makes of a converged policy: a shortfall is suspected first, confirmed after the grace, and
      forgotten when it is over or may not be judged. */
  lemma JudgedAs(st: Status, generation: int, l: Look)
    requires Settled(st, generation) && !l.lostConflict && !l.blind
    ensures var st' := Reconcile(st, generation, l, st);
            && (Bad(l) && (AlreadyConfirmed(st.conditions) || exists t :: SuspectedSince(st.conditions, t) && l.now - t >= l.grace) ==>
                  st'.phase == Degraded && AlreadyConfirmed(st'.conditions))
            && (Bad(l) && !AlreadyConfirmed(st.conditions) ==>
                  forall t :: SuspectedSince(st.conditions, t) && l.now - t < l.grace ==>
                    st'.phase == Ready && SuspectedSince(st'.conditions, t))
            && (Bad(l) && !AlreadyConfirmed(st.conditions) && FirstSeen(st.conditions).None? ==>
                  st'.phase == Ready && SuspectedSince(st'.conditions, l.now))
            && (!Bad(l) ==> st'.phase == Ready && !AlreadyConfirmed(st'.conditions) && FirstSeen(st'.conditions).None?)
  {
    SetCondFinds(st.conditions, DEGRADED, Yes, DRIFT, "", generation, l.now, DEGRADED);
    SetCondFinds(st.conditions, DEGRADED, Unsure, "AdvertisementDriftSuspected", "", generation, l.now, DEGRADED);
    SetCondFinds(st.conditions, DEGRADED, No, "AdvertisementCheckSuppressed", "", generation, l.now, DEGRADED);
    SetCondFinds(st.conditions, DEGRADED, No, "AdvertisementConsistent", "", generation, l.now, DEGRADED);
    hide SetCond;
  }

  lemma {:induction false} ShortfallIsSuspected(st: Status, generation: int, looks: seq<Look>)
    requires Settled(st, generation) && Timely(looks) && st.phase == Ready && Find(st.conditions, DEGRADED).None? && looks != []
    requires forall i :: 0 <= i < |looks| ==> !looks[i].blind && Bad(looks[i])
    ensures var v := Run(st, generation, looks);
            && Settled(v, generation)
            && ((AlreadyConfirmed(v.conditions) && v.phase == Degraded) || SuspectedSince(v.conditions, looks[0].now))
  {
    hide Reconcile, AlreadyConfirmed, SuspectedSince;
    var k := |looks| - 1;
    var u := Run(st, generation, looks[..k]);
    assert looks[..k] + [looks[k]] == looks;
    if k > 0 {
      ShortfallIsSuspected(st, generation, looks[..k]);
    } else {
      NothingKnown(st);
    }
    StaysSettled(u, generation, looks[k], st);
    SameOutcome(u, generation, looks[k], st);
    JudgedAs(u, generation, looks[k]);
  }

  lemma NothingKnown(st: Status)
    requires Find(st.conditions, DEGRADED).None?
    ensures !AlreadyConfirmed(st.conditions) && FirstSeen(st.conditions).None?
  {
  }

  /** A converged policy whose advertisement is short in every pass is called Degraded in the first one that comes the grace
      after the shortfall was first seen, and stays so. */
  lemma ShortfallIsReported(st: Status, generation: int, looks: seq<Look>)
    requires Settled(st, generation) && Timely(looks) && st.phase == Ready && Find(st.conditions, DEGRADED).None?
    requires |looks| >= 2 && forall i :: 0 <= i < |looks| ==> !looks[i].blind && Bad(looks[i])
    requires looks[|looks| - 1].now - looks[0].now >= looks[|looks| - 1].grace
    ensures Run(st, generation, looks).phase == Degraded
  {
    hide Reconcile, AlreadyConfirmed, SuspectedSince;
    var k := |looks| - 1;
    var u := Run(st, generation, looks[..k]);
    ShortfallIsSuspected(st, generation, looks[..k]);
    SameOutcome(u, generation, looks[k], st);
    JudgedAs(u, generation, looks[k]);
  }
}
