/** Allocation figures on the inventory rows (attachAllocation, attachDRAAllocation and allocatableContainers in
    internal/apiserver/inventory.go). The rows are changed in place; the advertisement map of a node is one object
    that all its rows refer to. */
module Inventory {

  // ----- 32-bit figures -----

  const TWO_31 := 0x8000_0000
  const TWO_32 := 0x1_0000_0000

  /** The value an int32 holds after the arithmetic overflowed. */
  function Wrap(x: int): int {
    (x + TWO_31) % TWO_32 - TWO_31
  }

  lemma WrapAdd(a: int, b: int)
    ensures Wrap(Wrap(a) + b) == Wrap(a + b) && Wrap(a + Wrap(b)) == Wrap(a + b) && Wrap(Wrap(a)) == Wrap(a)
  {
    var qa, qb := (a + TWO_31) / TWO_32, (b + TWO_31) / TWO_32;
    assert Wrap(a) == a - qa * TWO_32 && Wrap(b) == b - qb * TWO_32;
    WrapShift(a + b, -qa);
    WrapShift(a + b, -qb);
    WrapShift(a, -qa);
  }

  lemma WrapShift(x: int, k: int)
    ensures Wrap(x + k * TWO_32) == Wrap(x)
  {
  }

  // ----- pods -----

  datatype Container = Container(requests: map<string, int>, limits: map<string, int>, restartsAlways: bool)

  datatype PodPhase = PodPending | PodRunning | PodOther

  datatype Pod = Pod(node: string, phase: PodPhase, containers: seq<Container>, inits: seq<Container>)

  /** Sidecars: init containers that keep running. */
  function Sidecars(inits: seq<Container>): seq<Container> {
    if inits == [] then []
    else
      var k := |inits| - 1;
      Sidecars(inits[..k]) + if inits[k].restartsAlways then [inits[k]] else []
  }

  method AllocatableContainers(p: Pod) returns (out: seq<Container>)
    ensures out == p.containers + Sidecars(p.inits)
  {
    out := p.containers;
    for i := 0 to |p.inits|
      invariant out == p.containers + Sidecars(p.inits[..i])
    {
      assert p.inits[..i + 1][..i] == p.inits[..i];
      if p.inits[i].restartsAlways {
        out := out + [p.inits[i]];
      }
    }
    assert p.inits[..|p.inits|] == p.inits;
  }

  predicate Counts(p: Pod) {
    p.node != "" && (p.phase == PodRunning || p.phase == PodPending)
  }

  predicate Names(c: Container, name: string) {
    name in c.requests || name in c.limits
  }

  /** What a container asks of a resource: its request, or its limit where it has no request. */
  function Ask(c: Container, name: string): int {
    if name in c.requests then c.requests[name] else if name in c.limits then c.limits[name] else 0
  }

  function SumAsks(cs: seq<Container>, name: string): int {
    if cs == [] then 0 else SumAsks(cs[..|cs| - 1], name) + Ask(cs[|cs| - 1], name)
  }

  /** The demand of the counted pods of a node for a resource. */
  function Demand(pods: seq<Pod>, node: string, name: string): int {
    if pods == [] then 0
    else
      var p := pods[|pods| - 1];
      Demand(pods[..|pods| - 1], node, name)
      + if Counts(p) && p.node == node then SumAsks(p.containers + Sidecars(p.inits), name) else 0
  }

  predicate AnyNames(cs: seq<Container>, name: string) {
    exists i :: 0 <= i < |cs| && Names(cs[i], name)
  }

  predicate Demanded(pods: seq<Pod>, node: string, name: string) {
    exists i :: 0 <= i < |pods| && Counts(pods[i]) && pods[i].node == node
             && AnyNames(pods[i].containers + Sidecars(pods[i].inits), name)
  }

  // ----- counting -----

  type Tally = map<string, map<string, int>>

  function Get(t: Tally, a: string, b: string): int {
    if a in t && b in t[a] then t[a][b] else 0
  }

  predicate Has(t: Tally, a: string, b: string) {
    a in t && b in t[a]
  }

  function Bump(t: Tally, a: string, b: string, q: int): Tally {
    var row := if a in t then t[a] else map[];
    t[a := row[b := Wrap((if b in row then row[b] else 0) + Wrap(q))]]
  }

  /** t2 is t1 with the asks of one container of a node counted in, for the names in done. */
  ghost predicate Counted(t1: Tally, t2: Tally, node: string, c: Container, done: set<string>) {
    forall a, b ::
      && Get(t2, a, b) == Wrap(Get(t1, a, b) + if a == node && b in done then Ask(c, b) else 0)
      && (Has(t2, a, b) <==> Has(t1, a, b) || (a == node && b in done))
  }

  ghost predicate Wrapped(t: Tally) {
    forall a, b :: Wrap(Get(t, a, b)) == Get(t, a, b)
  }

  lemma BumpCounts(t1: Tally, t: Tally, node: string, c: Container, done: set<string>, name: string)
    requires Counted(t1, t, node, c, done) && name !in done && Wrapped(t1)
    ensures Counted(t1, Bump(t, node, name, Ask(c, name)), node, c, done + {name})
  {
    var t2 := Bump(t, node, name, Ask(c, name));
    forall a, b
      ensures Get(t2, a, b) == Wrap(Get(t1, a, b) + if a == node && b in done + {name} then Ask(c, b) else 0)
      ensures Has(t2, a, b) <==> Has(t1, a, b) || (a == node && b in done + {name})
    {
      assert Wrap(Get(t1, a, b)) == Get(t1, a, b);
      if a == node && b == name {
        WrapAdd(Get(t, a, b), Ask(c, name));
      } else {
        assert Get(t2, a, b) == Get(t, a, b) && (Has(t2, a, b) <==> Has(t, a, b));
      }
    }
  }

  method CountRequests(t: Tally, node: string, c: Container, accelerators: set<string>) returns (r: Tally)
    requires Wrapped(t)
    ensures Counted(t, r, node, c, accelerators * c.requests.Keys)
  {
    hide Wrapped, Bump;
    r := t;
    var left := c.requests.Keys;
    NothingCounted(t, node, c);
    assert accelerators * (c.requests.Keys - left) == {};
    while left != {}
      invariant left <= c.requests.Keys
      invariant Counted(t, r, node, c, accelerators * (c.requests.Keys - left))
      decreases |left|
    {
      var name :| name in left;
      ghost var done := accelerators * (c.requests.Keys - left);
      left := left - {name};
      if name in accelerators {
        BumpCounts(t, r, node, c, done, name);
        r := Bump(r, node, name, c.requests[name]);
        assert done + {name} == accelerators * (c.requests.Keys - left);
      } else {
        assert done == accelerators * (c.requests.Keys - left);
      }
    }
    assert c.requests.Keys - left == c.requests.Keys;
  }

  lemma NothingCounted(t: Tally, node: string, c: Container)
    requires Wrapped(t)
    ensures Counted(t, t, node, c, {})
  {
    forall a, b ensures Get(t, a, b) == Wrap(Get(t, a, b)) {
      assert Wrap(Get(t, a, b)) == Get(t, a, b);
    }
  }

  /** A limit counts only where there is no request of that name. */
  method CountLimits(ghost t: Tally, t1: Tally, node: string, c: Container, accelerators: set<string>) returns (r: Tally)
    requires Wrapped(t) && Counted(t, t1, node, c, accelerators * c.requests.Keys)
    ensures Counted(t, r, node, c, accelerators * (c.requests.Keys + c.limits.Keys))
  {
    hide Wrapped, Bump, Counted, Wrap;
    r := t1;
    var left := c.limits.Keys;
    ghost var done := accelerators * c.requests.Keys;
    while left != {}
      invariant left <= c.limits.Keys
      invariant accelerators * c.requests.Keys <= done <= accelerators * (c.requests.Keys + c.limits.Keys)
      invariant forall k :: k in accelerators && k in c.limits && k !in left ==> k in done
      invariant forall k :: k in done ==> k in c.requests || k !in left
      invariant Counted(t, r, node, c, done)
      decreases |left|
    {
      var name :| name in left;
      left := left - {name};
      if name in accelerators && name !in c.requests {
        assert name !in done;
        BumpCounts(t, r, node, c, done, name);
        r := Bump(r, node, name, c.limits[name]);
        done := done + {name};
      }
    }
    assert done == accelerators * (c.requests.Keys + c.limits.Keys);
  }

  /** Requests first, then the limits; only accelerator resources count. */
  method CountContainer(t: Tally, node: string, c: Container, accelerators: set<string>) returns (r: Tally)
    requires Wrapped(t)
    ensures Counted(t, r, node, c, accelerators * (c.requests.Keys + c.limits.Keys))
    ensures Wrapped(r)
  {
    r := CountRequests(t, node, c, accelerators);
    r := CountLimits(t, r, node, c, accelerators);
    forall a, b ensures Wrap(Get(r, a, b)) == Get(r, a, b) {
      WrapAdd(Get(t, a, b) + if a == node && b in accelerators * (c.requests.Keys + c.limits.Keys) then Ask(c, b) else 0, 0);
    }
  }

  /** The tally of a list of pods: a key where there is demand, and the demand in 32 bits as its value. */
  ghost predicate Tallies(t: Tally, pods: seq<Pod>, accelerators: set<string>) {
    forall a, b ::
      && Get(t, a, b) == Wrap(if b in accelerators then Demand(pods, a, b) else 0)
      && (Has(t, a, b) <==> b in accelerators && Demanded(pods, a, b))
  }

  /** Midway through a pod: the first containers are counted too. */
  ghost predicate TalliesPart(t: Tally, pods: seq<Pod>, node: string, cs: seq<Container>, accelerators: set<string>) {
    forall a, b ::
      && Get(t, a, b) == Wrap(if b in accelerators then Demand(pods, a, b) + (if a == node then SumAsks(cs, b) else 0) else 0)
      && (Has(t, a, b) <==> b in accelerators && (Demanded(pods, a, b) || (a == node && AnyNames(cs, b))))
  }

  lemma PartStep(t: Tally, r: Tally, pods: seq<Pod>, node: string, cs: seq<Container>, j: nat, accelerators: set<string>)
    requires j < |cs| && TalliesPart(t, pods, node, cs[..j], accelerators)
    requires Counted(t, r, node, cs[j], accelerators * (cs[j].requests.Keys + cs[j].limits.Keys))
    ensures TalliesPart(r, pods, node, cs[..j + 1], accelerators)
  {
    var c := cs[j];
    assert cs[..j + 1][..j] == cs[..j];
    forall a, b
      ensures Get(r, a, b) == Wrap(if b in accelerators then Demand(pods, a, b) + (if a == node then SumAsks(cs[..j + 1], b) else 0) else 0)
      ensures Has(r, a, b) <==> b in accelerators && (Demanded(pods, a, b) || (a == node && AnyNames(cs[..j + 1], b)))
    {
      assert AnyNames(cs[..j + 1], b) <==> AnyNames(cs[..j], b) || Names(c, b) by { OneMoreName(cs, j, b); }
      var before := if b in accelerators then Demand(pods, a, b) + (if a == node then SumAsks(cs[..j], b) else 0) else 0;
      var more := if a == node && b in accelerators * (c.requests.Keys + c.limits.Keys) then Ask(c, b) else 0;
      assert Get(t, a, b) == Wrap(before) && Get(r, a, b) == Wrap(Get(t, a, b) + more);
      WrapAdd(before, more);
    }
  }

  lemma OneMoreName(cs: seq<Container>, j: nat, name: string)
    requires j < |cs|
    ensures AnyNames(cs[..j + 1], name) <==> AnyNames(cs[..j], name) || Names(cs[j], name)
  {
    var a, b := cs[..j], cs[..j + 1];
    assert b[j] == cs[j];
    assert forall k :: 0 <= k < j ==> a[k] == b[k];
  }

  lemma PodDone(t: Tally, pods: seq<Pod>, i: nat, accelerators: set<string>)
    requires i < |pods|
    requires if Counts(pods[i])
             then TalliesPart(t, pods[..i], pods[i].node, pods[i].containers + Sidecars(pods[i].inits), accelerators)
             else Tallies(t, pods[..i], accelerators)
    ensures Tallies(t, pods[..i + 1], accelerators)
  {
    var a0, b0 := pods[..i], pods[..i + 1];
    assert b0[..i] == a0 && b0[i] == pods[i];
    forall a, b
      ensures Demanded(b0, a, b)
           == (Demanded(a0, a, b)
               || (Counts(pods[i]) && pods[i].node == a && AnyNames(pods[i].containers + Sidecars(pods[i].inits), b)))
    {
      assert forall k :: 0 <= k < i ==> a0[k] == b0[k];
    }
  }

  method TallyPods(pods: seq<Pod>, accelerators: set<string>) returns (t: Tally)
    ensures Tallies(t, pods, accelerators)
  {
    t := map[];
    for i := 0 to |pods|
      invariant Tallies(t, pods[..i], accelerators) && Wrapped(t)
    {
      var p := pods[i];
      if Counts(p) {
        var cs := AllocatableContainers(p);
        for j := 0 to |cs|
          invariant Wrapped(t)
          invariant TalliesPart(t, pods[..i], p.node, cs[..j], accelerators)
        {
          var r := CountContainer(t, p.node, cs[j], accelerators);
          PartStep(t, r, pods[..i], p.node, cs, j, accelerators);
          t := r;
        }
        assert cs[..|cs|] == cs;
      }
      PodDone(t, pods, i, accelerators);
    }
    assert pods[..|pods|] == pods;
  }

  // ----- rows -----

  /** A map that several rows may refer to. */
  class Figures {
    var m: map<string, int>

    constructor (m: map<string, int>)
      ensures this.m == m
    {
      this.m := m;
    }
  }

  class Row {
    const node: string
    var nodeAdvertised: Figures?
    var nodeAllocated: Figures?
    var nodeFree: Figures?

    constructor (node: string, advertised: Figures?)
      ensures this.node == node && this.nodeAdvertised == advertised && this.nodeAllocated == null && this.nodeFree == null
    {
      this.node, this.nodeAdvertised, this.nodeAllocated, this.nodeFree := node, advertised, null, null;
    }
  }

  function Or0(m: map<string, int>, k: string): int {
    if k in m then m[k] else 0
  }

  /** The arithmetic a reader of three maps relies on. */
  predicate Balance(adv: map<string, int>, alloc: map<string, int>, free: map<string, int>) {
    && alloc.Keys == free.Keys
    && adv.Keys <= alloc.Keys
    && forall k :: k in alloc ==> free[k] == Wrap(Or0(adv, k) - alloc[k])
  }

  ghost predicate Balanced(r: Row)
    reads r, r.nodeAdvertised, r.nodeAllocated, r.nodeFree
  {
    r.nodeAdvertised != null && r.nodeAllocated != null && r.nodeFree != null && Balance(r.nodeAdvertised.m, r.nodeAllocated.m, r.nodeFree.m)
  }

  /** The figures written so far: for the names in done. */
  ghost predicate Filled(adv: map<string, int>, alloc: map<string, int>, a: map<string, int>, f: map<string, int>, done: set<string>) {
    && a.Keys == done && f.Keys == done
    && forall k :: k in done ==> a[k] == Or0(alloc, k) && f[k] == Wrap(Or0(adv, k) - Or0(alloc, k))
  }

  lemma FillStep(adv: map<string, int>, alloc: map<string, int>, a: map<string, int>, f: map<string, int>, done: set<string>, name: string)
    requires Filled(adv, alloc, a, f, done)
    ensures Filled(adv, alloc, a[name := Or0(alloc, name)], f[name := Wrap(Or0(adv, name) - Or0(alloc, name))], done + {name})
  {
    hide Wrap;
  }

  lemma FillNew(adv: map<string, int>, alloc: map<string, int>, a: map<string, int>, f: map<string, int>, done: set<string>, name: string)
    requires Filled(adv, alloc, a, f, done) && name in alloc && name !in adv
    ensures Filled(adv, alloc, a[name := alloc[name]], f[name := Wrap(-alloc[name])], done + {name})
  {
    hide Filled;
    FillStep(adv, alloc, a, f, done, name);
    assert Wrap(Or0(adv, name) - Or0(alloc, name)) == Wrap(-alloc[name]);
  }

  method FillAdvertised(adv: map<string, int>, alloc: map<string, int>, a: Figures, f: Figures)
    requires a != f && Filled(adv, alloc, a.m, f.m, {})
    modifies a, f
    ensures Filled(adv, alloc, a.m, f.m, adv.Keys)
  {
    hide Filled, Wrap;
    var left := adv.Keys;
    assert adv.Keys - left == {};
    while left != {}
      invariant left <= adv.Keys
      invariant Filled(adv, alloc, a.m, f.m, adv.Keys - left)
      decreases |left|
    {
      var name :| name in left;
      FillStep(adv, alloc, a.m, f.m, adv.Keys - left, name);
      assert adv.Keys - left + {name} == adv.Keys - (left - {name});
      left := left - {name};
      a.m := a.m[name := Or0(alloc, name)];
      f.m := f.m[name := Wrap(adv[name] - Or0(alloc, name))];
    }
    assert adv.Keys - left == adv.Keys;
  }

  method FillUnadvertised(adv: map<string, int>, alloc: map<string, int>, a: Figures, f: Figures)
    requires a != f && Filled(adv, alloc, a.m, f.m, adv.Keys)
    modifies a, f
    ensures Filled(adv, alloc, a.m, f.m, adv.Keys + alloc.Keys)
  {
    hide Filled, Wrap;
    var left := alloc.Keys;
    ghost var done := adv.Keys;
    while left != {}
      invariant left <= alloc.Keys && adv.Keys <= done <= adv.Keys + alloc.Keys
      invariant forall k :: k in alloc && k !in left ==> k in done
      invariant Filled(adv, alloc, a.m, f.m, done)
      decreases |left|
    {
      var name :| name in left;
      left := left - {name};
      if name in adv {
        continue;
      }
      FillNew(adv, alloc, a.m, f.m, done, name);
      done := done + {name};
      a.m := a.m[name := alloc[name]];
      f.m := f.m[name := Wrap(-alloc[name])];
    }
    assert done == adv.Keys + alloc.Keys;
  }

  method FillRow(r: Row, alloc: map<string, int>)
    requires r.nodeAdvertised != null
    modifies r`nodeAllocated, r`nodeFree
    ensures r.nodeAllocated != null && r.nodeFree != null && fresh(r.nodeAllocated) && fresh(r.nodeFree) && r.nodeAllocated != r.nodeFree
    ensures Balanced(r)
    ensures r.nodeAllocated.m.Keys == r.nodeAdvertised.m.Keys + alloc.Keys
    ensures forall k :: k in r.nodeAllocated.m ==> r.nodeAllocated.m[k] == Or0(alloc, k)
  {
    var a := new Figures(map[]);
    var f := new Figures(map[]);
    r.nodeAllocated := a;
    r.nodeFree := f;
    FillAdvertised(r.nodeAdvertised.m, alloc, a, f);
    FillUnadvertised(r.nodeAdvertised.m, alloc, a, f);
  }

  ghost predicate DistinctRows(items: seq<Row>) {
    forall i, k :: 0 <= i < k < |items| ==> items[i] != items[k]
  }

  /** Every row of an advertising node: the same keys on both sides, all advertised keys among them, free is what is
      advertised less what is allocated, and what is allocated is the demand of the node's pods. */
  ghost predicate Settled(r: Row, pods: seq<Pod>, accelerators: set<string>)
    reads r, r.nodeAdvertised, r.nodeAllocated, r.nodeFree
  {
    && Balanced(r)
    && (forall k :: k in r.nodeAllocated.m <==> k in r.nodeAdvertised.m || (k in accelerators && Demanded(pods, r.node, k)))
    && (forall k :: k in r.nodeAllocated.m ==> r.nodeAllocated.m[k] == Wrap(if k in accelerators then Demand(pods, r.node, k) else 0))
  }

  method SettleRow(r: Row, t: Tally, pods: seq<Pod>, accelerators: set<string>)
    requires r.nodeAdvertised != null && Tallies(t, pods, accelerators)
    modifies r`nodeAllocated, r`nodeFree
    ensures r.nodeAllocated != null && r.nodeFree != null && fresh(r.nodeAllocated) && fresh(r.nodeFree) && r.nodeAllocated != r.nodeFree
    ensures Settled(r, pods, accelerators)
  {
    hide Wrap, Demand, Demanded, Balance;
    var alloc := if r.node in t then t[r.node] else map[];
    FillRow(r, alloc);
    forall k: string ensures k in alloc <==> Has(t, r.node, k) {}
    forall k: string ensures Or0(alloc, k) == Get(t, r.node, k) {}
  }

  method AttachAllocation(items: seq<Row>, pods: seq<Pod>, accelerators: set<string>)
    requires DistinctRows(items)
    modifies set i | 0 <= i < |items| :: items[i]
    ensures forall i :: 0 <= i < |items| ==> items[i].nodeAdvertised == old(items[i].nodeAdvertised)
    ensures forall i :: 0 <= i < |items| && items[i].nodeAdvertised == null ==>
              items[i].nodeAllocated == old(items[i].nodeAllocated) && items[i].nodeFree == old(items[i].nodeFree)
    ensures forall i :: 0 <= i < |items| && items[i].nodeAdvertised != null ==>
              && Settled(items[i], pods, accelerators) && fresh(items[i].nodeAllocated) && fresh(items[i].nodeFree)
              && items[i].nodeAllocated != items[i].nodeFree
    ensures forall i, k :: 0 <= i < k < |items| && items[i].nodeAdvertised != null && items[k].nodeAdvertised != null ==>
              {items[i].nodeAllocated, items[i].nodeFree} !! {items[k].nodeAllocated, items[k].nodeFree}
  {
    hide Settled, Tallies;
    var t := TallyPods(pods, accelerators);
    for i := 0 to |items|
      invariant forall k :: 0 <= k < |items| ==> items[k].nodeAdvertised == old(items[k].nodeAdvertised)
      invariant forall k :: 0 <= k < |items| && (i <= k || items[k].nodeAdvertised == null) ==>
          items[k].nodeAllocated == old(items[k].nodeAllocated) && items[k].nodeFree == old(items[k].nodeFree)
      invariant forall k :: 0 <= k < i && items[k].nodeAdvertised != null ==>
          && Settled(items[k], pods, accelerators) && fresh(items[k].nodeAllocated) && fresh(items[k].nodeFree)
          && items[k].nodeAllocated != items[k].nodeFree
      invariant forall j, k :: 0 <= j < k < i && items[j].nodeAdvertised != null && items[k].nodeAdvertised != null ==>
          {items[j].nodeAllocated, items[j].nodeFree} !! {items[k].nodeAllocated, items[k].nodeFree}
    {
      var it := items[i];
      if it.nodeAdvertised != null {
        SettleRow(it, t, pods, accelerators);
      }
    }
  }

  // ----- dynamic resource allocation -----

  datatype ClaimResult = ClaimResult(pool: string, driver: string)

  /** None: a claim without an allocation. */
  datatype Claim = Unallocated | AllocatedTo(results: seq<ClaimResult>)

  function CountIn(rs: seq<ClaimResult>, pool: string, driver: string): int {
    if rs == [] then 0
    else CountIn(rs[..|rs| - 1], pool, driver) + if rs[|rs| - 1] == ClaimResult(pool, driver) then 1 else 0
  }

  function ResultCount(claims: seq<Claim>, pool: string, driver: string): int {
    if claims == [] then 0
    else
      var c := claims[|claims| - 1];
      ResultCount(claims[..|claims| - 1], pool, driver) + if c.AllocatedTo? then CountIn(c.results, pool, driver) else 0
  }

  method CountClaims(claims: seq<Claim>) returns (t: Tally)
    ensures forall a, b :: Get(t, a, b) == Wrap(ResultCount(claims, a, b))
  {
    t := map[];
    for i := 0 to |claims|
      invariant forall a, b :: Get(t, a, b) == Wrap(ResultCount(claims[..i], a, b))
    {
      assert claims[..i + 1][..i] == claims[..i];
      var c := claims[i];
      if c.Unallocated? {
        continue;
      }
      for j := 0 to |c.results|
        invariant forall a, b :: Get(t, a, b) == Wrap(ResultCount(claims[..i], a, b) + CountIn(c.results[..j], a, b))
      {
        assert c.results[..j + 1][..j] == c.results[..j];
        var r := c.results[j];
        ghost var before := t;
        t := Bump(t, r.pool, r.driver, 1);
        forall a, b
          ensures Get(t, a, b) == Wrap(ResultCount(claims[..i], a, b) + CountIn(c.results[..j + 1], a, b))
        {
          BumpOne(before, r, a, b, ResultCount(claims[..i], a, b) + CountIn(c.results[..j], a, b));
        }
      }
      assert c.results[..|c.results|] == c.results;
    }
    assert claims[..|claims|] == claims;
  }

  lemma BumpOne(t: Tally, r: ClaimResult, a: string, b: string, n: int)
    requires Get(t, a, b) == Wrap(n)
    ensures Get(Bump(t, r.pool, r.driver, 1), a, b) == Wrap(n + if r == ClaimResult(a, b) then 1 else 0)
  {
    WrapAdd(n, 1);
  }

  const DRA_PREFIX := "dra:"

  function DraKey(driver: string): string {
    DRA_PREFIX + driver
  }

  lemma DraKeyInjective(a: string, b: string)
    requires DraKey(a) == DraKey(b)
    ensures a == b
  {
    assert DraKey(a)[4..] == a && DraKey(b)[4..] == b;
  }

  ghost predicate IsDraKey(k: string, drivers: set<string>) {
    exists d :: d in drivers && k == DraKey(d)
  }

  /** What a node publishes: devices per driver, and the pools they lie in. */
  datatype Published = Published(slices: map<string, map<string, int>>, pools: map<string, map<string, seq<string>>>)

  function Drivers(p: Published, node: string): map<string, int> {
    if node in p.slices then p.slices[node] else map[]
  }

  /** The pools of a driver on a node; the node's own name where none is known. */
  function PoolsOf(p: Published, node: string, driver: string): seq<string> {
    if node in p.pools && driver in p.pools[node] && p.pools[node][driver] != [] then p.pools[node][driver] else [node]
  }

  function InPools(claims: seq<Claim>, pools: seq<string>, driver: string): int {
    if pools == [] then 0 else InPools(claims, pools[..|pools| - 1], driver) + ResultCount(claims, pools[|pools| - 1], driver)
  }

  method AddPools(t: Tally, claims: seq<Claim>, pools: seq<string>, driver: string) returns (n: int)
    requires forall a, b :: Get(t, a, b) == Wrap(ResultCount(claims, a, b))
    ensures n == Wrap(InPools(claims, pools, driver))
  {
    n := 0;
    for i := 0 to |pools|
      invariant n == Wrap(InPools(claims, pools[..i], driver))
    {
      assert pools[..i + 1][..i] == pools[..i];
      WrapAdd(InPools(claims, pools[..i], driver), Get(t, pools[i], driver));
      WrapAdd(InPools(claims, pools[..i], driver), ResultCount(claims, pools[i], driver));
      n := Wrap(n + Get(t, pools[i], driver));
    }
    assert pools[..|pools|] == pools;
  }

  /** m1 is m0 with an entry for each driver in done. */
  ghost predicate Extended(m0: map<string, int>, m1: map<string, int>, done: set<string>, value: map<string, int>) {
    && done <= value.Keys
    && (forall k :: k in m1 <==> k in m0 || IsDraKey(k, done))
    && (forall d :: d in done ==> DraKey(d) in m1 && m1[DraKey(d)] == value[d])
    && (forall k :: k in m0 && !IsDraKey(k, done) ==> m1[k] == m0[k])
  }

  lemma ExtendedNone(m: map<string, int>, value: map<string, int>)
    ensures Extended(m, m, {}, value)
  {
  }

  lemma ExtendStep(m0: map<string, int>, m1: map<string, int>, done: set<string>, value: map<string, int>, d: string)
    requires Extended(m0, m1, done, value) && d in value && d !in done
    ensures Extended(m0, m1[DraKey(d) := value[d]], done + {d}, value)
  {
    var m2 := m1[DraKey(d) := value[d]];
    forall k ensures IsDraKey(k, done + {d}) <==> IsDraKey(k, done) || k == DraKey(d) {
      if IsDraKey(k, done) {
        var e :| e in done && k == DraKey(e);
        assert e in done + {d};
      }
      assert d in done + {d};
    }
    forall e | e in done + {d} ensures DraKey(e) in m2 && m2[DraKey(e)] == value[e] {
      if e != d && DraKey(e) == DraKey(d) { DraKeyInjective(e, d); }
    }
  }

  function FreeOf(adv: map<string, int>, alloc: map<string, int>): map<string, int> {
    map d | d in adv && d in alloc :: Wrap(adv[d] - alloc[d])
  }

  method DraFigures(t: Tally, claims: seq<Claim>, p: Published, node: string, a: Figures, b: Figures, f: Figures)
    returns (ghost alloc: map<string, int>)
    requires forall x, y :: Get(t, x, y) == Wrap(ResultCount(claims, x, y))
    requires a != b && b != f && a != f
    modifies a, b, f
    ensures alloc.Keys == Drivers(p, node).Keys
    ensures forall d :: d in alloc ==> alloc[d] == Wrap(InPools(claims, PoolsOf(p, node, d), d))
    ensures Extended(old(a.m), a.m, Drivers(p, node).Keys, Drivers(p, node))
    ensures Extended(old(b.m), b.m, Drivers(p, node).Keys, alloc)
    ensures Extended(old(f.m), f.m, Drivers(p, node).Keys, FreeOf(Drivers(p, node), alloc))
  {
    hide Extended, Wrap, InPools;
    var drivers := Drivers(p, node);
    alloc := map d | d in drivers :: Wrap(InPools(claims, PoolsOf(p, node, d), d));
    ghost var free := FreeOf(drivers, alloc);
    var left := drivers.Keys;
    ghost var done: set<string> := {};
    ExtendedNone(a.m, drivers);
    ExtendedNone(b.m, alloc);
    ExtendedNone(f.m, free);
    while left != {}
      invariant left <= drivers.Keys && done == drivers.Keys - left
      invariant Extended(old(a.m), a.m, done, drivers)
      invariant Extended(old(b.m), b.m, done, alloc)
      invariant Extended(old(f.m), f.m, done, free)
      decreases |left|
    {
      var driver :| driver in left;
      left := left - {driver};
      var n := AddPools(t, claims, PoolsOf(p, node, driver), driver);
      ExtendStep(old(a.m), a.m, done, drivers, driver);
      ExtendStep(old(b.m), b.m, done, alloc, driver);
      ExtendStep(old(f.m), f.m, done, free, driver);
      done := done + {driver};
      assert n == alloc[driver] && free[driver] == Wrap(drivers[driver] - n);
      a.m := a.m[DraKey(driver) := drivers[driver]];
      b.m := b.m[DraKey(driver) := n];
      f.m := f.m[DraKey(driver) := Wrap(drivers[driver] - n)];
    }
    assert done == drivers.Keys;
  }

  /** Balanced, except perhaps for the entries of the node's drivers, which another row of the node may have added to
      the shared advertisement. */
  ghost predicate NearlyBalanced(adv: map<string, int>, alloc: map<string, int>, free: map<string, int>, drivers: set<string>) {
    && alloc.Keys == free.Keys
    && (forall k :: k in adv && !IsDraKey(k, drivers) ==> k in alloc)
    && (forall k :: k in alloc && !IsDraKey(k, drivers) ==> free[k] == Wrap(Or0(adv, k) - alloc[k]))
  }

  lemma ExtendedBalances(a0: map<string, int>, b0: map<string, int>, f0: map<string, int>,
                         a: map<string, int>, b: map<string, int>, f: map<string, int>, adv: map<string, int>, alloc: map<string, int>)
    requires NearlyBalanced(a0, b0, f0, adv.Keys) && adv.Keys == alloc.Keys
    requires Extended(a0, a, adv.Keys, adv) && Extended(b0, b, adv.Keys, alloc) && Extended(f0, f, adv.Keys, FreeOf(adv, alloc))
    ensures Balance(a, b, f)
  {
    hide Wrap;
    forall k | k in b ensures k in f && f[k] == Wrap(Or0(a, k) - b[k]) {
      if IsDraKey(k, adv.Keys) {
        var d :| d in adv.Keys && k == DraKey(d);
        assert a[DraKey(d)] == adv[d] && b[DraKey(d)] == alloc[d] && f[DraKey(d)] == FreeOf(adv, alloc)[d];
      }
    }
    assert b.Keys == f.Keys;
  }

  /** An extension that is already there changes nothing. */
  lemma ExtendedTwice(m0: map<string, int>, m1: map<string, int>, drivers: map<string, int>)
    requires Extended(m0, m1, drivers.Keys, drivers)
    requires forall d :: d in drivers ==> DraKey(d) in m0 && m0[DraKey(d)] == drivers[d]
    ensures m1 == m0
  {
    forall k ensures (k in m1 <==> k in m0) && (k in m0 ==> m1[k] == m0[k]) {
      if IsDraKey(k, drivers.Keys) {
        var d :| d in drivers.Keys && k == DraKey(d);
        assert m1[DraKey(d)] == drivers[d] && m0[DraKey(d)] == drivers[d];
      }
    }
  }

  /** Seen from another row of the node, the shared advertisement only gained driver entries. */
  lemma ExtendedNearly(a0: map<string, int>, a: map<string, int>, alloc: map<string, int>, free: map<string, int>, drivers: map<string, int>)
    requires NearlyBalanced(a0, alloc, free, drivers.Keys) && Extended(a0, a, drivers.Keys, drivers)
    ensures NearlyBalanced(a, alloc, free, drivers.Keys)
  {
    hide Wrap;
  }

  ghost predicate Fits(r: Row, p: Published)
    reads r, r.nodeAdvertised, r.nodeAllocated, r.nodeFree
  {
    if r.nodeAdvertised == null then r.nodeAllocated == null && r.nodeFree == null
    else r.nodeAllocated != null && r.nodeFree != null
         && NearlyBalanced(r.nodeAdvertised.m, r.nodeAllocated.m, r.nodeFree.m, Drivers(p, r.node).Keys)
  }

  /** The row shows every driver of its node, published and allocated, and its maps balance. */
  ghost predicate Finished(r: Row, p: Published, claims: seq<Claim>)
    reads r, r.nodeAdvertised, r.nodeAllocated, r.nodeFree
  {
    if Drivers(p, r.node) == map[] then Fits(r, p)
    else
      && Balanced(r)
      && forall d :: d in Drivers(p, r.node) ==>
           && DraKey(d) in r.nodeAdvertised.m && r.nodeAdvertised.m[DraKey(d)] == Drivers(p, r.node)[d]
           && DraKey(d) in r.nodeAllocated.m && r.nodeAllocated.m[DraKey(d)] == Wrap(InPools(claims, PoolsOf(p, r.node, d), d))
  }

  /** Entries other than the drivers': in a row that had an advertisement, every advertised name and every name in
      demand, each with the demand of the node's pods; in any other row none. */
  ghost predicate DemandKept(r: Row, p: Published, pods: seq<Pod>, accelerators: set<string>, had: bool)
    reads r, r.nodeAdvertised, r.nodeAllocated
  {
    r.nodeAdvertised != null && r.nodeAllocated != null ==>
      forall k :: !IsDraKey(k, Drivers(p, r.node).Keys) ==>
        && (k in r.nodeAllocated.m <==> had && (k in r.nodeAdvertised.m || (k in accelerators && Demanded(pods, r.node, k))))
        && (k in r.nodeAllocated.m ==> r.nodeAllocated.m[k] == Wrap(if k in accelerators then Demand(pods, r.node, k) else 0))
  }

  /** An advertisement loses nothing and gains, at most, the node's drivers. */
  ghost predicate Grown(m0: map<string, int>, m1: map<string, int>, drivers: map<string, int>) {
    m1 == m0 || Extended(m0, m1, drivers.Keys, drivers)
  }

  lemma GrownExtended(m0: map<string, int>, m1: map<string, int>, m2: map<string, int>, drivers: map<string, int>)
    requires Grown(m0, m1, drivers) && Extended(m1, m2, drivers.Keys, drivers)
    ensures Extended(m0, m2, drivers.Keys, drivers)
  {
  }

  /** Entries outside the drivers' are those of the shorter map. */
  lemma ExtendedKeeps(m0: map<string, int>, m1: map<string, int>, value: map<string, int>)
    requires Extended(m0, m1, value.Keys, value)
    ensures forall k :: !IsDraKey(k, value.Keys) ==> (k in m1 <==> k in m0) && (k in m0 ==> m1[k] == m0[k])
  {
  }

  /** The maps a row refers to. */
  datatype Shape = Shape(node: string, advertised: Figures?, alloc: Figures?, free: Figures?)

  function ShapeOf(r: Row): Shape
    reads r
  {
    Shape(r.node, r.nodeAdvertised, r.nodeAllocated, r.nodeFree)
  }

  predicate Apart(a: Shape, b: Shape) {
    && (a.alloc != null ==> a.alloc != b.alloc && a.alloc != b.free)
    && (a.free != null ==> a.free != b.alloc && a.free != b.free)
    && (a.advertised != null && a.advertised == b.advertised ==> a.node == b.node)
  }

  predicate AdvertisedApart(a: Shape, b: Shape) {
    a.advertised != null ==> a.advertised != b.alloc && a.advertised != b.free
  }

  function Shapes(items: seq<Row>): seq<Shape>
    reads items
  {
    seq(|items|, i requires 0 <= i < |items| reads items => ShapeOf(items[i]))
  }

  /** Own maps belong to one row; an advertisement is shared by rows of one node only. */
  ghost predicate SeparateShapes(ss: seq<Shape>) {
    && (forall i :: 0 <= i < |ss| && ss[i].alloc != null ==> ss[i].alloc != ss[i].free)
    && (forall i, k :: 0 <= i < |ss| && 0 <= k < |ss| && i != k ==> Apart(ss[i], ss[k]))
    && (forall i, k :: 0 <= i < |ss| && 0 <= k < |ss| ==> AdvertisedApart(ss[i], ss[k]))
  }

  ghost predicate Separate(items: seq<Row>)
    reads items
  {
    DistinctRows(items) && SeparateShapes(Shapes(items))
  }

  predicate New(c: Figures?, s: Shape) {
    c != s.advertised && c != s.alloc && c != s.free
  }

  /** A row that gets new maps of its own stays apart from every other. */
  lemma NewStaysSeparate(before: seq<Shape>, i: nat, s: Shape)
    requires SeparateShapes(before) && i < |before|
    requires s.advertised != null && s.alloc != null && s.free != null
    requires s.alloc != s.free && AdvertisedApart(s, s)
    requires forall k :: 0 <= k < |before| && k != i ==> New(s.advertised, before[k]) && New(s.alloc, before[k]) && New(s.free, before[k])
    ensures SeparateShapes(before[i := s])
  {
  }

  lemma SeparateAt(items: seq<Row>, i: nat)
    requires i < |items| && Separate(items)
    ensures AdvertisedApart(ShapeOf(items[i]), ShapeOf(items[i]))
    ensures items[i].nodeAllocated != null ==> items[i].nodeAllocated != items[i].nodeFree
    ensures forall k :: 0 <= k < |items| && k != i ==>
              && Apart(ShapeOf(items[i]), ShapeOf(items[k])) && Apart(ShapeOf(items[k]), ShapeOf(items[i]))
              && AdvertisedApart(ShapeOf(items[i]), ShapeOf(items[k])) && AdvertisedApart(ShapeOf(items[k]), ShapeOf(items[i]))
  {
    var ss := Shapes(items);
    assert ss[i] == ShapeOf(items[i]);
    assert forall k :: 0 <= k < |items| ==> ss[k] == ShapeOf(items[k]);
  }

  method DraRow(r: Row, t: Tally, claims: seq<Claim>, p: Published, ghost pods: seq<Pod>, ghost accelerators: set<string>, ghost had: bool)
    requires forall x, y :: Get(t, x, y) == Wrap(ResultCount(claims, x, y))
    requires Drivers(p, r.node) != map[] && Fits(r, p) && DemandKept(r, p, pods, accelerators, had)
    requires had <==> r.nodeAdvertised != null
    requires AdvertisedApart(ShapeOf(r), ShapeOf(r)) && (r.nodeAllocated != null ==> r.nodeAllocated != r.nodeFree)
    modifies r, r.nodeAdvertised, r.nodeAllocated, r.nodeFree
    ensures if old(r.nodeAdvertised) != null
            then r.nodeAdvertised == old(r.nodeAdvertised) && r.nodeAllocated == old(r.nodeAllocated) && r.nodeFree == old(r.nodeFree)
            else fresh(r.nodeAdvertised) && fresh(r.nodeAllocated) && fresh(r.nodeFree)
    ensures AdvertisedApart(ShapeOf(r), ShapeOf(r)) && r.nodeAllocated != r.nodeFree
    ensures Finished(r, p, claims) && DemandKept(r, p, pods, accelerators, had) && r.nodeAdvertised != null
    ensures old(r.nodeAdvertised) != null ==>
              Extended(old(r.nodeAdvertised.m), r.nodeAdvertised.m, Drivers(p, r.node).Keys, Drivers(p, r.node))
  {
    hide Extended, NearlyBalanced, Balance, InPools, Wrap, Demand, Demanded, IsDraKey;
    if r.nodeAdvertised == null {
      r.nodeAdvertised := new Figures(map[]);
      r.nodeAllocated := new Figures(map[]);
      r.nodeFree := new Figures(map[]);
      assert NearlyBalanced(map[], map[], map[], Drivers(p, r.node).Keys) by { EmptyNearly(Drivers(p, r.node).Keys); }
    }
    label Ready:
    ghost var a0, b0, f0 := r.nodeAdvertised.m, r.nodeAllocated.m, r.nodeFree.m;
    ghost var alloc := DraFigures(t, claims, p, r.node, r.nodeAdvertised, r.nodeAllocated, r.nodeFree);
    ExtendedBalances(a0, b0, f0, r.nodeAdvertised.m, r.nodeAllocated.m, r.nodeFree.m, Drivers(p, r.node), alloc);
    ExtendedShows(a0, r.nodeAdvertised.m, Drivers(p, r.node));
    ExtendedShows(b0, r.nodeAllocated.m, alloc);
    ExtendedKeeps(a0, r.nodeAdvertised.m, Drivers(p, r.node));
    ExtendedKeeps(b0, r.nodeAllocated.m, alloc);
  }

  lemma EmptyNearly(drivers: set<string>)
    ensures NearlyBalanced(map[], map[], map[], drivers)
  {
  }

  lemma ExtendedShows(m0: map<string, int>, m1: map<string, int>, value: map<string, int>)
    requires Extended(m0, m1, value.Keys, value)
    ensures forall d :: d in value ==> DraKey(d) in m1 && m1[DraKey(d)] == value[d]
    ensures forall k :: k in m1 && !IsDraKey(k, value.Keys) ==> k in m0 && m1[k] == m0[k]
  {
  }

  function Cells(items: seq<Row>): set<object>
    reads items
  {
    (set i | 0 <= i < |items| && items[i].nodeAdvertised != null :: items[i].nodeAdvertised)
    + (set i | 0 <= i < |items| && items[i].nodeAllocated != null :: items[i].nodeAllocated)
    + (set i | 0 <= i < |items| && items[i].nodeFree != null :: items[i].nodeFree)
  }

  ghost predicate Progress(items: seq<Row>, i: nat, p: Published, claims: seq<Claim>, pods: seq<Pod>, accelerators: set<string>, had: seq<bool>)
    reads items, Cells(items)
  {
    && Separate(items) && |had| == |items|
    && (forall k :: 0 <= k < |items| ==> DemandKept(items[k], p, pods, accelerators, had[k]))
    && (forall k :: i <= k < |items| ==> had[k] == (items[k].nodeAdvertised != null))
    && (forall k :: 0 <= k < i && k < |items| ==> Finished(items[k], p, claims))
    && (forall k :: i <= k < |items| ==> Fits(items[k], p))
  }

  datatype Adv = NoAdv | Adv(m: map<string, int>)

  /** The advertisement each row refers to. */
  function Advs(items: seq<Row>): seq<Adv>
    reads items, Cells(items)
  {
    seq(|items|, i requires 0 <= i < |items| reads items, Cells(items) =>
          if items[i].nodeAdvertised == null then NoAdv else Adv(items[i].nodeAdvertised.m))
  }

  /** What one row's turn does to the advertisements; a row with neither an advertisement nor drivers stays without. */
  ghost predicate StepGrown(items: seq<Row>, a0: seq<Adv>, a1: seq<Adv>, i: nat, p: Published) {
    && |a0| == |a1| == |items|
    && (forall k :: 0 <= k < |items| && a0[k].Adv? ==>
         && a1[k].Adv? && Grown(a0[k].m, a1[k].m, Drivers(p, items[k].node))
         && (k == i ==> Extended(a0[k].m, a1[k].m, Drivers(p, items[k].node).Keys, Drivers(p, items[k].node))))
    && forall k :: 0 <= k < |items| && a0[k].NoAdv? && Drivers(p, items[k].node) == map[] ==> a1[k].NoAdv?
  }

  /** What the turns of the first i rows did. */
  ghost predicate AllGrown(items: seq<Row>, a0: seq<Adv>, a1: seq<Adv>, i: nat, p: Published) {
    && |a0| == |a1| == |items|
    && (forall k :: 0 <= k < |items| && a0[k].Adv? ==>
         && a1[k].Adv? && Grown(a0[k].m, a1[k].m, Drivers(p, items[k].node))
         && (k < i ==> Extended(a0[k].m, a1[k].m, Drivers(p, items[k].node).Keys, Drivers(p, items[k].node))))
    && forall k :: 0 <= k < |items| && a0[k].NoAdv? && Drivers(p, items[k].node) == map[] ==> a1[k].NoAdv?
  }

  lemma AllGrownStep(items: seq<Row>, a0: seq<Adv>, a1: seq<Adv>, a2: seq<Adv>, i: nat, p: Published)
    requires AllGrown(items, a0, a1, i, p) && StepGrown(items, a1, a2, i, p)
    ensures AllGrown(items, a0, a2, i + 1, p)
  {
    hide Extended, Grown, Drivers;
    forall k | 0 <= k < |items| && a0[k].Adv?
      ensures Grown(a0[k].m, a2[k].m, Drivers(p, items[k].node))
      ensures k < i + 1 ==> Extended(a0[k].m, a2[k].m, Drivers(p, items[k].node).Keys, Drivers(p, items[k].node))
    {
      GrownTwice(a0[k].m, a1[k].m, a2[k].m, Drivers(p, items[k].node));
    }
  }

  lemma NothingGrown(items: seq<Row>, i: nat, p: Published)
    requires i < |items| && Drivers(p, items[i].node) == map[]
    ensures StepGrown(items, Advs(items), Advs(items), i, p)
  {
    if items[i].nodeAdvertised != null {
      ExtendedNone(items[i].nodeAdvertised.m, Drivers(p, items[i].node));
      assert Drivers(p, items[i].node).Keys == {};
    }
  }

  lemma NothingGrownYet(items: seq<Row>, p: Published)
    ensures AllGrown(items, Advs(items), Advs(items), 0, p)
  {
  }

  /** One row of the loop: its figures, and those of the rows that share its advertisement. */
  method DraFiguresOf(items: seq<Row>, i: nat, t: Tally, claims: seq<Claim>, p: Published, ghost pods: seq<Pod>, ghost accelerators: set<string>, ghost had: seq<bool>)
    requires i < |items| && Progress(items, i, p, claims, pods, accelerators, had) && Drivers(p, items[i].node) != map[]
    requires forall x, y :: Get(t, x, y) == Wrap(ResultCount(claims, x, y))
    modifies items[i], items[i].nodeAdvertised, items[i].nodeAllocated, items[i].nodeFree
    ensures if old(items[i].nodeAdvertised) != null then ShapeOf(items[i]) == old(ShapeOf(items[i]))
            else fresh(items[i].nodeAdvertised) && fresh(items[i].nodeAllocated) && fresh(items[i].nodeFree)
    ensures AdvertisedApart(ShapeOf(items[i]), ShapeOf(items[i])) && items[i].nodeAllocated != items[i].nodeFree
    ensures items[i].nodeAdvertised != null && items[i].nodeAllocated != null && items[i].nodeFree != null
    ensures forall k :: 0 <= k < |items| ==> DemandKept(items[k], p, pods, accelerators, had[k])
    ensures forall k :: 0 <= k < |items| && old(items[k].nodeAdvertised) != null ==> items[k].nodeAdvertised == old(items[k].nodeAdvertised)
    ensures forall k :: 0 <= k < |items| && old(items[k].nodeAdvertised) != null ==>
              Grown(old(items[k].nodeAdvertised.m), items[k].nodeAdvertised.m, Drivers(p, items[k].node))
    ensures old(items[i].nodeAdvertised) != null ==>
              Extended(old(items[i].nodeAdvertised.m), items[i].nodeAdvertised.m, Drivers(p, items[i].node).Keys, Drivers(p, items[i].node))
    ensures forall k :: 0 <= k < i + 1 ==> Finished(items[k], p, claims)
    ensures forall k :: i + 1 <= k < |items| ==> Fits(items[k], p)
  {
    hide Extended, NearlyBalanced, Balance, InPools, Wrap, Demand, Demanded, IsDraKey, SeparateShapes;
    var it := items[i];
    SeparateAt(items, i);
    ghost var a0 := if it.nodeAdvertised != null then it.nodeAdvertised.m else map[];
    DraRow(it, t, claims, p, pods, accelerators, had[i]);
    forall k | 0 <= k < |items| && k != i
      ensures DemandKept(items[k], p, pods, accelerators, had[k])
      ensures if k < i then Finished(items[k], p, claims) else Fits(items[k], p)
    {
      if it.nodeAdvertised == items[k].nodeAdvertised {
        ExtendedKeeps(a0, it.nodeAdvertised.m, Drivers(p, it.node));
        if k < i {
          ExtendedTwice(a0, it.nodeAdvertised.m, Drivers(p, it.node));
        } else {
          ExtendedNearly(a0, it.nodeAdvertised.m, items[k].nodeAllocated.m, items[k].nodeFree.m, Drivers(p, it.node));
        }
      }
    }
  }

  method DraStep(items: seq<Row>, i: nat, t: Tally, claims: seq<Claim>, p: Published, ghost pods: seq<Pod>, ghost accelerators: set<string>, ghost had: seq<bool>)
    requires i < |items| && Progress(items, i, p, claims, pods, accelerators, had)
    requires forall x, y :: Get(t, x, y) == Wrap(ResultCount(claims, x, y))
    modifies items[i], items[i].nodeAdvertised, items[i].nodeAllocated, items[i].nodeFree
    ensures Progress(items, i + 1, p, claims, pods, accelerators, had)
    ensures StepGrown(items, old(Advs(items)), Advs(items), i, p)
    ensures forall k :: 0 <= k < |items| && k != i ==> ShapeOf(items[k]) == old(ShapeOf(items[k]))
    ensures if old(items[i].nodeAdvertised) != null || Drivers(p, items[i].node) == map[] then ShapeOf(items[i]) == old(ShapeOf(items[i]))
            else fresh(items[i].nodeAdvertised) && fresh(items[i].nodeAllocated) && fresh(items[i].nodeFree)
  {
    hide Finished, Fits, DemandKept, Wrap, SeparateShapes, Extended;
    var it := items[i];
    if Drivers(p, it.node) == map[] {
      NothingGrown(items, i, p);
      UnpublishedFinished(it, p, claims);
      return;
    }
    ghost var kept := it.nodeAdvertised != null;
    ghost var before := Shapes(items);
    DraFiguresOf(items, i, t, claims, p, pods, accelerators, had);
    assert Shapes(items) == before[i := ShapeOf(it)];
    if kept {
      assert Shapes(items) == before;
    } else {
      NewStaysSeparate(before, i, ShapeOf(it));
    }
  }

  /** The same, as the loop sees it: no row gives up its advertisement, and every map in use was there or is new. */
  method DraTurn(items: seq<Row>, i: nat, t: Tally, claims: seq<Claim>, p: Published, ghost pods: seq<Pod>, ghost accelerators: set<string>, ghost had: seq<bool>)
    requires i < |items| && Progress(items, i, p, claims, pods, accelerators, had)
    requires forall x, y :: Get(t, x, y) == Wrap(ResultCount(claims, x, y))
    modifies items[i], Cells(items)
    ensures Progress(items, i + 1, p, claims, pods, accelerators, had)
    ensures StepGrown(items, old(Advs(items)), Advs(items), i, p)
    ensures forall k :: 0 <= k < |items| && old(items[k].nodeAdvertised) != null ==> items[k].nodeAdvertised == old(items[k].nodeAdvertised)
    ensures forall c :: c in Cells(items) ==> c in old(Cells(items)) || fresh(c)
  {
    hide Progress, StepGrown, Advs, Drivers, Wrap, ResultCount;
    assert items[i].nodeAdvertised != null ==> items[i].nodeAdvertised in Cells(items);
    assert items[i].nodeAllocated != null ==> items[i].nodeAllocated in Cells(items);
    assert items[i].nodeFree != null ==> items[i].nodeFree in Cells(items);
    DraStep(items, i, t, claims, p, pods, accelerators, had);
  }

  lemma UnpublishedFinished(r: Row, p: Published, claims: seq<Claim>)
    requires Drivers(p, r.node) == map[] && Fits(r, p)
    ensures Finished(r, p, claims)
  {
  }

  /** The loop over the rows. */
  method DraRows(items: seq<Row>, t: Tally, claims: seq<Claim>, p: Published, ghost pods: seq<Pod>, ghost accelerators: set<string>, ghost had: seq<bool>)
    requires Progress(items, 0, p, claims, pods, accelerators, had)
    requires forall x, y :: Get(t, x, y) == Wrap(ResultCount(claims, x, y))
    modifies items, Cells(items)
    ensures Progress(items, |items|, p, claims, pods, accelerators, had)
    ensures forall i :: 0 <= i < |items| && old(items[i].nodeAdvertised) != null ==> items[i].nodeAdvertised == old(items[i].nodeAdvertised)
    ensures AllGrown(items, old(Advs(items)), Advs(items), |items|, p)
  {
    hide Wrap, ResultCount, Drivers, AllGrown, StepGrown, Advs, Progress, Cells;
    NothingGrownYet(items, p);
    for i := 0 to |items|
      invariant Progress(items, i, p, claims, pods, accelerators, had)
      invariant forall c :: c in Cells(items) ==> c in old(Cells(items)) || fresh(c)
      invariant forall k :: 0 <= k < |items| && old(items[k].nodeAdvertised) != null ==> items[k].nodeAdvertised == old(items[k].nodeAdvertised)
      invariant AllGrown(items, old(Advs(items)), Advs(items), i, p)
    {
      ghost var before := Advs(items);
      DraTurn(items, i, t, claims, p, pods, accelerators, had);
      AllGrownStep(items, old(Advs(items)), before, Advs(items), i, p);
    }
  }

  method AttachCounted(items: seq<Row>, t: Tally, p: Published, claims: seq<Claim>, ghost pods: seq<Pod>, ghost accelerators: set<string>)
    requires Separate(items) && forall x, y :: Get(t, x, y) == Wrap(ResultCount(claims, x, y))
    requires forall i :: 0 <= i < |items| ==>
               Fits(items[i], p) && DemandKept(items[i], p, pods, accelerators, items[i].nodeAdvertised != null)
    modifies items, Cells(items)
    ensures Separate(items)
    ensures forall i :: 0 <= i < |items| ==>
              Finished(items[i], p, claims) && DemandKept(items[i], p, pods, accelerators, old(items[i].nodeAdvertised) != null)
    ensures forall i :: 0 <= i < |items| && old(items[i].nodeAdvertised) != null ==> items[i].nodeAdvertised == old(items[i].nodeAdvertised)
    ensures AllGrown(items, old(Advs(items)), Advs(items), |items|, p)
  {
    hide Finished, Fits, DemandKept, Separate, Wrap, Drivers, AllGrown, Progress, ResultCount, Get, Cells, Advs;
    ghost var had := seq(|items|, i requires 0 <= i < |items| => old(items[i].nodeAdvertised) != null);
    ProgressStarts(items, p, claims, pods, accelerators, had);
    DraRows(items, t, claims, p, pods, accelerators, had);
    ProgressEnds(items, p, claims, pods, accelerators, had);
  }

  method AttachDRAAllocation(items: seq<Row>, p: Published, claims: seq<Claim>, ghost pods: seq<Pod>, ghost accelerators: set<string>)
    requires Separate(items)
    requires forall i :: 0 <= i < |items| ==>
               Fits(items[i], p) && DemandKept(items[i], p, pods, accelerators, items[i].nodeAdvertised != null)
    modifies items, Cells(items)
    ensures Separate(items)
    ensures forall i :: 0 <= i < |items| ==>
              Finished(items[i], p, claims) && DemandKept(items[i], p, pods, accelerators, old(items[i].nodeAdvertised) != null)
    ensures forall i :: 0 <= i < |items| && old(items[i].nodeAdvertised) != null ==> items[i].nodeAdvertised == old(items[i].nodeAdvertised)
    ensures AllGrown(items, old(Advs(items)), Advs(items), |items|, p)
  {
    hide Finished, Fits, DemandKept, Separate, Wrap, AllGrown, ResultCount, Get;
    var t := CountClaims(claims);
    AttachCounted(items, t, p, claims, pods, accelerators);
  }

  lemma ProgressStarts(items: seq<Row>, p: Published, claims: seq<Claim>, pods: seq<Pod>, accelerators: set<string>, had: seq<bool>)
    requires Separate(items) && |had| == |items| && forall i :: 0 <= i < |items| ==> had[i] == (items[i].nodeAdvertised != null)
    requires forall i :: 0 <= i < |items| ==> Fits(items[i], p) && DemandKept(items[i], p, pods, accelerators, had[i])
    ensures Progress(items, 0, p, claims, pods, accelerators, had)
  {
    hide Separate, Fits, DemandKept, Finished;
  }

  lemma ProgressEnds(items: seq<Row>, p: Published, claims: seq<Claim>, pods: seq<Pod>, accelerators: set<string>, had: seq<bool>)
    requires Progress(items, |items|, p, claims, pods, accelerators, had)
    ensures Separate(items) && |had| == |items|
    ensures forall i :: 0 <= i < |items| ==> Finished(items[i], p, claims) && DemandKept(items[i], p, pods, accelerators, had[i])
  {
    hide Separate, Fits, DemandKept, Finished;
  }

  lemma GrownTwice(m0: map<string, int>, m1: map<string, int>, m2: map<string, int>, drivers: map<string, int>)
    requires Grown(m0, m1, drivers) && Grown(m1, m2, drivers)
    ensures Grown(m0, m2, drivers)
    ensures Extended(m0, m1, drivers.Keys, drivers) || Extended(m1, m2, drivers.Keys, drivers) ==> Extended(m0, m2, drivers.Keys, drivers)
  {
    hide Extended;
    if Extended(m1, m2, drivers.Keys, drivers) { GrownExtended(m0, m1, m2, drivers); }
  }

  lemma SettledFits(r: Row, p: Published, pods: seq<Pod>, accelerators: set<string>)
    requires Settled(r, pods, accelerators)
    ensures Fits(r, p) && DemandKept(r, p, pods, accelerators, true)
  {
    hide Wrap, Demand, Demanded, IsDraKey;
  }

  lemma FinishedBalances(r: Row, p: Published, claims: seq<Claim>)
    requires Finished(r, p, claims) && r.nodeAdvertised != null
    ensures Balanced(r)
  {
    hide Wrap;
    if Drivers(p, r.node) == map[] {
      assert forall k :: !IsDraKey(k, Drivers(p, r.node).Keys);
    }
  }

  /** Both steps over rows as they come from the inventory, the rows of one node sharing its advertisement: every row
      that shows figures balances; beside the drivers of the node it shows every name the node advertised and every name
      in demand, exactly with the demand of the node's pods; it counts every allocated claim in the driver's pools; and
      the advertisement it started with is there in full. */
  method AttachFigures(items: seq<Row>, pods: seq<Pod>, accelerators: set<string>, p: Published, claims: seq<Claim>)
    requires DistinctRows(items)
    requires forall i :: 0 <= i < |items| ==> items[i].nodeAllocated == null && items[i].nodeFree == null
    requires forall i, k | 0 <= i < |items| && 0 <= k < |items| && items[i].nodeAdvertised != null ::
               items[i].nodeAdvertised == items[k].nodeAdvertised ==> items[i].node == items[k].node
    modifies items, Cells(items)
    ensures Separate(items)
    ensures forall i :: 0 <= i < |items| ==>
              Finished(items[i], p, claims) && DemandKept(items[i], p, pods, accelerators, old(items[i].nodeAdvertised) != null)
    ensures forall i :: 0 <= i < |items| && items[i].nodeAdvertised != null ==> Balanced(items[i]) && items[i].nodeAllocated != items[i].nodeFree
    ensures forall i :: 0 <= i < |items| && old(items[i].nodeAdvertised) != null ==> items[i].nodeAdvertised == old(items[i].nodeAdvertised)
    ensures AllGrown(items, old(Advs(items)), Advs(items), |items|, p)
  {
    hide Settled, Fits, Finished, DemandKept, Balanced, Separate, AllGrown;
    ghost var before := Advs(items);
    AttachAllocation(items, pods, accelerators);
    assert Advs(items) == before;
    ReadyForDrivers(items, p, pods, accelerators);
    AttachDRAAllocation(items, p, claims, pods, accelerators);
    FinishedShows(items, p, claims);
  }

  /** Settled rows with maps of their own can take the drivers. */
  lemma ReadyForDrivers(items: seq<Row>, p: Published, pods: seq<Pod>, accelerators: set<string>)
    requires DistinctRows(items)
    requires forall i, k | 0 <= i < |items| && 0 <= k < |items| && items[i].nodeAdvertised != null ::
               items[i].nodeAdvertised == items[k].nodeAdvertised ==> items[i].node == items[k].node
    requires forall i :: 0 <= i < |items| ==>
               if items[i].nodeAdvertised == null then items[i].nodeAllocated == null && items[i].nodeFree == null
               else Settled(items[i], pods, accelerators) && items[i].nodeAllocated != items[i].nodeFree
    requires forall i, k :: 0 <= i < k < |items| && items[i].nodeAdvertised != null && items[k].nodeAdvertised != null ==>
               {items[i].nodeAllocated, items[i].nodeFree} !! {items[k].nodeAllocated, items[k].nodeFree}
    requires forall i, k :: 0 <= i < |items| && 0 <= k < |items| && items[i].nodeAdvertised != null ==>
               items[i].nodeAdvertised != items[k].nodeAllocated && items[i].nodeAdvertised != items[k].nodeFree
    ensures Separate(items)
    ensures forall i :: 0 <= i < |items| ==>
              Fits(items[i], p) && DemandKept(items[i], p, pods, accelerators, items[i].nodeAdvertised != null)
  {
    hide Settled, Fits, DemandKept;
    forall i | 0 <= i < |items|
      ensures Fits(items[i], p) && DemandKept(items[i], p, pods, accelerators, items[i].nodeAdvertised != null)
    {
      if items[i].nodeAdvertised != null {
        SettledFits(items[i], p, pods, accelerators);
      } else {
        BareFits(items[i], p, pods, accelerators);
      }
    }
    forall i | 0 <= i < |items| && items[i].nodeAdvertised != null
      ensures items[i].nodeAllocated != null && items[i].nodeFree != null
    {
      SettledShows(items[i], pods, accelerators);
    }
    ghost var ss := Shapes(items);
    forall i, k | 0 <= i < |ss| && 0 <= k < |ss|
      ensures (i != k ==> Apart(ss[i], ss[k])) && AdvertisedApart(ss[i], ss[k])
    {
      assert ss[i] == ShapeOf(items[i]) && ss[k] == ShapeOf(items[k]);
      if i != k && items[i].nodeAdvertised != null && items[k].nodeAdvertised != null {
        var a, b := if i < k then i else k, if i < k then k else i;
        assert {items[a].nodeAllocated, items[a].nodeFree} !! {items[b].nodeAllocated, items[b].nodeFree};
      }
    }
  }

  lemma SettledShows(r: Row, pods: seq<Pod>, accelerators: set<string>)
    requires Settled(r, pods, accelerators)
    ensures r.nodeAllocated != null && r.nodeFree != null
  {
  }

  lemma FinishedShows(items: seq<Row>, p: Published, claims: seq<Claim>)
    requires Separate(items) && forall i :: 0 <= i < |items| ==> Finished(items[i], p, claims)
    ensures forall i :: 0 <= i < |items| && items[i].nodeAdvertised != null ==>
              Balanced(items[i]) && items[i].nodeAllocated != items[i].nodeFree
  {
    hide Finished, Balanced, Separate;
    forall i | 0 <= i < |items| && items[i].nodeAdvertised != null
      ensures Balanced(items[i]) && items[i].nodeAllocated != items[i].nodeFree
    {
      FinishedBalances(items[i], p, claims);
      BalancedShows(items[i]);
      SeparateAt(items, i);
    }
  }

  lemma BalancedShows(r: Row)
    requires Balanced(r)
    ensures r.nodeAllocated != null
  {
  }

  lemma BareFits(r: Row, p: Published, pods: seq<Pod>, accelerators: set<string>)
    requires r.nodeAdvertised == null && r.nodeAllocated == null && r.nodeFree == null
    ensures Fits(r, p) && DemandKept(r, p, pods, accelerators, false)
  {
  }

  // ----- what is counted -----

  /** A request counts for itself, a limit only in its absence, and nothing else. */
  lemma AskMeans(requests: map<string, int>, limits: map<string, int>, always: bool, name: string, n: int, m: int)
    ensures Ask(Container(requests[name := n], limits[name := m], always), name) == n
    ensures name !in requests ==> Ask(Container(requests, limits[name := m], always), name) == m
    ensures name !in requests && name !in limits ==> Ask(Container(requests, limits, always), name) == 0
  {
  }

  /** Of the init containers, those that keep running count, each as often as it is there. */
  lemma {:induction false} SidecarsMean(inits: seq<Container>, c: Container)
    ensures multiset(Sidecars(inits))[c] == if c.restartsAlways then multiset(inits)[c] else 0
  {
    if inits != [] {
      var k := |inits| - 1;
      SidecarsMean(inits[..k], c);
      assert inits == inits[..k] + [inits[k]];
    }
  }

  /** A pod adds the asks of what it runs to the demand of its own node, while it runs or is about to. */
  lemma PodAdds(pods: seq<Pod>, p: Pod, node: string, name: string)
    ensures Demand(pods + [p], node, name)
         == Demand(pods, node, name)
            + if node != "" && p.node == node && (p.phase == PodPending || p.phase == PodRunning)
              then SumAsks(p.containers + Sidecars(p.inits), name) else 0
  {
    assert (pods + [p])[..|pods|] == pods;
  }

  /** The tally of claims is the number of times a result names the pool and the driver. */
  lemma {:induction false} CountMeans(rs: seq<ClaimResult>, pool: string, driver: string)
    ensures CountIn(rs, pool, driver) == multiset(rs)[ClaimResult(pool, driver)]
  {
    if rs != [] {
      var k := |rs| - 1;
      CountMeans(rs[..k], pool, driver);
      assert rs == rs[..k] + [rs[k]];
    }
  }

  lemma ClaimAdds(claims: seq<Claim>, rs: seq<ClaimResult>, pool: string, driver: string)
    ensures ResultCount(claims + [AllocatedTo(rs)], pool, driver) == ResultCount(claims, pool, driver) + multiset(rs)[ClaimResult(pool, driver)]
    ensures ResultCount(claims + [Unallocated], pool, driver) == ResultCount(claims, pool, driver)
  {
    CountMeans(rs, pool, driver);
    assert (claims + [AllocatedTo(rs)])[..|claims|] == claims && (claims + [Unallocated])[..|claims|] == claims;
  }

  /** Devices lie in the pools that were published for the driver, or in the pool named like the node. */
  lemma PoolsMean(p: Published, node: string, driver: string, pools: seq<string>)
    ensures node !in p.pools ==> PoolsOf(p, node, driver) == [node]
    ensures pools != [] ==> PoolsOf(p.(pools := p.pools[node := map[driver := pools]]), node, driver) == pools
    ensures PoolsOf(p.(pools := p.pools[node := map[driver := []]]), node, driver) == [node]
    ensures DraKey(driver) == "dra:" + driver
  {
  }
}
