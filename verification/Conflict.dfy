/** Admission of an operation against the active ones (internal/operation/model.go, conflict.go). */
module Conflict {

  datatype OpType =
    | DriverInstall | DriverUpgrade | DriverRollback | PartitionReconfigure | SharingModeChange
    | DevicePluginRestart | NodeReboot | Revalidate | Quarantine | RecoverDevice | DeviceReset
    | Unlisted(name: string)

  datatype Claim = Claim(name: string, typ: OpType, keys: seq<string>)

  datatype Verdict = Parallel | Conflicting | Dependent

  datatype Admission = AdmitNow | AdmitBlocked(blocker: string) | AdmitAfter(after: string)

  /** A type missing from the table counts as destructive. */
  predicate Destructive(t: OpType) {
    t != Revalidate && t != Quarantine
  }

  predicate DependentPair(a: OpType, b: OpType) {
    || (a == DevicePluginRestart && b == PartitionReconfigure)
    || (b == DevicePluginRestart && a == PartitionReconfigure)
  }

  /** Position of the first '/' in s, or |s|. */
  function FirstSlash(s: string): (i: nat)
    ensures i <= |s| && (i < |s| ==> s[i] == '/') && '/' !in s[..i]
  {
    if s == "" then 0
    else if s[0] == '/' then 0
    else
      var k := FirstSlash(s[1..]);
      assert s[..k + 1] == [s[0]] + s[1..][..k];
      k + 1
  }

  const DEVICE_PREFIX := "device/"

  /** The PCI address inside a `device/<pci>/<facet>` key, "" for any other key. */
  function DeviceOf(key: string): string {
    if !(DEVICE_PREFIX <= key) then ""
    else
      var rest := key[|DEVICE_PREFIX|..];
      var i := FirstSlash(rest);
      if i == |rest| then "" else rest[..i]
  }

  predicate Overlaps(a: seq<string>, b: seq<string>) {
    exists i, k :: 0 <= i < |a| && 0 <= k < |b| && a[i] == b[k]
  }

  predicate SharesDevice(a: seq<string>, b: seq<string>) {
    exists i, k :: 0 <= i < |a| && 0 <= k < |b| && DeviceOf(a[i]) != "" && DeviceOf(a[i]) == DeviceOf(b[k])
  }

  predicate Touches(a: seq<string>, b: seq<string>) {
    Overlaps(a, b) || SharesDevice(a, b)
  }

  function Conflicts(a: OpType, b: OpType, keysA: seq<string>, keysB: seq<string>): Verdict {
    if !Destructive(a) || !Destructive(b) then Parallel
    else if DependentPair(a, b) then Dependent
    else if Touches(keysA, keysB) then Conflicting
    else Parallel
  }

  predicate Blocks(a: Claim, b: Claim) {
    Conflicts(b.typ, a.typ, b.keys, a.keys) == Conflicting
  }

  /** Blocking does not depend on who asks: the pairwise meaning of "active set without conflict". */
  lemma BlocksSymmetric(a: Claim, b: Claim)
    ensures Blocks(a, b) == Blocks(b, a)
  {
    assert Overlaps(a.keys, b.keys) == Overlaps(b.keys, a.keys);
    assert SharesDevice(a.keys, b.keys) == SharesDevice(b.keys, a.keys);
  }

  /** Changes nothing on the hardware. */
  predicate Harmless(t: OpType) {
    t == Revalidate || t == Quarantine
  }

  /** Two claims block each other exactly when both change something, they are not a partition change and the plugin restart
      that depends on it, and they name one resource or facets of one PCI device. */
  lemma BlocksIff(a: Claim, b: Claim)
    ensures Blocks(a, b) <==>
              && !Harmless(a.typ) && !Harmless(b.typ)
              && {a.typ, b.typ} != {DevicePluginRestart, PartitionReconfigure}
              && exists x, y :: x in a.keys && y in b.keys && (x == y || (DeviceOf(x) != "" && DeviceOf(x) == DeviceOf(y)))
  {
    TouchesMembers(b.keys, a.keys);
    var s: set<OpType> := {DevicePluginRestart, PartitionReconfigure};
    assert DevicePluginRestart in s && PartitionReconfigure in s;
    assert a.typ in {a.typ, b.typ} && b.typ in {a.typ, b.typ};
  }

  lemma TouchesMembers(a: seq<string>, b: seq<string>)
    ensures Touches(a, b) <==> exists x, y :: x in b && y in a && (x == y || (DeviceOf(x) != "" && DeviceOf(x) == DeviceOf(y)))
  {
    hide DeviceOf;
    if x, y :| x in b && y in a && (x == y || (DeviceOf(x) != "" && DeviceOf(x) == DeviceOf(y))) {
      var i :| 0 <= i < |a| && a[i] == y;
      var k :| 0 <= k < |b| && b[k] == x;
    }
    if Overlaps(a, b) {
      var i, k :| 0 <= i < |a| && 0 <= k < |b| && a[i] == b[k];
      assert b[k] in b && a[i] in a;
    } else if SharesDevice(a, b) {
      var i, k :| 0 <= i < |a| && 0 <= k < |b| && DeviceOf(a[i]) != "" && DeviceOf(a[i]) == DeviceOf(b[k]);
      assert b[k] in b && a[i] in a;
    }
  }

  /** Two facets of one PCI device block each other although the keys differ, for any two kinds of change that are neither
      harmless nor a plugin restart beside a partition change. */
  lemma FacetsOfOneDevice(pci: string, facetA: string, facetB: string, a: Claim, b: Claim)
    requires pci != "" && '/' !in pci
    requires DEVICE_PREFIX + pci + "/" + facetA in a.keys && DEVICE_PREFIX + pci + "/" + facetB in b.keys
    requires !Harmless(a.typ) && !Harmless(b.typ) && {a.typ, b.typ} != {DevicePluginRestart, PartitionReconfigure}
    ensures Blocks(a, b) && Blocks(b, a)
  {
    hide Blocks;
    DeviceOfKey(pci, facetA);
    DeviceOfKey(pci, facetB);
    BlocksIff(a, b);
    BlocksSymmetric(a, b);
  }

  lemma DeviceOfKey(pci: string, facet: string)
    requires '/' !in pci
    ensures DeviceOf(DEVICE_PREFIX + pci + "/" + facet) == pci
  {
    var key := DEVICE_PREFIX + pci + "/" + facet;
    var rest := key[|DEVICE_PREFIX|..];
    assert rest == pci + "/" + facet;
    var i := FirstSlash(rest);
    assert rest[|pci|] == '/';
    forall k | 0 <= k < |pci| ensures rest[k] != '/' {
      assert rest[k] == pci[k] && pci[k] in pci;
    }
    forall k | 0 <= k < i ensures rest[k] != '/' {
      assert rest[k] == rest[..i][k] && rest[..i][k] in rest[..i];
    }
  }

  /** A key names a facet of a PCI device exactly when it has that shape; any other key names no device. */
  lemma DeviceOfMeans(key: string, pci: string)
    requires pci != ""
    ensures DeviceOf(key) == pci <==> '/' !in pci && exists facet :: key == DEVICE_PREFIX + pci + "/" + facet
  {
    if DeviceOf(key) == pci {
      var rest := key[|DEVICE_PREFIX|..];
      var i := FirstSlash(rest);
      assert key == DEVICE_PREFIX + rest && rest == pci + "/" + rest[i + 1..];
      assert key == DEVICE_PREFIX + pci + "/" + rest[i + 1..];
    }
    if facet :| '/' !in pci && key == DEVICE_PREFIX + pci + "/" + facet {
      DeviceOfKey(pci, facet);
    }
  }

  // ----- order of names -----

  predicate NameLe(a: string, b: string) {
    || a == ""
    || (b != "" && (a[0] < b[0] || (a[0] == b[0] && NameLe(a[1..], b[1..]))))
  }

  lemma {:induction false} NameLeTotal(a: string, b: string)
    ensures NameLe(a, b) || NameLe(b, a)
    ensures NameLe(a, a)
  {
    if a != "" && b != "" {
      NameLeTotal(a[1..], b[1..]);
    } else if a != "" {
      NameLeTotal(a[1..], b);
    }
  }

  lemma {:induction false} NameLeAntisymmetric(a: string, b: string)
    requires NameLe(a, b) && NameLe(b, a)
    ensures a == b
  {
    if a != "" && b != "" {
      NameLeAntisymmetric(a[1..], b[1..]);
      assert a == [a[0]] + a[1..] && b == [b[0]] + b[1..];
    }
  }

  lemma {:induction false} NameLeTransitive(a: string, b: string, c: string)
    requires NameLe(a, b) && NameLe(b, c)
    ensures NameLe(a, c)
  {
    if a != "" && b != "" && c != "" && a[0] == b[0] == c[0] {
      NameLeTransitive(a[1..], b[1..], c[1..]);
    }
  }

  predicate Sorted(s: seq<Claim>) {
    forall i, k :: 0 <= i < k < |s| ==> NameLe(s[i].name, s[k].name)
  }

  /** Stands for sort.Slice by name on a copy. */
  method SortByName(claims: seq<Claim>) returns (s: seq<Claim>)
    ensures Sorted(s)
    ensures forall c :: c in s <==> c in claims
  {
    s := [];
    for i := 0 to |claims|
      invariant Sorted(s)
      invariant forall c :: c in s <==> c in claims[..i]
    {
      s := Insert(s, claims[i]);
      assert claims[..i + 1] == claims[..i] + [claims[i]];
    }
    assert claims[..|claims|] == claims;
  }

  method Insert(s: seq<Claim>, c: Claim) returns (r: seq<Claim>)
    requires Sorted(s)
    ensures Sorted(r)
    ensures forall x :: x in r <==> x == c || x in s
  {
    var k := 0;
    while k < |s| && NameLe(s[k].name, c.name)
      invariant 0 <= k <= |s|
      invariant forall i :: 0 <= i < k ==> NameLe(s[i].name, c.name)
    {
      k := k + 1;
    }
    forall i | k <= i < |s| ensures NameLe(c.name, s[i].name) {
      NameLeTotal(c.name, s[k].name);
      if k < i { NameLeTransitive(c.name, s[k].name, s[i].name); }
    }
    r := s[..k] + [c] + s[k..];
    assert s == s[..k] + s[k..];
  }

  /** Conflict wins over order; among several blockers the first name is reported; a dependency
      is reported only when the two really touch one resource. */
  method Admit(candidate: Claim, active: seq<Claim>) returns (r: Admission)
    ensures r.AdmitBlocked? <==> exists a :: a in active && a.name != candidate.name && Blocks(a, candidate)
    ensures r.AdmitBlocked? ==>
              && (exists a :: a in active && a.name == r.blocker && a.name != candidate.name && Blocks(a, candidate))
              && (forall a :: a in active && a.name != candidate.name && Blocks(a, candidate) ==> NameLe(r.blocker, a.name))
    ensures r.AdmitAfter? ==>
              exists a :: a in active && a.name == r.after && DependentPair(candidate.typ, a.typ) && Touches(candidate.keys, a.keys)
    ensures r.AdmitNow? ==>
              forall a :: a in active && a.name != candidate.name && a.name != "" && Destructive(candidate.typ) && Destructive(a.typ)
                      ==> !Touches(candidate.keys, a.keys)
  {
    var sorted := SortByName(active);
    var after := "";
    for i := 0 to |sorted|
      invariant forall k :: 0 <= k < i && sorted[k].name != candidate.name ==> !Blocks(sorted[k], candidate)
      invariant after != "" ==>
          exists a :: a in active && a.name == after && DependentPair(candidate.typ, a.typ) && Touches(candidate.keys, a.keys)
      invariant after == "" ==>
          forall k :: 0 <= k < i && sorted[k].name != candidate.name && sorted[k].name != ""
                   && Destructive(candidate.typ) && Destructive(sorted[k].typ)
                   ==> !Touches(candidate.keys, sorted[k].keys)
    {
      var a := sorted[i];
      assert a in active;
      if a.name != candidate.name {
        var v := Conflicts(candidate.typ, a.typ, candidate.keys, a.keys);
        if v == Conflicting {
          forall b | b in active && b.name != candidate.name && Blocks(b, candidate)
            ensures NameLe(a.name, b.name)
          {
            var k :| 0 <= k < |sorted| && sorted[k] == b;
            if k == i { NameLeTotal(a.name, a.name); }
          }
          return AdmitBlocked(a.name);
        }
        if v == Dependent && after == "" && Touches(candidate.keys, a.keys) {
          after := a.name;
        }
      }
    }
    forall a | a in active && a.name != candidate.name ensures !Blocks(a, candidate) {
      assert a in sorted;
    }
    if after != "" {
      return AdmitAfter(after);
    }
    forall a | a in active && a.name != candidate.name && a.name != "" && Destructive(candidate.typ) && Destructive(a.typ)
      ensures !Touches(candidate.keys, a.keys)
    {
      assert a in sorted;
    }
    return AdmitNow;
  }
}
