/** Which command the device-reset participant runs, and whose capability grade decides whether it may
    (resetTargetFor and resetGradeRefusal in internal/controller/devicereset_participant.go). */
module ResetTarget {

  /** A card as the node's report names it, already in the descriptor's vocabulary, and a descriptor. */
  datatype Card = Card(vendor: string, model: string)

  datatype Descriptor = Descriptor(vendor: string, product: string, requiresReset: bool, command: seq<string>, valid: bool)

  /** The vendor and product a capability grade is kept under. */
  datatype Key = Key(vendor: string, product: string)

  datatype Target = Target(command: seq<string>, quiesceVendor: string, key: Key)

  datatype Chosen = NoCard | NoCommand | Ambiguous | Picked(target: Target)

  // ----- the registry key -----

  /** Lower case, as far as it can yield a letter of the names compared below. */
  function LowerChar(c: char): char {
    if 'A' <= c <= 'Z' then c - 'A' + 'a' else if c == '\U{130}' then 'i' else c
  }

  function Lower(s: string): string {
    seq(|s|, i requires 0 <= i < |s| => LowerChar(s[i]))
  }

  function RegistryKey(vendor: string, product: string): Key {
    if Lower(vendor) == "rngd" then Key("furiosa", "rngd")
    else if Lower(vendor) == "furiosa" then Key("furiosa", product)
    else Key(vendor, product)
  }

  predicate Space(c: char) {
    var n := c as int;
    || 9 <= n <= 13 || n == 32 || n == 0x85 || n == 0xA0 || n == 0x1680 || 0x2000 <= n <= 0x200A
    || n == 0x2028 || n == 0x2029 || n == 0x202F || n == 0x205F || n == 0x3000
  }

  predicate Blank(s: string) {
    forall i :: 0 <= i < |s| ==> Space(s[i])
  }

  /** The registry's grades: whether a reset may run. */
  type Grades = (string, string) -> bool

  /** Nobody knows whose grade a blank product stands for, so it refuses. */
  predicate Allowed(grades: Grades, k: Key) {
    !Blank(k.product) && grades(k.vendor, k.product)
  }

  // ----- the choice -----

  predicate Matches(c: Card, d: Descriptor) {
    c.vendor == d.vendor && c.model == d.product
  }

  predicate Offers(d: Descriptor, cards: seq<Card>) {
    && d.requiresReset && |d.command| > 0 && d.valid
    && exists i :: 0 <= i < |cards| && Matches(cards[i], d)
  }

  /** The descriptors that apply to the node, in the order of the list. */
  function Offering(descs: seq<Descriptor>, cards: seq<Card>): seq<Descriptor> {
    if descs == [] then []
    else
      var k := |descs| - 1;
      Offering(descs[..k], cards) + if Offers(descs[k], cards) then [descs[k]] else []
  }

  function TargetOf(d: Descriptor): Target {
    Target(d.command, d.vendor, RegistryKey(d.vendor, d.product))
  }

  predicate OneCommand(o: seq<Descriptor>) {
    forall i, k :: 0 <= i < |o| && 0 <= k < |o| ==> o[i].command == o[k].command
  }

  /** A command is picked only when all descriptors that apply declare that very command; the last of them in the list
      then says whose grade is asked. */
  function Choose(cards: seq<Card>, descs: seq<Descriptor>): Chosen {
    var o := Offering(descs, cards);
    if cards == [] then NoCard
    else if o == [] then NoCommand
    else if !OneCommand(o) then Ambiguous
    else Picked(TargetOf(o[|o| - 1]))
  }

  /** The targets by command: a later descriptor takes the place of an earlier one with the same command. */
  function Table(descs: seq<Descriptor>, cards: seq<Card>): map<seq<string>, Target> {
    if descs == [] then map[]
    else
      var k := |descs| - 1;
      var t := Table(descs[..k], cards);
      if Offers(descs[k], cards) then t[descs[k].command := TargetOf(descs[k])] else t
  }

  predicate Lists(o: seq<Descriptor>, c: seq<string>) {
    exists d :: d in o && d.command == c
  }

  lemma {:induction false} TableOffers(descs: seq<Descriptor>, cards: seq<Card>)
    ensures var t := Table(descs, cards); var o := Offering(descs, cards);
            && (forall c :: c in t <==> Lists(o, c))
            && (o != [] ==> t[o[|o| - 1].command] == TargetOf(o[|o| - 1]))
  {
    hide Offers, TargetOf;
    if descs != [] {
      var k := |descs| - 1;
      TableOffers(descs[..k], cards);
      var o, o' := Offering(descs[..k], cards), Offering(descs, cards);
      if Offers(descs[k], cards) {
        forall c ensures Lists(o', c) <==> Lists(o, c) || c == descs[k].command {
          OneMoreListed(o, descs[k], c);
        }
      }
    }
  }

  lemma OneMoreListed(o: seq<Descriptor>, d: Descriptor, c: seq<string>)
    ensures Lists(o + [d], c) <==> Lists(o, c) || c == d.command
  {
    if Lists(o, c) {
      var e :| e in o && e.command == c;
      assert e in o + [d];
    }
    assert d in o + [d];
  }

  lemma TableChooses(cards: seq<Card>, descs: seq<Descriptor>, c: seq<string>)
    requires cards != [] && c in Table(descs, cards)
    ensures Choose(cards, descs)
         == if Table(descs, cards).Keys == {c} then Picked(Table(descs, cards)[c]) else Ambiguous
  {
    hide Table, Offering, TargetOf;
    TableOffers(descs, cards);
    var t, o := Table(descs, cards), Offering(descs, cards);
    assert Lists(o, c);
    if t.Keys == {c} {
      forall i | 0 <= i < |o| ensures o[i].command == c {
        assert Lists(o, o[i].command);
      }
    } else {
      var c' :| c' in t && c' != c;
      assert Lists(o, c');
    }
  }

  method AnyCardMatches(d: Descriptor, cards: seq<Card>) returns (found: bool)
    ensures found == exists i :: 0 <= i < |cards| && Matches(cards[i], d)
  {
    for i := 0 to |cards|
      invariant forall k :: 0 <= k < i ==> !Matches(cards[k], d)
    {
      if cards[i].vendor == d.vendor && cards[i].model == d.product {
        return true;
      }
    }
    return false;
  }

  method TargetsByCommand(cards: seq<Card>, descs: seq<Descriptor>) returns (byCommand: map<seq<string>, Target>)
    ensures byCommand == Table(descs, cards)
  {
    byCommand := map[];
    for i := 0 to |descs|
      invariant byCommand == Table(descs[..i], cards)
    {
      var d := descs[i];
      assert descs[..i + 1][..i] == descs[..i];
      if !d.requiresReset || |d.command| == 0 || !d.valid {
        continue;
      }
      var matching := AnyCardMatches(d, cards);
      if matching {
        byCommand := byCommand[d.command := TargetOf(d)];
      }
    }
    assert descs[..|descs|] == descs;
  }

  method ResetTargetFor(cards: seq<Card>, descs: seq<Descriptor>) returns (r: Chosen)
    ensures r == Choose(cards, descs)
  {
    hide Table, Choose;
    if |cards| == 0 {
      assert Choose(cards, descs) == NoCard by { NothingSeen(cards, descs); }
      return NoCard;
    }
    var byCommand := TargetsByCommand(cards, descs);
    if |byCommand| == 0 {
      assert Choose(cards, descs) == NoCommand by { NothingOffered(cards, descs); }
      return NoCommand;
    }
    var c :| c in byCommand;
    TableChooses(cards, descs, c);
    if |byCommand| == 1 {
      OneKey(byCommand, c);
      return Picked(byCommand[c]);
    }
    assert byCommand.Keys != {c};
    return Ambiguous;
  }

  lemma OneKey(m: map<seq<string>, Target>, c: seq<string>)
    requires |m| == 1 && c in m
    ensures m.Keys == {c}
  {
    assert |m.Keys - {c}| == 0;
  }

  lemma NothingSeen(cards: seq<Card>, descs: seq<Descriptor>)
    requires cards == []
    ensures Choose(cards, descs) == NoCard
  {
  }

  lemma NothingOffered(cards: seq<Card>, descs: seq<Descriptor>)
    requires cards != [] && |Table(descs, cards)| == 0
    ensures Choose(cards, descs) == NoCommand
  {
    var o := Offering(descs, cards);
    if o != [] {
      FirstListed(o);
    }
    TableOffers(descs, cards);
    assert forall c :: c !in Table(descs, cards);
  }

  lemma FirstListed(o: seq<Descriptor>)
    requires o != []
    ensures Lists(o, o[0].command)
  {
  }

  // ----- what the choice comes to -----

  /** A valid descriptor that declares a reset command for one of the cards. */
  ghost predicate AppliesTo(d: Descriptor, cards: seq<Card>) {
    d.valid && d.requiresReset && d.command != [] && exists c :: c in cards && c.vendor == d.vendor && c.model == d.product
  }

  lemma OffersMeans(d: Descriptor, cards: seq<Card>)
    ensures Offers(d, cards) <==> AppliesTo(d, cards)
  {
    if c :| c in cards && c.vendor == d.vendor && c.model == d.product {
      var i :| 0 <= i < |cards| && cards[i] == c;
      assert Matches(cards[i], d);
    }
    if i :| 0 <= i < |cards| && Matches(cards[i], d) {
      assert cards[i] in cards;
    }
  }

  /** Without cards, or without a descriptor that applies, nothing is run; nor when two that apply declare different commands;
      otherwise their command is picked, with the pods of the vendor of one of them to be gone first. */
  lemma ChoiceIff(cards: seq<Card>, descs: seq<Descriptor>)
    ensures var r := Choose(cards, descs);
            && (r == NoCard <==> cards == [])
            && (r == NoCommand <==> cards != [] && forall d :: d in descs ==> !AppliesTo(d, cards))
            && (r == Ambiguous <==>
                  exists a, b :: a in descs && b in descs && AppliesTo(a, cards) && AppliesTo(b, cards) && a.command != b.command)
            && (r.Picked? ==>
                  exists d :: d in descs && AppliesTo(d, cards) && r.target.command == d.command && r.target.quiesceVendor == d.vendor
                              && r.target.key == RegistryKey(d.vendor, d.product))
  {
    hide Offers, AppliesTo, Offering;
    var o := Offering(descs, cards);
    forall d ensures d in o <==> d in descs && AppliesTo(d, cards) {
      OfferingHas(descs, cards, d);
      OffersMeans(d, cards);
    }
    if cards == [] {
      forall d ensures !AppliesTo(d, cards) { NoCardNoDescriptor(d, cards); }
    }
    if a, b :| a in descs && b in descs && AppliesTo(a, cards) && AppliesTo(b, cards) && a.command != b.command {
      var i :| 0 <= i < |o| && o[i] == a;
      var k :| 0 <= k < |o| && o[k] == b;
    }
    if !OneCommand(o) {
      var i, k :| 0 <= i < |o| && 0 <= k < |o| && o[i].command != o[k].command;
      assert o[i] in o && o[k] in o;
    }
    if o != [] { assert o[0] in o && o[|o| - 1] in o; }
  }

  lemma NoCardNoDescriptor(d: Descriptor, cards: seq<Card>)
    requires cards == []
    ensures !AppliesTo(d, cards)
  {
  }

  /** One family is kept under its maker's name, however it is written; every other vendor under its own. */
  lemma KeysAre(product: string)
    ensures RegistryKey("rngd", product) == RegistryKey("RNGD", product) == Key("furiosa", "rngd")
    ensures RegistryKey("furiosa", product) == RegistryKey("Furiosa", product) == Key("furiosa", product)
    ensures RegistryKey("nvidia", product) == Key("nvidia", product)
  {
    assert Lower("rngd") == "rngd" == Lower("RNGD");
    assert Lower("furiosa") == "furiosa" == Lower("Furiosa");
    assert |Lower("nvidia")| == 6 && Lower("nvidia")[0] == 'n';
  }

  /** A reset may run only for a product that is named and whose own key the registry grades so. */
  lemma AllowedIff(grades: Grades, vendor: string, product: string)
    ensures Allowed(grades, Key(vendor, product)) <==> grades(vendor, product) && exists c :: c in product && !Space(c)
    ensures !Allowed(grades, Key(vendor, "")) && !Allowed(grades, Key(vendor, "  "))
  {
    if c :| c in product && !Space(c) {
      var i :| 0 <= i < |product| && product[i] == c;
    }
    if !Blank(product) {
      var i :| 0 <= i < |product| && !Space(product[i]);
      assert product[i] in product;
    }
  }

  // ----- whose grade decides -----

  lemma {:induction false} OfferingHas(descs: seq<Descriptor>, cards: seq<Card>, d: Descriptor)
    ensures d in Offering(descs, cards) <==> d in descs && Offers(d, cards)
  {
    hide Offers;
    if descs != [] {
      var k := |descs| - 1;
      OfferingHas(descs[..k], cards, d);
      assert descs == descs[..k] + [descs[k]];
    }
  }

  /** In every order of the list the same descriptors apply. */
  lemma SameOffering(descs: seq<Descriptor>, order: seq<Descriptor>, cards: seq<Card>)
    requires multiset(order) == multiset(descs)
    ensures forall d :: d in Offering(order, cards) <==> d in Offering(descs, cards)
  {
    forall d ensures d in Offering(order, cards) <==> d in Offering(descs, cards) {
      OfferingHas(order, cards, d);
      OfferingHas(descs, cards, d);
      assert d in order <==> d in multiset(order);
      assert d in descs <==> d in multiset(descs);
    }
  }

  /** What is chosen does not depend on the order, but for whose grade is asked: that of a descriptor that applies. */
  lemma OrderKeepsCommand(cards: seq<Card>, descs: seq<Descriptor>, order: seq<Descriptor>)
    requires Choose(cards, descs).Picked? && multiset(order) == multiset(descs)
    ensures Choose(cards, order).Picked? && Choose(cards, order).target.command == Choose(cards, descs).target.command
    ensures exists d :: d in Offering(descs, cards) && Choose(cards, order).target == TargetOf(d)
  {
    hide Offering;
    SameOffering(descs, order, cards);
    var o, p := Offering(descs, cards), Offering(order, cards);
    assert o[0] in p;
    assert forall i :: 0 <= i < |p| ==> p[i] in o;
    assert p[|p| - 1] in o;
  }

  function AsLast(descs: seq<Descriptor>, i: nat): seq<Descriptor>
    requires i < |descs|
  {
    descs[..i] + descs[i + 1..] + [descs[i]]
  }

  lemma AsLastPermutes(descs: seq<Descriptor>, i: nat)
    requires i < |descs|
    ensures multiset(AsLast(descs, i)) == multiset(descs)
  {
    assert descs == descs[..i] + [descs[i]] + descs[i + 1..];
  }

  /** Put last, a descriptor that applies has its own grade asked. */
  lemma LastDecides(cards: seq<Card>, descs: seq<Descriptor>, i: nat)
    requires i < |descs| && Choose(cards, descs).Picked? && Offers(descs[i], cards)
    ensures Choose(cards, AsLast(descs, i)) == Picked(TargetOf(descs[i]))
  {
    hide Offers, TargetOf;
    AsLastPermutes(descs, i);
    OrderKeepsCommand(cards, descs, AsLast(descs, i));
    var order := AsLast(descs, i);
    assert order[|order| - 1] == descs[i];
  }

  predicate SameGrade(grades: Grades, descs: seq<Descriptor>, cards: seq<Card>) {
    forall a, b :: a in descs && b in descs && Offers(a, cards) && Offers(b, cards) ==>
      Allowed(grades, TargetOf(a).key) == Allowed(grades, TargetOf(b).key)
  }

  predicate MayRun(grades: Grades, cards: seq<Card>, descs: seq<Descriptor>) {
    var c := Choose(cards, descs);
    c.Picked? && Allowed(grades, c.target.key)
  }

  /** Under every order of the descriptor list a picked command runs exactly when each product it resets may be reset,
      if and only if all descriptors that apply have the same grade; otherwise the order alone decides. */
  lemma OrderDecidesGradeIff(cards: seq<Card>, descs: seq<Descriptor>, grades: Grades)
    requires Choose(cards, descs).Picked?
    ensures (forall order, d :: multiset(order) == multiset(descs) && d in descs && Offers(d, cards) ==>
               MayRun(grades, cards, order) == Allowed(grades, TargetOf(d).key))
       <==> SameGrade(grades, descs, cards)
    ensures (forall order :: multiset(order) == multiset(descs) ==> MayRun(grades, cards, order) == MayRun(grades, cards, descs))
       <==> SameGrade(grades, descs, cards)
  {
    hide Offers, Allowed, TargetOf, Choose;
    if SameGrade(grades, descs, cards) {
      forall order, d | multiset(order) == multiset(descs) && d in descs && Offers(d, cards)
        ensures MayRun(grades, cards, order) == Allowed(grades, TargetOf(d).key)
      {
        AgreesWith(cards, descs, order, d, grades);
      }
      var some := SomeOffer(cards, descs);
      forall order | multiset(order) == multiset(descs) ensures MayRun(grades, cards, order) == MayRun(grades, cards, descs) {
        AgreesWith(cards, descs, order, some, grades);
        AgreesWith(cards, descs, descs, some, grades);
      }
    } else {
      var a, b :| a in descs && b in descs && Offers(a, cards) && Offers(b, cards)
                  && Allowed(grades, TargetOf(a).key) != Allowed(grades, TargetOf(b).key);
      var i :| 0 <= i < |descs| && descs[i] == a;
      var k :| 0 <= k < |descs| && descs[k] == b;
      AsLastPermutes(descs, i);
      AsLastPermutes(descs, k);
      LastDecides(cards, descs, i);
      LastDecides(cards, descs, k);
      assert MayRun(grades, cards, AsLast(descs, i)) == Allowed(grades, TargetOf(a).key);
      assert MayRun(grades, cards, AsLast(descs, k)) == Allowed(grades, TargetOf(b).key);
    }
  }

  lemma SomeOffer(cards: seq<Card>, descs: seq<Descriptor>) returns (d: Descriptor)
    requires Choose(cards, descs).Picked?
    ensures d in descs && Offers(d, cards)
  {
    d := Offering(descs, cards)[0];
    OfferingHas(descs, cards, d);
  }

  lemma AgreesWith(cards: seq<Card>, descs: seq<Descriptor>, order: seq<Descriptor>, d: Descriptor, grades: Grades)
    requires Choose(cards, descs).Picked? && SameGrade(grades, descs, cards)
    requires multiset(order) == multiset(descs) && d in descs && Offers(d, cards)
    ensures MayRun(grades, cards, order) == Allowed(grades, TargetOf(d).key)
  {
    hide Offers, Allowed, TargetOf, Choose, Offering;
    OrderKeepsCommand(cards, descs, order);
    var e :| e in Offering(descs, cards) && Choose(cards, order).target == TargetOf(e);
    OfferingHas(descs, cards, e);
  }

  /** So a product the registry refuses is reset, or not, depending on the order of the list alone. */
  lemma RefusedProductIsReset()
    ensures exists cards: seq<Card>, refused: Descriptor, other: Descriptor, grades: Grades ::
              && Offers(refused, cards) && !Allowed(grades, TargetOf(refused).key)
              && MayRun(grades, cards, [refused, other]) && !MayRun(grades, cards, [other, refused])
              && Choose(cards, [refused, other]).target.command == refused.command
  {
    var cards := [Card("v", "p"), Card("v", "q")];
    var refused, other := Descriptor("v", "p", true, ["reset"], true), Descriptor("v", "q", true, ["reset"], true);
    var grades: Grades := (vendor: string, product: string) => product == "q";
    assert Matches(cards[0], refused) && Matches(cards[1], other);
    BothOffer(cards, refused, other);
    BothOffer(cards, other, refused);
    assert RegistryKey("v", "p") == Key("v", "p") && RegistryKey("v", "q") == Key("v", "q") by {
      assert |Lower("v")| == 1;
    }
    assert !Space("q"[0]);
    assert !Allowed(grades, TargetOf(refused).key) && Allowed(grades, TargetOf(other).key);
  }

  lemma BothOffer(cards: seq<Card>, a: Descriptor, b: Descriptor)
    requires Offers(a, cards) && Offers(b, cards) && a.command == b.command
    ensures Choose(cards, [a, b]) == Picked(TargetOf(b))
  {
    hide Offers, TargetOf;
    var descs := [a, b];
    assert descs[..1] == [a] && descs[..1][..0] == [];
    assert Offering([a], cards) == [a];
    assert Offering(descs, cards) == [a, b];
    assert cards != [] by { HasCard(a, cards); }
  }

  lemma HasCard(d: Descriptor, cards: seq<Card>)
    requires Offers(d, cards)
    ensures cards != []
  {
  }
}
