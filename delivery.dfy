/**
 * Delivery methods of a delivery group (the `saleor.delivery` package):
 * the delivery cost, the total with delivery, the method's snake_case name
 * and the choice of method for a group. Prices are exact decimals, modelled
 * as `real` in the shop's default currency.
 */
module Delivery {
  import opened Common

  /** A line of a delivery group: its product's weight and the quantity. */
  datatype Line = Line(productWeight: real, quantity: int)

  /** A delivery group: its lines, its own total and whether it is shipped. */
  datatype DeliveryGroup = DeliveryGroup(lines: seq<Line>, total: real, shipped: bool)

  /** A delivery method bound to its group. */
  datatype DeliveryMethod =
    | BaseDelivery(group: DeliveryGroup)
    | DummyShipping(group: DeliveryGroup, address: string)
    | DigitalDelivery(group: DeliveryGroup, email: string)

  /** `__iter__`: iterating a delivery iterates the lines of its group. */
  function Items(m: DeliveryMethod): (items: seq<Line>)
    ensures items == m.group.lines
  {
    m.group.lines
  }

  /** The sum of the product weights over the lines. */
  function SumWeights(lines: seq<Line>): real
    decreases |lines|
  {
    if lines == [] then 0.0 else SumWeights(lines[..|lines| - 1]) + lines[|lines| - 1].productWeight
  }

  /** The sum of the quantities over the lines. */
  function SumQuantities(lines: seq<Line>): int
    decreases |lines|
  {
    if lines == [] then 0 else SumQuantities(lines[..|lines| - 1]) + lines[|lines| - 1].quantity
  }

  /** `get_delivery_total`: zero for the base class, (Σ weights) × (Σ quantities) for `DummyShipping`. */
  function GetDeliveryTotal(m: DeliveryMethod): (cost: real)
    ensures !m.DummyShipping? ==> cost == 0.0
    ensures m.DummyShipping? ==> cost == (SumQuantities(m.group.lines) as real) * SumWeights(m.group.lines)
  {
    match m
    case DummyShipping(group, _) => (SumQuantities(group.lines) as real) * SumWeights(group.lines)
    case _ => 0.0
  }

  /** `get_total_with_delivery`: the group's total plus the delivery total. */
  function GetTotalWithDelivery(m: DeliveryMethod): (total: real)
    ensures total == m.group.total + GetDeliveryTotal(m)
    ensures !m.DummyShipping? ==> total == m.group.total
  {
    m.group.total + GetDeliveryTotal(m)
  }

  /** Both sums split over concatenated lines. */
  lemma {:induction false} SumsAppend(a: seq<Line>, b: seq<Line>)
    ensures SumWeights(a + b) == SumWeights(a) + SumWeights(b)
    ensures SumQuantities(a + b) == SumQuantities(a) + SumQuantities(b)
    decreases |b|
  {
    if b == [] {
      assert a + b == a;
    } else {
      assert (a + b)[..|a + b| - 1] == a + b[..|b| - 1];
      SumsAppend(a, b[..|b| - 1]);
    }
  }

  /** The per-line cost Σ (weight × quantity), which `DummyShipping` does not use. */
  function PerLineCost(lines: seq<Line>): real
    decreases |lines|
  {
    if lines == [] then 0.0
    else PerLineCost(lines[..|lines| - 1]) + lines[|lines| - 1].productWeight * (lines[|lines| - 1].quantity as real)
  }

  /** For a single line the dummy shipping cost equals the per-line cost. */
  lemma DummyCostOneLine(group: DeliveryGroup, address: string)
    requires |group.lines| == 1
    ensures GetDeliveryTotal(DummyShipping(group, address)) == PerLineCost(group.lines)
  {
    var line := group.lines[0];
    assert group.lines[..0] == [];
    assert SumWeights(group.lines) == line.productWeight;
    assert SumQuantities(group.lines) == line.quantity;
    assert PerLineCost(group.lines) == line.productWeight * (line.quantity as real);
  }

  /** The dummy shipping cost is a product of sums: two unit lines of weight 1 cost 4, not 2. */
  lemma DummyCostIsNotPerLine(group: DeliveryGroup, address: string)
    requires group.lines == [Line(1.0, 1), Line(1.0, 1)]
    ensures GetDeliveryTotal(DummyShipping(group, address)) == 4.0
    ensures PerLineCost(group.lines) == 2.0
  {
    var lines := group.lines;
    assert lines[..1] == [Line(1.0, 1)];
    assert lines[..1][..0] == [];
    assert SumWeights(lines[..1]) == 1.0 && SumQuantities(lines[..1]) == 1;
    assert SumWeights(lines) == 2.0 && SumQuantities(lines) == 2;
    assert PerLineCost(lines[..1]) == 1.0;
  }

  predicate IsUpper(c: char) { 'A' <= c <= 'Z' }

  predicate IsLower(c: char) { 'a' <= c <= 'z' }

  /**
   * The substitution's match at position `i`: an uppercase letter after a
   * lowercase one, or one followed by a character that is not an uppercase
   * letter (so not at the end).
   */
  predicate Marked(s: string, i: int)
    requires 0 <= i < |s|
  {
    IsUpper(s[i]) && ((i > 0 && IsLower(s[i - 1])) || (i + 1 < |s| && !IsUpper(s[i + 1])))
  }

  /** The first `n` characters of `s` after the substitution `_\1`. */
  function InsertUnderscoresUpTo(s: string, n: nat): string
    requires n <= |s|
  {
    if n == 0 then []
    else InsertUnderscoresUpTo(s, n - 1) + (if Marked(s, n - 1) then ['_', s[n - 1]] else [s[n - 1]])
  }

  function InsertUnderscores(s: string): string
  {
    InsertUnderscoresUpTo(s, |s|)
  }

  function RemoveUnderscores(s: string): string
    decreases |s|
  {
    if s == [] then [] else RemoveUnderscores(s[..|s| - 1]) + (if s[|s| - 1] == '_' then [] else [s[|s| - 1]])
  }

  /** The substitution only adds underscores: removing all of them gives the same as for the class name. */
  lemma {:induction false} InsertUnderscoresOnlyAdds(s: string, n: nat)
    requires n <= |s|
    ensures RemoveUnderscores(InsertUnderscoresUpTo(s, n)) == RemoveUnderscores(s[..n])
  {
    if n > 0 {
      InsertUnderscoresOnlyAdds(s, n - 1);
      var piece := if Marked(s, n - 1) then ['_', s[n - 1]] else [s[n - 1]];
      RemoveUnderscoresAppend(InsertUnderscoresUpTo(s, n - 1), piece);
      RemoveUnderscoresAppend(s[..n - 1], [s[n - 1]]);
      assert s[..n - 1] + [s[n - 1]] == s[..n];
      if Marked(s, n - 1) {
        RemoveUnderscoresAppend(['_'], [s[n - 1]]);
        assert ['_'] + [s[n - 1]] == piece;
        assert ['_'][..0] == [];
      }
      assert [s[n - 1]][..0] == [];
    }
  }

  lemma {:induction false} RemoveUnderscoresAppend(a: string, b: string)
    ensures RemoveUnderscores(a + b) == RemoveUnderscores(a) + RemoveUnderscores(b)
    decreases |b|
  {
    if b == [] {
      assert a + b == a;
    } else {
      assert (a + b)[..|a + b| - 1] == a + b[..|b| - 1];
      RemoveUnderscoresAppend(a, b[..|b| - 1]);
    }
  }

  /** `str.lower()` on one character: a capital letter becomes its small letter, anything else is kept. */
  function LowerChar(c: char): (r: char)
    ensures !IsUpper(r)
    ensures !IsUpper(c) ==> r == c
    ensures IsUpper(c) ==> 'a' <= r <= 'z' && r as int - c as int == 'a' as int - 'A' as int
  {
    if IsUpper(c) then (c as int + 32) as char else c
  }

  /** `str.lower()` on ASCII letters. */
  function Lower(s: string): (r: string)
    ensures |r| == |s|
    ensures forall i :: 0 <= i < |s| ==> r[i] == LowerChar(s[i])
  {
    seq(|s|, i requires 0 <= i < |s| => LowerChar(s[i]))
  }

  /** `r` is the piece of `s` starting at `k`. */
  predicate IsSliceAt(r: string, s: string, k: int)
  {
    0 <= k <= |s| - |r| && r == s[k..k + |r|]
  }

  /** Drops the leading underscores. */
  function StripLeading(s: string): (r: string)
    ensures |r| <= |s| && r == s[|s| - |r|..]
    ensures r != [] ==> r[0] != '_'
    ensures forall i :: 0 <= i < |s| - |r| ==> s[i] == '_'
    decreases |s|
  {
    if s != [] && s[0] == '_' then StripLeading(s[1..]) else s
  }

  /** Drops the trailing underscores. */
  function StripTrailing(s: string): (r: string)
    ensures |r| <= |s| && r == s[..|r|]
    ensures r != [] ==> r[|r| - 1] != '_'
    ensures forall i :: |r| <= i < |s| ==> s[i] == '_'
    decreases |s|
  {
    if s != [] && s[|s| - 1] == '_' then StripTrailing(s[..|s| - 1]) else s
  }

  /** `str.strip('_')`: drops every leading and trailing underscore and nothing else. */
  function StripUnderscores(s: string): (r: string)
    ensures r != [] ==> r[0] != '_' && r[|r| - 1] != '_'
    ensures exists k ::
      && IsSliceAt(r, s, k)
      && (forall i :: 0 <= i < k ==> s[i] == '_')
      && (forall i :: k + |r| <= i < |s| ==> s[i] == '_')
  {
    var left := StripLeading(s);
    var r := StripTrailing(left);
    assert IsSliceAt(r, s, |s| - |left|);
    r
  }

  /** The class name of a delivery method. */
  function ClassName(m: DeliveryMethod): string
  {
    match m
    case BaseDelivery(_) => "BaseDelivery"
    case DummyShipping(_, _) => "DummyShipping"
    case DigitalDelivery(_, _) => "DigitalDelivery"
  }

  /** `name`: the class name in snake_case. */
  function SnakeCase(className: string): string
  {
    StripUnderscores(Lower(InsertUnderscores(className)))
  }

  function Name(m: DeliveryMethod): (name: string)
  {
    SnakeCase(ClassName(m))
  }

  /** Lowering then stripping leaves no uppercase letter and no '_' at either end. */
  lemma StripLowerShape(t: string)
    ensures forall i :: 0 <= i < |StripUnderscores(Lower(t))| ==> !IsUpper(StripUnderscores(Lower(t))[i])
  {
    var lowered := Lower(t);
    var r := StripUnderscores(lowered);
    var k :| IsSliceAt(r, lowered, k);
    forall i | 0 <= i < |r|
      ensures !IsUpper(r[i])
    {
      assert r[i] == lowered[k + i];
    }
  }

  /** A snake_case name holds no uppercase letter and does not start or end with '_'. */
  lemma SnakeCaseShape(className: string)
    ensures forall i :: 0 <= i < |SnakeCase(className)| ==> !IsUpper(SnakeCase(className)[i])
    ensures SnakeCase(className) != [] ==>
      SnakeCase(className)[0] != '_' && SnakeCase(className)[|SnakeCase(className)| - 1] != '_'
  {
    StripLowerShape(InsertUnderscores(className));
  }

  /** The substitution only inserts underscores: without them the result is the class name without them. */
  lemma InsertUnderscoresKeepsLetters(className: string)
    ensures RemoveUnderscores(InsertUnderscores(className)) == RemoveUnderscores(className)
  {
    InsertUnderscoresOnlyAdds(className, |className|);
    assert className[..|className|] == className;
  }

  lemma InsertUnderscoresDummyShipping()
    ensures InsertUnderscores("DummyShipping") == "_Dummy_Shipping"
  {
    var c := "DummyShipping";
    assert InsertUnderscoresUpTo(c, 1) == "_D";
    assert InsertUnderscoresUpTo(c, 2) == "_Du";
    assert InsertUnderscoresUpTo(c, 3) == "_Dum";
    assert InsertUnderscoresUpTo(c, 4) == "_Dumm";
    assert InsertUnderscoresUpTo(c, 5) == "_Dummy";
    assert InsertUnderscoresUpTo(c, 6) == "_Dummy_S";
    assert InsertUnderscoresUpTo(c, 7) == "_Dummy_Sh";
    assert InsertUnderscoresUpTo(c, 8) == "_Dummy_Shi";
    assert InsertUnderscoresUpTo(c, 9) == "_Dummy_Ship";
    assert InsertUnderscoresUpTo(c, 10) == "_Dummy_Shipp";
    assert InsertUnderscoresUpTo(c, 11) == "_Dummy_Shippi";
    assert InsertUnderscoresUpTo(c, 12) == "_Dummy_Shippin";
    assert InsertUnderscoresUpTo(c, 13) == "_Dummy_Shipping";
  }

  lemma LowerDummyShipping()
    ensures Lower("_Dummy_Shipping") == "_dummy_shipping"
  {
    var s := "_Dummy_Shipping";
    var r := Lower(s);
    assert |r| == 15;
    forall i | 0 <= i < 15
      ensures r[i] == "_dummy_shipping"[i]
    {
      assert r[i] == LowerChar(s[i]);
    }
  }

  lemma StripDummyShipping()
    ensures StripUnderscores("_dummy_shipping") == "dummy_shipping"
  {
    var s := "_dummy_shipping";
    assert s[1..] == "dummy_shipping";
    assert StripLeading(s) == "dummy_shipping";
    assert StripTrailing("dummy_shipping") == "dummy_shipping";
  }

  /** `DummyShipping` is named "dummy_shipping". */
  lemma DummyShippingName(group: DeliveryGroup, address: string)
    ensures Name(DummyShipping(group, address)) == "dummy_shipping"
  {
    InsertUnderscoresDummyShipping();
    LowerDummyShipping();
    StripDummyShipping();
  }

  /**
   * `get_delivery_methods_for_group`: one `DummyShipping` for a shipped
   * group (needs the "address" argument), else one `DigitalDelivery` (needs
   * "email"); a missing argument raises `KeyError`.
   */
  function GetDeliveryMethodsForGroup(group: DeliveryGroup, kwargs: map<string, string>): (r: Result<seq<DeliveryMethod>, string>)
    ensures r.Ok? ==> |r.value| == 1 && r.value[0].group == group
    ensures r.Ok? ==> (r.value[0].DummyShipping? <==> group.shipped) && (r.value[0].DigitalDelivery? <==> !group.shipped)
    ensures group.shipped && "address" in kwargs ==> r == Ok([DummyShipping(group, kwargs["address"])])
    ensures !group.shipped && "email" in kwargs ==> r == Ok([DigitalDelivery(group, kwargs["email"])])
    ensures r.Err? <==> (group.shipped && "address" !in kwargs) || (!group.shipped && "email" !in kwargs)
    ensures r.Err? ==> r.error == "KeyError"
  {
    if group.shipped then
      if "address" in kwargs then Ok([DummyShipping(group, kwargs["address"])]) else Err("KeyError")
    else
      if "email" in kwargs then Ok([DigitalDelivery(group, kwargs["email"])]) else Err("KeyError")
  }
}
