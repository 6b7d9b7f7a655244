/**
 * The GraphQL weight scalar of the shipping schema: parsing "amount unit",
 * serialising a weight, and the shipping method type enumeration.
 */
module ShippingTypes {
  import opened Common

  /** `str.split(' ')`: the pieces between the single spaces, empty pieces included. */
  function SplitOnSpace(s: string): (parts: seq<string>)
    ensures |parts| >= 1
    decreases |s|
  {
    if s == [] then [""]
    else
      var parts := SplitOnSpace(s[..|s| - 1]);
      var c := s[|s| - 1];
      if c == ' ' then parts + [""]
      else parts[..|parts| - 1] + [parts[|parts| - 1] + [c]]
  }

  /** The pieces joined back with single spaces. */
  function JoinWithSpace(parts: seq<string>): string
    decreases |parts|
  {
    if parts == [] then ""
    else if |parts| == 1 then parts[0]
    else JoinWithSpace(parts[..|parts| - 1]) + " " + parts[|parts| - 1]
  }

  function CountSpaces(s: string): nat
    decreases |s|
  {
    if s == [] then 0 else CountSpaces(s[..|s| - 1]) + (if s[|s| - 1] == ' ' then 1 else 0)
  }

  /** Splitting gives one more piece than there are spaces. */
  lemma {:induction false} SplitOnSpaceCount(s: string)
    ensures |SplitOnSpace(s)| == CountSpaces(s) + 1
    decreases |s|
  {
    if s != [] {
      SplitOnSpaceCount(s[..|s| - 1]);
    }
  }

  /** No piece holds a space. */
  lemma {:induction false} SplitOnSpacePiecesHaveNoSpace(s: string)
    ensures forall k :: 0 <= k < |SplitOnSpace(s)| ==> ' ' !in SplitOnSpace(s)[k]
    decreases |s|
  {
    if s != [] {
      var front := s[..|s| - 1];
      var c := s[|s| - 1];
      var parts := SplitOnSpace(front);
      SplitOnSpacePiecesHaveNoSpace(front);
      var r := SplitOnSpace(s);
      forall k | 0 <= k < |r|
        ensures ' ' !in r[k]
      {
        if k < |parts| - 1 {
          assert r[k] == parts[k];
        } else if c != ' ' {
          assert r[k] == parts[k] + [c];
        }
      }
    }
  }

  /** Joining the pieces with single spaces gives the string back. */
  lemma {:induction false} SplitOnSpaceJoin(s: string)
    ensures JoinWithSpace(SplitOnSpace(s)) == s
    decreases |s|
  {
    if s != [] {
      var front := s[..|s| - 1];
      var c := s[|s| - 1];
      var parts := SplitOnSpace(front);
      SplitOnSpaceJoin(front);
      assert front + [c] == s;
      if c == ' ' {
        var r := parts + [""];
        assert r[..|r| - 1] == parts;
      } else {
        var r := parts[..|parts| - 1] + [parts[|parts| - 1] + [c]];
        assert r[..|r| - 1] == parts[..|parts| - 1];
        if |parts| > 1 {
          assert JoinWithSpace(parts) == JoinWithSpace(parts[..|parts| - 1]) + " " + parts[|parts| - 1];
        }
      }
    }
  }

  /** The arguments of the weight a parsed value constructs: `Weight(**{unit: amount})`. */
  datatype WeightInput = WeightInput(amount: string, unit: string)

  /** The exception unpacking raises when the split does not give exactly two pieces. */
  const UnpackError: string := "ValueError"

  /** `WeightScalar.parse_value`. */
  function ParseValue(value: string): (r: Result<WeightInput, string>)
    ensures r.Ok? <==> CountSpaces(value) == 1
    ensures r.Err? ==> r.error == UnpackError
    ensures r.Ok? ==> r.value.amount + " " + r.value.unit == value
    ensures r.Ok? ==> ' ' !in r.value.amount && ' ' !in r.value.unit
  {
    var parts := SplitOnSpace(value);
    SplitOnSpaceCount(value);
    SplitOnSpacePiecesHaveNoSpace(value);
    SplitOnSpaceJoin(value);
    if |parts| == 2 then
      assert parts[..1] == [parts[0]];
      Ok(WeightInput(parts[0], parts[1]))
    else Err(UnpackError)
  }

  /** Text without a space extends the last piece. */
  lemma {:induction false} SplitAppendNoSpace(a: string, b: string)
    requires ' ' !in b
    ensures var parts := SplitOnSpace(a);
      SplitOnSpace(a + b) == parts[..|parts| - 1] + [parts[|parts| - 1] + b]
    decreases |b|
  {
    var parts := SplitOnSpace(a);
    if b == [] {
      assert a + b == a;
      assert parts[|parts| - 1] + b == parts[|parts| - 1];
      assert parts[..|parts| - 1] + [parts[|parts| - 1]] == parts;
    } else {
      var front := b[..|b| - 1];
      assert (a + b)[..|a + b| - 1] == a + front;
      assert (a + b)[|a + b| - 1] == b[|b| - 1];
      SplitAppendNoSpace(a, front);
      var shorter := SplitOnSpace(a + front);
      assert shorter[..|shorter| - 1] == parts[..|parts| - 1];
      assert shorter[|shorter| - 1] == parts[|parts| - 1] + front;
      assert front + [b[|b| - 1]] == b;
      assert (parts[|parts| - 1] + front) + [b[|b| - 1]] == parts[|parts| - 1] + b;
    }
  }

  /** Parsing "amount unit" gives back the amount and the unit when neither holds a space. */
  lemma ParseValueRoundTrip(amount: string, unit: string)
    requires ' ' !in amount && ' ' !in unit
    ensures ParseValue(amount + " " + unit) == Ok(WeightInput(amount, unit))
  {
    SplitAppendNoSpace("", amount);
    assert "" + amount == amount;
    var withSpace := amount + " ";
    assert withSpace[..|withSpace| - 1] == amount && withSpace[|withSpace| - 1] == ' ';
    assert SplitOnSpace(amount) == [amount];
    assert SplitOnSpace(withSpace) == [amount] + [""];
    SplitAppendNoSpace(withSpace, unit);
    var parts := SplitOnSpace(amount + " " + unit);
    assert parts == [amount, unit] by {
      var p := [amount] + [""];
      assert p[..|p| - 1] == [amount] && p[|p| - 1] == "";
      assert "" + unit == unit;
      assert withSpace + unit == amount + " " + unit;
    }
  }

  /** A weight as the measurement library holds it. */
  datatype Weight = Weight(amount: real, unit: string)

  /** A value handed to the scalar for output: a weight, or anything else. */
  datatype OutputValue = WeightValue(weight: Weight) | OtherValue

  /**
   * `WeightScalar.serialize`: the weight's text for a weight, `None` for
   * anything else. The measurement library's `str` is the parameter `show`.
   */
  function Serialize(v: OutputValue, show: Weight -> string): (r: Option<string>)
    ensures r.Some? <==> v.WeightValue?
    ensures v.WeightValue? ==> r == Some(show(v.weight))
  {
    match v
    case WeightValue(w) => Some(show(w))
    case OtherValue => None
  }

  /** `WeightScalar.parse_literal`: the literal node is passed through unchanged. */
  function ParseLiteral<N>(node: N): (r: N)
    ensures r == node
  {
    node
  }

  /** `ShippingMethodTypeEnum`: exactly the two kinds of shipping method. */
  datatype ShippingMethodType = PriceBased | WeightBased

  /** The enumeration's member names. */
  function EnumName(t: ShippingMethodType): (name: string)
    ensures name == "PRICE_BASED" <==> t == PriceBased
    ensures name == "WEIGHT_BASED" <==> t == WeightBased
  {
    match t
    case PriceBased => "PRICE_BASED"
    case WeightBased => "WEIGHT_BASED"
  }
}
