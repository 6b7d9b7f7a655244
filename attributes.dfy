/**
 * The type of a product attribute value: a colour when it matches the
 * colour pattern, otherwise a gradient, a URL or a plain string by
 * substring tests, in that priority order.
 *
 * The colour pattern is the anchored alternation
 *   '#' and 3 hex digits | '#' and 2, 3 or 4 pairs of hex digits |
 *   rgb/hsl, optional 'a', '(' then 2 or 3 groups (optional '-', digits,
 *   optional '%', one or more commas or blanks) then optional blanks,
 *   digits and dots, optional '%' and ')'.
 * It is matched from the start, and its final `$` also accepts one
 * trailing newline. Digit and blank classes are taken as ASCII.
 */
module Attributes {
  import opened Common

  predicate IsHexDigit(c: char)
  {
    ('0' <= c <= '9') || ('a' <= c <= 'f') || ('A' <= c <= 'F')
  }

  /** The character classes the pattern scans in runs. */
  datatype CharClass = Digit | Blank | NumberChar | Separator

  predicate InClass(c: char, k: CharClass)
  {
    match k
    case Digit => '0' <= c <= '9'
    case Blank => c == ' ' || (9 <= c as int <= 13)
    case NumberChar => ('0' <= c <= '9') || c == '.'
    case Separator => c == ',' || c == ' ' || (9 <= c as int <= 13)
  }

  /** The length of the longest prefix of `s` in class `k`. */
  function Span(s: string, k: CharClass): (n: nat)
    ensures n <= |s|
  {
    if s == [] || !InClass(s[0], k) then 0 else 1 + Span(s[1..], k)
  }

  predicate AllHex(s: string)
  {
    forall i :: 0 <= i < |s| ==> IsHexDigit(s[i])
  }

  /** `#[0-9a-fA-F]{3}` */
  predicate ShortHex(s: string)
  {
    |s| == 4 && s[0] == '#' && AllHex(s[1..])
  }

  /** `#(?:[0-9a-fA-F]{2}){2,4}` */
  predicate LongHex(s: string)
  {
    |s| >= 1 && s[0] == '#' && AllHex(s[1..]) && (|s| - 1 == 4 || |s| - 1 == 6 || |s| - 1 == 8)
  }

  /** One argument group: `-?\d+%?[,\s]+`. */
  predicate IsGroup(s: string)
  {
    UnsignedGroup(if |s| > 0 && s[0] == '-' then s[1..] else s)
  }

  /** A group after its optional sign: `\d+%?[,\s]+`. */
  predicate UnsignedGroup(t: string)
  {
    var d := Span(t, Digit);
    var u := t[d..];
    var v := if |u| > 0 && u[0] == '%' then u[1..] else u;
    d >= 1 && |v| >= 1 && Span(v, Separator) == |v|
  }

  /** The last argument and the closing parenthesis: `\s*[\d\.]+%?\)`. */
  predicate IsTail(s: string)
  {
    var t := s[Span(s, Blank)..];
    var n := Span(t, NumberChar);
    var u := t[n..];
    n >= 1 && (u == ")" || u == "%)")
  }

  /** After the opening parenthesis: 2 or 3 groups, then the tail. */
  predicate Args(r: string)
  {
    exists i, j :: 0 <= i <= j <= |r| && IsGroup(r[..i]) && IsGroup(r[i..j]) &&
      (IsTail(r[j..]) || exists k :: j <= k <= |r| && IsGroup(r[j..k]) && IsTail(r[k..]))
  }

  /** `(rgb|hsl)a?\(` followed by the arguments. */
  predicate FunctionalColor(s: string)
  {
    (|s| >= 4 && (s[..4] == "rgb(" || s[..4] == "hsl(") && Args(s[4..])) ||
    (|s| >= 5 && (s[..5] == "rgba(" || s[..5] == "hsla(") && Args(s[5..]))
  }

  /** The alternation between the anchors. */
  predicate ColorBody(s: string)
  {
    ShortHex(s) || LongHex(s) || FunctionalColor(s)
  }

  /** `color_pattern.match(s)`: the body up to the end, or up to a final newline. */
  predicate IsColor(s: string)
  {
    ColorBody(s) || (|s| > 0 && s[|s| - 1] == '\n' && ColorBody(s[..|s| - 1]))
  }

  /** `AttributeValueType`. */
  datatype AttributeValueType = Color | Gradient | Url | String

  /**
   * `resolve_attribute_value_type`: a colour-pattern match wins; then an
   * occurrence of "gradient(", then an occurrence of "://".
   */
  function ResolveAttributeValueType(s: string): (r: AttributeValueType)
    ensures r == Color <==> IsColor(s)
    ensures r == Gradient <==> !IsColor(s) && exists i :: OccursAt(s, "gradient(", i)
    ensures r == Url <==> !IsColor(s) && (forall i :: !OccursAt(s, "gradient(", i)) && exists i :: OccursAt(s, "://", i)
    ensures r == String <==> !IsColor(s) && (forall i :: !OccursAt(s, "gradient(", i)) && forall i :: !OccursAt(s, "://", i)
  {
    ContainsAt(s, "gradient(");
    ContainsAt(s, "://");
    if IsColor(s) then Color
    else if Contains(s, "gradient(") then Gradient
    else if Contains(s, "://") then Url
    else String
  }

  /** A stored attribute value: its name, slug and raw value. */
  datatype AttributeValue = AttributeValue(name: string, slug: string, value: string)

  /** `AttributeValue.resolve_type`: the type of the value field. */
  function ResolveType(root: AttributeValue): (r: AttributeValueType)
    ensures r == ResolveAttributeValueType(root.value)
  {
    ResolveAttributeValueType(root.value)
  }

  /** '#' followed by hex digits is a colour exactly for 3, 4, 6 or 8 digits (so never for 5 or 7). */
  lemma HexColorDigitCounts(h: string)
    requires AllHex(h)
    ensures IsColor("#" + h) <==> |h| == 3 || |h| == 4 || |h| == 6 || |h| == 8
  {
    var s := "#" + h;
    assert s[0] == '#' && s[1..] == h;
    if |h| > 0 {
      assert s[|s| - 1] == h[|h| - 1];
    }
    if |s| >= 4 {
      assert s[..4][0] == '#';
    }
    if |s| >= 5 {
      assert s[..5][0] == '#';
    }
  }

  /** The final `$` accepts one trailing newline: a colour followed by "\n" is still a colour. */
  lemma TrailingNewlineStillColor(s: string)
    requires ColorBody(s)
    ensures IsColor(s + "\n")
  {
    assert (s + "\n")[..|s|] == s;
  }

  /** A run of class `k` followed by a character outside it spans exactly the run. */
  lemma {:induction false} SpanOfRun(a: string, b: string, k: CharClass)
    requires forall i :: 0 <= i < |a| ==> InClass(a[i], k)
    requires |b| > 0 ==> !InClass(b[0], k)
    ensures Span(a + b, k) == |a|
    decreases |a|
  {
    if a == [] {
      assert a + b == b;
    } else {
      assert (a + b)[1..] == a[1..] + b;
      SpanOfRun(a[1..], b, k);
    }
  }

  /** After the sign, the digit run spans exactly the digits and leaves the rest. */
  lemma DigitsThenRest(digits: string, rest: string)
    requires forall i :: 0 <= i < |digits| ==> InClass(digits[i], Digit)
    requires |rest| > 0 && !InClass(rest[0], Digit)
    ensures Span(digits + rest, Digit) == |digits| && (digits + rest)[|digits|..] == rest
  {
    SpanOfRun(digits, rest, Digit);
  }

  /** An optional '%' and then separators: stripping the '%' leaves a pure separator run. */
  lemma PercentThenSeparators(percent: bool, separators: string)
    requires |separators| >= 1 && forall i :: 0 <= i < |separators| ==> InClass(separators[i], Separator)
    ensures var u := (if percent then "%" else "") + separators;
      |u| > 0 && !InClass(u[0], Digit) &&
      var v := if |u| > 0 && u[0] == '%' then u[1..] else u;
      v == separators && Span(v, Separator) == |v|
  {
    var u := (if percent then "%" else "") + separators;
    if percent {
      assert u[0] == '%' && u[1..] == separators;
    } else {
      assert u == separators;
    }
    SpanOfRun(separators, [], Separator);
    assert separators + [] == separators;
  }

  /** A digit run, an optional '%' and a separator run form a group without its sign. */
  lemma UnsignedGroupFromParts(digits: string, percent: bool, separators: string)
    requires |digits| >= 1 && forall i :: 0 <= i < |digits| ==> InClass(digits[i], Digit)
    requires |separators| >= 1 && forall i :: 0 <= i < |separators| ==> InClass(separators[i], Separator)
    ensures UnsignedGroup(digits + ((if percent then "%" else "") + separators))
  {
    var u := (if percent then "%" else "") + separators;
    PercentThenSeparators(percent, separators);
    DigitsThenRest(digits, u);
  }

  /** A group without its sign is a group, with or without a leading '-'. */
  lemma SignedGroup(t: string)
    requires UnsignedGroup(t) && |t| > 0 && t[0] != '-'
    ensures IsGroup(t) && IsGroup("-" + t)
  {
    assert ("-" + t)[1..] == t;
  }

  /** Every optional sign, digit run, optional '%' and separator run form a group. */
  lemma GroupFromParts(negative: bool, digits: string, percent: bool, separators: string)
    requires |digits| >= 1 && forall i :: 0 <= i < |digits| ==> InClass(digits[i], Digit)
    requires |separators| >= 1 && forall i :: 0 <= i < |separators| ==> InClass(separators[i], Separator)
    ensures IsGroup((if negative then "-" else "") + digits + (if percent then "%" else "") + separators)
  {
    var sign := if negative then "-" else "";
    var pc := if percent then "%" else "";
    var t := digits + (pc + separators);
    UnsignedGroupFromParts(digits, percent, separators);
    assert t[0] == digits[0];
    SignedGroup(t);
    Regroup(sign, digits, pc, separators);
    if !negative {
      assert sign + t == t;
    }
  }

  /** Concatenation regrouped to the right. */
  lemma Regroup(a: string, b: string, c: string, d: string)
    ensures a + b + c + d == a + (b + (c + d))
  {
  }

  /** Optional blanks, a run of digits and dots, an optional '%' and ')' form the tail. */
  lemma TailFromParts(blanks: string, number: string, percent: bool)
    requires forall i :: 0 <= i < |blanks| ==> InClass(blanks[i], Blank)
    requires |number| >= 1 && forall i :: 0 <= i < |number| ==> InClass(number[i], NumberChar)
    ensures IsTail(blanks + number + (if percent then "%)" else ")"))
  {
    var close := if percent then "%)" else ")";
    var s := blanks + number + close;
    assert s == blanks + (number + close);
    SpanOfRun(blanks, number + close, Blank);
    assert s[|blanks|..] == number + close;
    SpanOfRun(number, close, NumberChar);
    assert (number + close)[|number|..] == close;
  }

  /** Where the parts of a four-part concatenation sit. */
  lemma ConcatSlices(a: string, b: string, c: string, d: string)
    ensures var r := a + b + c + d;
      r[..|a|] == a && r[|a|..|a| + |b|] == b &&
      r[|a| + |b|..|a| + |b| + |c|] == c && r[|a| + |b| + |c|..] == d
  {
  }

  /** Two groups followed by a tail are the arguments of a functional colour. */
  lemma ArgsFromTwoGroups(g1: string, g2: string, tail: string)
    requires IsGroup(g1) && IsGroup(g2) && IsTail(tail)
    ensures Args(g1 + g2 + tail)
  {
    var r := g1 + g2 + tail;
    assert r[..|g1|] == g1 && r[|g1|..|g1| + |g2|] == g2 && r[|g1| + |g2|..] == tail;
  }

  /** Three groups followed by a tail are the arguments of a functional colour. */
  lemma ArgsFromThreeGroups(g1: string, g2: string, g3: string, tail: string)
    requires IsGroup(g1) && IsGroup(g2) && IsGroup(g3) && IsTail(tail)
    ensures Args(g1 + g2 + g3 + tail)
  {
    var r := g1 + g2 + g3 + tail;
    ConcatSlices(g1, g2, g3, tail);
    assert IsGroup(r[|g1| + |g2|..|g1| + |g2| + |g3|]);
  }

  /** An opening of a functional colour followed by its arguments is a colour. */
  lemma PrefixedArgs(prefix: string, r: string)
    requires prefix == "rgb(" || prefix == "rgba(" || prefix == "hsl(" || prefix == "hsla("
    requires Args(r)
    ensures IsColor(prefix + r)
  {
    var s := prefix + r;
    if |prefix| == 4 {
      assert s[..4] == prefix && s[4..] == r;
    } else {
      assert s[..5] == prefix && s[5..] == r;
    }
    assert FunctionalColor(s);
    assert ColorBody(s);
  }

  /** rgb(, rgba(, hsl( or hsla( followed by two or three groups and a tail is a colour. */
  lemma FunctionalColorFromParts(prefix: string, g1: string, g2: string, g3: Option<string>, tail: string)
    requires prefix == "rgb(" || prefix == "rgba(" || prefix == "hsl(" || prefix == "hsla("
    requires IsGroup(g1) && IsGroup(g2) && IsTail(tail)
    requires g3.Some? ==> IsGroup(g3.value)
    ensures IsColor(prefix + (g1 + g2 + (if g3.Some? then g3.value else "") + tail))
  {
    if g3.Some? {
      ArgsFromThreeGroups(g1, g2, g3.value, tail);
      PrefixedArgs(prefix, g1 + g2 + g3.value + tail);
    } else {
      assert g1 + g2 + "" + tail == g1 + g2 + tail;
      ArgsFromTwoGroups(g1, g2, tail);
      PrefixedArgs(prefix, g1 + g2 + tail);
    }
  }

  /** A gradient wins over a URL: a non-colour holding both "gradient(" and "://" is a gradient. */
  lemma GradientBeforeUrl(s: string)
    requires !IsColor(s) && Contains(s, "gradient(") && Contains(s, "://")
    ensures ResolveAttributeValueType(s) == Gradient
  {
    ContainsAt(s, "gradient(");
  }

  /** "linear-gradient(url://x)" is no colour and holds "gradient(", so its "://" is never consulted. */
  lemma LinearGradientWithUrl()
    ensures ResolveAttributeValueType("linear-gradient(url://x)") == Gradient
  {
    var s := "linear-gradient(url://x)";
    assert OccursAt(s, "gradient(", 7) by {
      assert s[7..16] == "gradient(";
    }
    assert !IsColor(s) by {
      assert s[0] == 'l' && s[|s| - 1] == ')';
      assert s[..4][0] == 'l';
      assert s[..5][0] == 'l';
      assert s[..|s| - 1][..4][0] == 'l';
      assert s[..|s| - 1][..5][0] == 'l';
    }
  }
}
