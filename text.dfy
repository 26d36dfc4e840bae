/** Text helpers shared by every descriptor: Java's nullable references and fixed-width
    integers, Java's decimal rendering of integers (with a parser that inverts it), the
    concatenation of emitted fragments, and ASCII case-insensitive comparison. */
module Text {

  /** A Java reference that may be null. */
  datatype Option<+T> = None | Some(value: T) {
    function GetOr(default: T): T {
      if Some? then value else default
    }
  }

  /** Java's primitive integer widths (short, int, long). */
  type Int16 = x: int | -0x8000 <= x < 0x8000
  type Int32 = x: int | -0x8000_0000 <= x < 0x8000_0000
  type Int64 = x: int | -0x8000_0000_0000_0000 <= x < 0x8000_0000_0000_0000

  /** String concatenation of a possibly-null string: Java prints null as "null". */
  function OrNull(s: Option<string>): string {
    if s.Some? then s.value else "null"
  }

  predicate IsDigit(c: char) {
    '0' <= c <= '9'
  }

  predicate AllDigits(s: string) {
    forall i :: 0 <= i < |s| ==> IsDigit(s[i])
  }

  function DigitChar(d: nat): (c: char)
    requires d < 10
    ensures IsDigit(c) && c as int - '0' as int == d
  {
    ('0' as int + d) as char
  }

  /** Decimal digits of n, most significant first, without leading zeros. */
  function NatToString(n: nat): (r: string)
    ensures |r| > 0
  {
    if n < 10 then [DigitChar(n)] else NatToString(n / 10) + [DigitChar(n % 10)]
  }

  /** Only digits, and no leading zero except for zero itself. */
  lemma {:induction false} NatToStringDigits(n: nat)
    ensures AllDigits(NatToString(n))
    ensures NatToString(n)[0] == '0' ==> n == 0
  {
    if n >= 10 {
      NatToStringDigits(n / 10);
    }
  }

  /** How Java prints an int or a long: a leading '-' for negative values. */
  function IntToString(i: int): (r: string)
    ensures |r| > 0
  {
    if i < 0 then "-" + NatToString(-i) else NatToString(i)
  }

  /** The value of a string of decimal digits. */
  function DigitsValue(s: string): nat
    requires AllDigits(s)
  {
    if s == [] then 0 else DigitsValue(s[..|s| - 1]) * 10 + (s[|s| - 1] as int - '0' as int)
  }

  /** Reads back a decimal integer as Java prints it; None for any other text. */
  function ParseInt(s: string): Option<int> {
    if |s| > 1 && s[0] == '-' && AllDigits(s[1..]) then var v: int := DigitsValue(s[1..]); Some(-v)
    else if |s| > 0 && AllDigits(s) then Some(DigitsValue(s))
    else None
  }

  lemma {:induction false} NatToStringValue(n: nat)
    ensures AllDigits(NatToString(n)) && DigitsValue(NatToString(n)) == n
  {
    NatToStringDigits(n);
    if n >= 10 {
      var s := NatToString(n);
      NatToStringValue(n / 10);
      assert s[..|s| - 1] == NatToString(n / 10);
    }
  }

  /** The decimal rendering loses nothing: parsing it gives the integer back. */
  lemma IntToStringRoundTrip(i: int)
    ensures ParseInt(IntToString(i)) == Some(i)
  {
    var s := IntToString(i);
    if i < 0 {
      var digits := NatToString(-i);
      NatToStringValue(-i);
      assert s == "-" + digits;
      assert s[1..] == digits;
      var v: int := DigitsValue(digits);
      assert ParseInt(s) == Some(-v);
    } else {
      NatToStringValue(i);
      assert IsDigit(s[0]);
      assert ParseInt(s) == Some(DigitsValue(s));
    }
  }

  /** Two integers print alike only when they are equal. */
  lemma IntToStringInjective(i: int, j: int)
    ensures IntToString(i) == IntToString(j) <==> i == j
  {
    IntToStringRoundTrip(i);
    IntToStringRoundTrip(j);
  }

  /** No single quote: such text cannot end an attribute value early. */
  predicate NoQuote(s: string) {
    forall i :: 0 <= i < |s| ==> s[i] != '\''
  }

  lemma IntToStringNoQuote(i: int)
    ensures NoQuote(IntToString(i))
  {
    var r := IntToString(i);
    NatToStringDigits(if i < 0 then -i else i);
    if i < 0 {
      assert forall k :: 1 <= k < |r| ==> r[k] == NatToString(-i)[k - 1];
    }
  }

  /** An attribute value without quotes is recovered from the text around it: when the
      same prefix is followed by two quote-free values each closed by a quote, the values
      and what follows them coincide. */
  lemma QuotedValueUnique(pre: string, x: string, rx: string, y: string, ry: string)
    requires pre + x + rx == pre + y + ry
    requires NoQuote(x) && NoQuote(y)
    requires |rx| > 0 && rx[0] == '\'' && |ry| > 0 && ry[0] == '\''
    ensures x == y && rx == ry
  {
    var s := pre + x + rx;
    var t := pre + y + ry;
    // The quote that closes each value sits where the other value must have ended.
    assert s[|pre| + |x|] == '\'' && t[|pre| + |x|] == '\'';
    assert t[|pre| + |y|] == '\'' && s[|pre| + |y|] == '\'';
    assert |x| == |y|;
    assert x == s[|pre|..|pre| + |x|];
    assert y == t[|pre|..|pre| + |y|];
    assert rx == s[|pre| + |x|..];
    assert ry == t[|pre| + |y|..];
  }

  /** Text between the same prefix and suffix is determined by the whole. */
  lemma MiddleUnique(a: string, x: string, y: string, b: string)
    requires a + x + b == a + y + b
    ensures x == y
  {
    assert |x| == |y|;
    assert x == (a + x + b)[|a|..|a| + |x|];
    assert y == (a + y + b)[|a|..|a| + |y|];
  }

  /** The same, with two fixed pieces after the middle. */
  lemma FieldUnique(pre: string, x: string, y: string, post: string, rest: string)
    requires pre + x + post + rest == pre + y + post + rest
    ensures x == y
  {
    assert pre + x + post + rest == pre + x + (post + rest);
    assert pre + y + post + rest == pre + y + (post + rest);
    MiddleUnique(pre, x, y, post + rest);
  }

  lemma Assoc(a: string, b: string, c: string)
    ensures a + (b + c) == a + b + c
  {
  }

  lemma Regroup(a: string, b: string, c: string, d: string, e: string)
    ensures a + b + c + d + e == a + b + (c + d + e)
  {
  }

  /** The last character of a concatenation is the last one of its non-empty tail. */
  lemma LastOfConcat(a: string, b: string)
    requires |b| > 0
    ensures (a + b)[|a + b| - 1] == b[|b| - 1]
  {
  }

  /** The text a StringBuilder holds after appending the fragments in order. */
  function Join(parts: seq<string>): string {
    if parts == [] then "" else Join(parts[..|parts| - 1]) + parts[|parts| - 1]
  }

  lemma {:induction false} JoinAppend(a: seq<string>, b: seq<string>)
    ensures Join(a + b) == Join(a) + Join(b)
  {
    if b != [] {
      JoinAppend(a, b[..|b| - 1]);
      assert (a + b)[..|a + b| - 1] == a + b[..|b| - 1];
      assert (a + b)[|a + b| - 1] == b[|b| - 1];
      assert Join(b) == Join(b[..|b| - 1]) + b[|b| - 1];
    } else {
      assert a + b == a;
    }
  }

  /** One more append extends the text by that fragment. */
  lemma JoinSnoc(parts: seq<string>, i: nat)
    requires i < |parts|
    ensures Join(parts[..i + 1]) == Join(parts[..i]) + parts[i]
  {
    assert parts[..i + 1][..i] == parts[..i];
  }

  /** An element holding text, such as <name>vm</name>. */
  function TextElement(tag: string, body: string): string {
    "<" + tag + ">" + body + "</" + tag + ">\n"
  }

  /** The text reads back from its element. */
  lemma TextElementInjective(tag: string, x: string, y: string)
    requires TextElement(tag, x) == TextElement(tag, y)
    ensures x == y
  {
    var a, b := TextElement(tag, x), TextElement(tag, y);
    var k := |"<" + tag + ">"|;
    assert a[k..k + |x|] == x;
    assert b[k..k + |y|] == y;
  }

  /** An element whose text is a Java integer, such as <vcpu>2</vcpu>. */
  function NumberElement(tag: string, n: int): string {
    TextElement(tag, IntToString(n))
  }

  /** The number reads back from its element. */
  lemma NumberElementInjective(tag: string, n: int, m: int)
    requires NumberElement(tag, n) == NumberElement(tag, m)
    ensures n == m
  {
    TextElementInjective(tag, IntToString(n), IntToString(m));
    IntToStringInjective(n, m);
  }

  lemma TextElementSig(tag: string, body: string)
    requires |tag| >= 3
    ensures Sig(TextElement(tag, body)) == (tag[0], tag[1], tag[2])
  {
  }

  lemma NumberElementSig(tag: string, n: int)
    requires |tag| >= 3
    ensures Sig(NumberElement(tag, n)) == (tag[0], tag[1], tag[2])
  {
    TextElementSig(tag, IntToString(n));
  }

  predicate StartsWith(s: string, prefix: string) {
    |prefix| <= |s| && s[..|prefix|] == prefix
  }

  /** A fragment that opens with some markup has that markup's characters in front. */
  lemma StartsWithConcat(prefix: string, rest: string)
    ensures StartsWith(prefix + rest, prefix)
  {
    assert (prefix + rest)[..|prefix|] == prefix;
  }

  lemma StartsWithExtend(s: string, prefix: string, t: string)
    requires StartsWith(s, prefix)
    ensures StartsWith(s + t, prefix)
  {
    assert (s + t)[..|prefix|] == s[..|prefix|];
  }

  lemma StartsWithAt(s: string, prefix: string, k: nat)
    requires StartsWith(s, prefix) && k < |prefix|
    ensures s[k] == prefix[k]
  {
    assert s[..|prefix|][k] == s[k];
  }

  /** The three characters after a fragment's opening '<': enough to tell apart the
      elements one descriptor emits. */
  function Sig(l: string): (char, char, char) {
    if |l| >= 4 then (l[1], l[2], l[3]) else ('<', '<', '<')
  }

  lemma SigOf(l: string, prefix: string)
    requires StartsWith(l, prefix) && |prefix| >= 4
    ensures Sig(l) == (prefix[1], prefix[2], prefix[3])
  {
    StartsWithAt(l, prefix, 1);
    StartsWithAt(l, prefix, 2);
    StartsWithAt(l, prefix, 3);
  }

  /** Text appended after the first four characters leaves the opening unchanged. */
  lemma SigConcat(a: string, b: string)
    requires |a| >= 4
    ensures Sig(a + b) == Sig(a)
  {
    assert (a + b)[1] == a[1] && (a + b)[2] == a[2] && (a + b)[3] == a[3];
  }

  /** Some emitted fragment opens with the given markup. */
  predicate HasElement(lines: seq<string>, opening: string) {
    exists l :: l in lines && StartsWith(l, opening)
  }

  /** ASCII lower-casing. */
  function LowerAscii(c: char): char {
    if 'A' <= c <= 'Z' then (c as int + 32) as char else c
  }

  /** String.equalsIgnoreCase restricted to ASCII case folding; a null argument never matches. */
  predicate EqualsIgnoreCase(a: string, b: Option<string>) {
    b.Some? && |a| == |b.value| && forall i :: 0 <= i < |a| ==> LowerAscii(a[i]) == LowerAscii(b.value[i])
  }
}
