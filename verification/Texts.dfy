/** Go strings: finite sequences of bytes, with the few library operations the source uses. */
module Texts {
  import opened Wrappers

  /** One byte, written as the character with that code. */
  type Octet = c: char | c as int < 256 witness 'a'

  type Text = seq<Octet>

  /** The index of the first '/', or the length when there is none. */
  function FirstSlash(s: Text): (i: nat)
    ensures i <= |s|
    ensures '/' !in s[..i]
    ensures i < |s| ==> s[i] == '/'
  {
    if s == [] || s[0] == '/' then 0 else 1 + FirstSlash(s[1..])
  }

  /** `strings.SplitN(s, "/", 2)` when it yields two parts. */
  function SplitAtSlash(s: Text): (parts: Option<(Text, Text)>)
    ensures parts.Some? <==> '/' in s
    ensures parts.Some? ==>
      s == parts.value.0 + "/" + parts.value.1 && '/' !in parts.value.0
  {
    var i := FirstSlash(s);
    if i == |s| then
      assert s[..i] == s;
      None
    else
      Some((s[..i], s[i + 1..]))
  }

  lemma {:induction false} FirstSlashIs(before: Text, after: Text)
    requires '/' !in before
    ensures FirstSlash(before + "/" + after) == |before|
  {
    if before != [] {
      assert before[0] != '/';
      assert (before + "/" + after)[1..] == before[1..] + "/" + after;
      FirstSlashIs(before[1..], after);
    }
  }

  /** A split is determined by where the first slash stands. */
  lemma SplitIs(s: Text, before: Text, after: Text)
    requires s == before + "/" + after && '/' !in before
    ensures SplitAtSlash(s) == Some((before, after))
  {
    FirstSlashIs(before, after);
    assert s[..|before|] == before && s[|before| + 1..] == after;
  }

  /** `strings.Contains` */
  predicate Contains(s: Text, sub: Text) {
    exists i: nat :: i <= |s| && OccursAt(s, sub, i)
  }

  predicate OccursAt(s: Text, sub: Text, i: nat) {
    i + |sub| <= |s| && s[i..i + |sub|] == sub
  }

  const DIGITS: Text := "0123456789"

  predicate IsDigit(c: char) {
    '0' <= c <= '9'
  }

  /** `%d` of a non-negative number. */
  function Decimal(n: nat): (s: Text)
    ensures s != []
    ensures forall c :: c in s ==> IsDigit(c)
  {
    if n < 10 then [DIGITS[n]] else Decimal(n / 10) + [DIGITS[n % 10]]
  }

  /** The number a digit string stands for. */
  function Parse(s: Text): (n: int)
    requires forall c :: c in s ==> IsDigit(c)
  {
    if s == [] then 0 else 10 * Parse(s[..|s| - 1]) + (s[|s| - 1] as int - '0' as int)
  }

  /** Printing loses nothing, so distinct numbers print differently. */
  lemma {:induction false} ParseDecimal(n: nat)
    ensures Parse(Decimal(n)) == n
  {
    if n >= 10 {
      ParseDecimal(n / 10);
      var s := Decimal(n);
      assert s[..|s| - 1] == Decimal(n / 10);
    } else {
      assert Decimal(n)[..0] == [];
    }
  }

  function Base64Digit(n: nat): Octet
    requires n < 64
  {
    if n < 26 then (n + 65) as char
    else if n < 52 then (n + 71) as char
    else if n < 62 then (n - 4) as char
    else if n == 62 then '+' else '/'
  }

  /** Three bytes are four numbers of six bits. */
  function Sextet0(b0: Octet): (n: nat)
    ensures n < 64
  {
    b0 as int / 4
  }

  function Sextet1(b0: Octet, b1: Octet): (n: nat)
    ensures n < 64
  {
    b0 as int % 4 * 16 + b1 as int / 16
  }

  function Sextet2(b1: Octet, b2: Octet): (n: nat)
    ensures n < 64
  {
    b1 as int % 16 * 4 + b2 as int / 64
  }

  function Sextet3(b2: Octet): (n: nat)
    ensures n < 64
  {
    b2 as int % 64
  }

  const NUL: Octet := 0 as char

  /** The standard base64 encoding (section 4 of RFC 4648) that net/http uses for basic credentials. */
  function Base64(s: Text): Text {
    if s == [] then []
    else if |s| == 1 then [Base64Digit(Sextet0(s[0])), Base64Digit(Sextet1(s[0], NUL)), '=', '=']
    else if |s| == 2 then
      [Base64Digit(Sextet0(s[0])), Base64Digit(Sextet1(s[0], s[1])), Base64Digit(Sextet2(s[1], NUL)), '=']
    else
      [Base64Digit(Sextet0(s[0])), Base64Digit(Sextet1(s[0], s[1])), Base64Digit(Sextet2(s[1], s[2])),
       Base64Digit(Sextet3(s[2]))]
      + Base64(s[3..])
  }

  predicate IsBase64(c: char) {
    'A' <= c <= 'Z' || 'a' <= c <= 'z' || IsDigit(c) || c == '+' || c == '/'
  }

  function Base64Value(c: char): (n: nat)
    requires IsBase64(c)
    ensures n < 64
  {
    if 'A' <= c <= 'Z' then c as int - 65
    else if 'a' <= c <= 'z' then c as int - 71
    else if IsDigit(c) then c as int + 4
    else if c == '+' then 62 else 63
  }

  function Byte0(n0: nat, n1: nat): Octet
    requires n0 < 64 && n1 < 64
  {
    (n0 * 4 + n1 / 16) as char
  }

  function Byte1(n1: nat, n2: nat): Octet
    requires n1 < 64 && n2 < 64
  {
    (n1 % 16 * 16 + n2 / 4) as char
  }

  function Byte2(n2: nat, n3: nat): Octet
    requires n2 < 64 && n3 < 64
  {
    (n2 % 4 * 64 + n3) as char
  }

  /** Decoding, four digits at a time; None for what no encoding looks like. */
  function Unbase64(s: Text): Option<Text> {
    if s == [] then Some([])
    else if |s| < 4 || !IsBase64(s[0]) || !IsBase64(s[1]) then None
    else
      var n0, n1 := Base64Value(s[0]), Base64Value(s[1]);
      if s[2] == '=' then (if s[3..] == "=" then Some([Byte0(n0, n1)]) else None)
      else if !IsBase64(s[2]) then None
      else
        var n2 := Base64Value(s[2]);
        if s[3] == '=' then (if |s| == 4 then Some([Byte0(n0, n1), Byte1(n1, n2)]) else None)
        else if !IsBase64(s[3]) then None
        else
          match Unbase64(s[4..])
          case None => None
          case Some(rest) => Some([Byte0(n0, n1), Byte1(n1, n2), Byte2(n2, Base64Value(s[3]))] + rest)
  }

  lemma Base64DigitValue(n: nat)
    requires n < 64
    ensures var c := Base64Digit(n); IsBase64(c) && Base64Value(c) == n && c != '='
  {
  }

  lemma Byte0Back(b0: Octet, b1: Octet)
    ensures Byte0(Sextet0(b0), Sextet1(b0, b1)) == b0
  {
  }

  lemma LowBits(high: nat, low: nat)
    requires low < 16
    ensures (high * 16 + low) % 16 == low
  {
  }

  lemma TwoBits(high: nat, low: nat)
    requires low < 4
    ensures (high * 4 + low) / 4 == high && (high * 4 + low) % 4 == low
  {
  }

  lemma Byte1Back(b0: Octet, b1: Octet, b2: Octet)
    ensures Byte1(Sextet1(b0, b1), Sextet2(b1, b2)) == b1
  {
    var c0, c1, c2 := b0 as int, b1 as int, b2 as int;
    LowBits(c0 % 4, c1 / 16);
    TwoBits(c1 % 16, c2 / 64);
    assert c1 / 16 * 16 + c1 % 16 == c1;
  }

  lemma Byte2Back(b1: Octet, b2: Octet)
    ensures Byte2(Sextet2(b1, b2), Sextet3(b2)) == b2
  {
    TwoBits(b1 as int % 16, b2 as int / 64);
  }

  lemma DecodeOne(e: Text, n0: nat, n1: nat)
    requires n0 < 64 && n1 < 64 && e == [Base64Digit(n0), Base64Digit(n1), '=', '=']
    ensures Unbase64(e) == Some([Byte0(n0, n1)])
  {
    Base64DigitValue(n0);
    Base64DigitValue(n1);
    assert e[3..] == "=";
  }

  lemma DecodeTwo(e: Text, n0: nat, n1: nat, n2: nat)
    requires n0 < 64 && n1 < 64 && n2 < 64 && e == [Base64Digit(n0), Base64Digit(n1), Base64Digit(n2), '=']
    ensures Unbase64(e) == Some([Byte0(n0, n1), Byte1(n1, n2)])
  {
    Base64DigitValue(n0);
    Base64DigitValue(n1);
    Base64DigitValue(n2);
  }

  lemma DecodeThree(e: Text, n0: nat, n1: nat, n2: nat, n3: nat, rest: Text)
    requires n0 < 64 && n1 < 64 && n2 < 64 && n3 < 64 && |e| >= 4 && Unbase64(e[4..]) == Some(rest)
    requires e[0] == Base64Digit(n0) && e[1] == Base64Digit(n1) && e[2] == Base64Digit(n2) && e[3] == Base64Digit(n3)
    ensures Unbase64(e) == Some([Byte0(n0, n1), Byte1(n1, n2), Byte2(n2, n3)] + rest)
  {
    Base64DigitValue(n0);
    Base64DigitValue(n1);
    Base64DigitValue(n2);
    Base64DigitValue(n3);
  }

  lemma RoundTripOne(b0: Octet)
    ensures Unbase64(Base64([b0])) == Some([b0])
  {
    DecodeOne(Base64([b0]), Sextet0(b0), Sextet1(b0, NUL));
    Byte0Back(b0, NUL);
  }

  lemma RoundTripTwo(b0: Octet, b1: Octet)
    ensures Unbase64(Base64([b0, b1])) == Some([b0, b1])
  {
    DecodeTwo(Base64([b0, b1]), Sextet0(b0), Sextet1(b0, b1), Sextet2(b1, NUL));
    Byte0Back(b0, b1);
    Byte1Back(b0, b1, NUL);
  }

  lemma RoundTripThree(b0: Octet, b1: Octet, b2: Octet, rest: Text)
    requires Unbase64(Base64(rest)) == Some(rest)
    ensures Unbase64(Base64([b0, b1, b2] + rest)) == Some([b0, b1, b2] + rest)
  {
    var s := [b0, b1, b2] + rest;
    var e := Base64(s);
    assert s[3..] == rest;
    assert e[4..] == Base64(rest);
    DecodeThree(e, Sextet0(b0), Sextet1(b0, b1), Sextet2(b1, b2), Sextet3(b2), rest);
    Byte0Back(b0, b1);
    Byte1Back(b0, b1, b2);
    Byte2Back(b1, b2);
  }

  /** Decoding undoes encoding. */
  lemma {:induction false} Base64RoundTrip(s: Text)
    ensures Unbase64(Base64(s)) == Some(s)
    decreases |s|
  {
    if |s| == 1 {
      assert s == [s[0]];
      RoundTripOne(s[0]);
    } else if |s| == 2 {
      assert s == [s[0], s[1]];
      RoundTripTwo(s[0], s[1]);
    } else if |s| >= 3 {
      assert s == [s[0], s[1], s[2]] + s[3..];
      Base64RoundTrip(s[3..]);
      RoundTripThree(s[0], s[1], s[2], s[3..]);
    }
  }

  /** Element-wise translation of a slice, as an append loop builds it. */
  function Map<A, B>(f: A -> B, xs: seq<A>): (ys: seq<B>)
    ensures |ys| == |xs|
    ensures forall i :: 0 <= i < |xs| ==> ys[i] == f(xs[i])
  {
    if xs == [] then [] else [f(xs[0])] + Map(f, xs[1..])
  }

  /** One more turn of the append loop. */
  lemma MapAppend<A, B>(f: A -> B, xs: seq<A>, n: nat)
    requires n < |xs|
    ensures Map(f, xs[..n + 1]) == Map(f, xs[..n]) + [f(xs[n])]
  {
  }

  // --------------------------------------------------------------------------------------------------
  // In other words

  /** A text contains another exactly when it is the other with something before and after it. */
  lemma ContainsExactly(s: Text, sub: Text)
    ensures Contains(s, sub) <==> exists before: Text, after: Text :: s == before + sub + after
  {
    if Contains(s, sub) {
      var i: nat :| i <= |s| && OccursAt(s, sub, i);
      assert s == s[..i] + sub + s[i + |sub|..];
    }
    if before: Text, after: Text :| s == before + sub + after {
      assert OccursAt(s, sub, |before|);
    }
  }

  /** Digits come most significant first. */
  lemma DecimalExactly(n: nat, digit: nat)
    requires digit < 10
    ensures Decimal(digit) == [(48 + digit) as char]
    ensures n > 0 ==> Decimal(10 * n + digit) == Decimal(n) + Decimal(digit)
  {
  }

  /** Examples of section 10 of RFC 4648. */
  lemma KnownEncodings()
    ensures Base64("foob") == "Zm9vYg=="
    ensures Base64("fooba") == "Zm9vYmE="
    ensures Base64("foobar") == "Zm9vYmFy"
  {
    KnownQuantum("b", "Yg==");
    KnownQuantum("ba", "YmE=");
    KnownQuantum("bar", "YmFy");
  }

  lemma KnownQuantum(s: Text, encoded: Text)
    requires (s, encoded) in [("b", "Yg=="), ("ba", "YmE="), ("bar", "YmFy")]
    ensures Base64("foo" + s) == "Zm9v" + encoded
  {
    assert Base64("") == "";
    assert Base64(s) == encoded;
    var t: Text := "foo" + s;
    assert t[3..] == s && t[0] == 'f' && t[1] == 'o' && t[2] == 'o';
    assert [Base64Digit(Sextet0('f')), Base64Digit(Sextet1('f', 'o')), Base64Digit(Sextet2('o', 'o')),
            Base64Digit(Sextet3('o'))]
      == "Zm9v";
  }
}
