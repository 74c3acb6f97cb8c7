/** Well-formed UTF-8 (RFC 3629, section 4), and cutting it to a byte budget. */
module Utf8 {

  type Byte = b: int | 0 <= b < 256

  predicate Tail(s: seq<Byte>, i: nat, end: nat)
    requires end <= |s|
  {
    i < end && 0x80 <= s[i] <= 0xBF
  }

  predicate Ranged(s: seq<Byte>, i: nat, end: nat, low: int, high: int)
    requires end <= |s|
  {
    i < end && low <= s[i] <= high
  }

  /** The length of the character that starts at `i` and ends before `end`, or
      zero if there is none. */
  function CharacterLength(s: seq<Byte>, i: nat, end: nat): (n: nat)
    requires i < end <= |s|
    ensures n <= 4 && i + n <= end
  {
    var b := s[i];
    if b <= 0x7F then 1
    else if 0xC2 <= b <= 0xDF then (if Tail(s, i + 1, end) then 2 else 0)
    else if 0xE0 <= b <= 0xEF then
      (if Ranged(s, i + 1, end, if b == 0xE0 then 0xA0 else 0x80, if b == 0xED then 0x9F else 0xBF)
       && Tail(s, i + 2, end) then 3 else 0)
    else if 0xF0 <= b <= 0xF4 then
      (if Ranged(s, i + 1, end, if b == 0xF0 then 0x90 else 0x80, if b == 0xF4 then 0x8F else 0xBF)
          && Tail(s, i + 2, end) && Tail(s, i + 3, end) then 4 else 0)
    else 0
  }

  predicate ValidBetween(s: seq<Byte>, i: nat, end: nat)
    requires i <= end <= |s|
    decreases end - i
  {
    i == end || (CharacterLength(s, i, end) > 0 && ValidBetween(s, i + CharacterLength(s, i, end), end))
  }

  predicate Valid(s: seq<Byte>) {
    ValidBetween(s, 0, |s|)
  }

  /** The length of the longest well-formed prefix within the limit. */
  function Cut(s: seq<Byte>, limit: nat): (n: nat)
    requires limit <= |s|
    ensures n <= limit && ValidBetween(s, 0, n)
    ensures forall k :: n < k <= limit ==> !ValidBetween(s, 0, k)
  {
    if limit == 0 || ValidBetween(s, 0, limit) then limit else Cut(s, limit - 1)
  }

  function Truncated(s: seq<Byte>, limit: nat): (cut: seq<Byte>)
    ensures |cut| <= limit && cut <= s
  {
    if |s| <= limit then s else s[..Cut(s, limit)]
  }

  /** A prefix is judged by its own bytes. */
  lemma {:induction false} PrefixAlone(s: seq<Byte>, i: nat, end: nat)
    requires i <= end <= |s|
    ensures ValidBetween(s[..end], i, end) <==> ValidBetween(s, i, end)
    decreases end - i
  {
    if i < end {
      var n := CharacterLength(s, i, end);
      assert CharacterLength(s[..end], i, end) == n;
      if n > 0 {
        PrefixAlone(s, i + n, end);
      }
    }
  }

  /** A character that ends before a point is the same whatever follows it. */
  lemma LongerEnd(s: seq<Byte>, i: nat, end: nat)
    requires i < end <= |s| && CharacterLength(s, i, |s|) > 0 && i + CharacterLength(s, i, |s|) <= end
    ensures CharacterLength(s, i, end) == CharacterLength(s, i, |s|)
  {
  }

  /** Some character boundary lies at most three bytes before any point. */
  lemma {:induction false} BoundaryNear(s: seq<Byte>, i: nat, limit: nat) returns (b: nat)
    requires i <= limit <= |s| && ValidBetween(s, i, |s|)
    ensures i <= b <= limit <= b + 3 && ValidBetween(s, i, b)
    decreases |s| - i
  {
    if i == |s| {
      b := i;
    } else {
      var n := CharacterLength(s, i, |s|);
      if i + n > limit {
        b := i;
      } else {
        b := BoundaryNear(s, i + n, limit);
        LongerEnd(s, i, b);
      }
    }
  }

  /** Cutting loses at most three bytes of the budget, and keeps the text
      well formed; no longer prefix within the budget is. */
  lemma CutIsTight(s: seq<Byte>, limit: nat)
    requires Valid(s)
    ensures Valid(Truncated(s, limit))
    ensures |s| > limit ==> limit <= |Truncated(s, limit)| + 3
    ensures forall k :: |Truncated(s, limit)| < k <= limit && k <= |s| ==> !Valid(s[..k])
  {
    if |s| > limit {
      var n := Cut(s, limit);
      var b := BoundaryNear(s, 0, limit);
      PrefixAlone(s, 0, n);
      forall k | n < k <= limit ensures !Valid(s[..k]) {
        PrefixAlone(s, 0, k);
      }
    }
  }

  /** A text that starts with a character of at most `limit` bytes is not cut to nothing. */
  lemma CutIsEmptyOnlyBelowFour(s: seq<Byte>, limit: nat)
    requires Valid(s) && s != [] && limit >= 4
    ensures Truncated(s, limit) != []
  {
    CutIsTight(s, limit);
  }

  method IsValid(s: seq<Byte>) returns (valid: bool)
    ensures valid == Valid(s)
  {
    var i := 0;
    while i < |s|
      invariant i <= |s| && Valid(s) == ValidBetween(s, i, |s|)
      decreases |s| - i
    {
      var n := CharacterLength(s, i, |s|);
      if n == 0 {
        return false;
      }
      i := i + n;
    }
    valid := true;
  }

  method TruncateBytes(value: seq<Byte>, limit: nat) returns (truncated: seq<Byte>)
    ensures truncated == Truncated(value, limit)
  {
    if |value| <= limit {
      return value;
    }
    truncated := value[..limit];
    while truncated != []
      invariant truncated == value[..|truncated|] && |truncated| <= limit
      invariant forall k :: |truncated| < k <= limit ==> !ValidBetween(value, 0, k)
      decreases |truncated|
    {
      var valid := IsValid(truncated);
      PrefixAlone(value, 0, |truncated|);
      if valid {
        break;
      }
      truncated := truncated[..|truncated| - 1];
    }
  }

  // ----- What is well formed -----

  /** A Unicode scalar value: every code point but the surrogates. */
  type Scalar = c: int | 0 <= c < 0xD800 || 0xE000 <= c < 0x11_0000

  /** Its encoding, six bits in each continuation byte. */
  function Encode(c: Scalar): (bytes: seq<Byte>)
    ensures 1 <= |bytes| <= 4
  {
    if c < 0x80 then [c]
    else if c < 0x800 then [0xC0 + c / 64, 0x80 + c % 64]
    else if c < 0x1_0000 then [0xE0 + c / 64 / 64, 0x80 + c / 64 % 64, 0x80 + c % 64]
    else [0xF0 + c / 64 / 64 / 64, 0x80 + c / 64 / 64 % 64, 0x80 + c / 64 % 64, 0x80 + c % 64]
  }

  function EncodeAll(text: seq<Scalar>): seq<Byte> {
    if text == [] then [] else Encode(text[0]) + EncodeAll(text[1..])
  }

  lemma SixBits(high: nat, low: nat)
    requires low < 64
    ensures (high * 64 + low) / 64 == high && (high * 64 + low) % 64 == low
  {
  }

  lemma ThreeBytes(a: nat, b: nat, c: nat) returns (scalar: Scalar)
    requires a < 16 && b < 64 && c < 64 && (a == 0 ==> b >= 0x20) && (a == 13 ==> b < 0x20)
    ensures Encode(scalar) == [0xE0 + a, 0x80 + b, 0x80 + c]
  {
    SixBits(a, b);
    SixBits(a * 64 + b, c);
    scalar := (a * 64 + b) * 64 + c;
  }

  lemma FourBytes(a: nat, b: nat, c: nat, d: nat) returns (scalar: Scalar)
    requires a < 5 && b < 64 && c < 64 && d < 64 && (a == 0 ==> b >= 0x10) && (a == 4 ==> b < 0x10)
    ensures Encode(scalar) == [0xF0 + a, 0x80 + b, 0x80 + c, 0x80 + d]
  {
    SixBits(a, b);
    SixBits(a * 64 + b, c);
    SixBits((a * 64 + b) * 64 + c, d);
    scalar := ((a * 64 + b) * 64 + c) * 64 + d;
  }

  /** A character is the encoding of a scalar value. */
  lemma DecodeOne(s: seq<Byte>, i: nat) returns (c: Scalar)
    requires i < |s| && CharacterLength(s, i, |s|) > 0
    ensures Encode(c) == s[i..i + CharacterLength(s, i, |s|)]
  {
    var n, a: int := CharacterLength(s, i, |s|), s[i];
    if n == 1 {
      return a;
    }
    var b: int := s[i + 1];
    if n == 2 {
      SixBits(a - 0xC0, b - 0x80);
      return (a - 0xC0) * 64 + (b - 0x80);
    }
    hide Encode;
    if n == 3 {
      c := ThreeBytes(a - 0xE0, b - 0x80, s[i + 2] - 0x80);
    } else {
      c := FourBytes(a - 0xF0, b - 0x80, s[i + 2] - 0x80, s[i + 3] - 0x80);
    }
  }

  lemma {:induction false} DecodeFrom(s: seq<Byte>, i: nat) returns (text: seq<Scalar>)
    requires i <= |s| && ValidBetween(s, i, |s|)
    ensures EncodeAll(text) == s[i..]
    decreases |s| - i
  {
    hide CharacterLength, Encode;
    if i == |s| {
      text := [];
    } else {
      var n := CharacterLength(s, i, |s|);
      var c := DecodeOne(s, i);
      var rest := DecodeFrom(s, i + n);
      text := [c] + rest;
      assert text[1..] == rest;
      assert s[i..] == s[i..i + n] + s[i + n..];
    }
  }

  /** The encoding of a scalar value is one character, whatever follows it. */
  lemma EncodesOne(c: Scalar, rest: seq<Byte>)
    ensures CharacterLength(Encode(c) + rest, 0, |Encode(c) + rest|) == |Encode(c)|
  {
    var s := Encode(c) + rest;
    assert forall k :: 0 <= k < |Encode(c)| ==> s[k] == Encode(c)[k];
  }

  lemma ShiftedLength(before: seq<Byte>, s: seq<Byte>, i: nat)
    requires i < |s|
    ensures CharacterLength(before + s, |before| + i, |before + s|) == CharacterLength(s, i, |s|)
  {
    assert forall k :: 0 <= k < |s| ==> (before + s)[|before| + k] == s[k];
    forall k: nat | i <= k <= i + 3
      ensures Tail(before + s, |before| + k, |before + s|) == Tail(s, k, |s|)
    {
    }
  }

  lemma {:induction false} ShiftedValid(before: seq<Byte>, s: seq<Byte>, i: nat)
    requires i <= |s| && ValidBetween(s, i, |s|)
    ensures ValidBetween(before + s, |before| + i, |before + s|)
    decreases |s| - i
  {
    hide CharacterLength;
    if i < |s| {
      ShiftedLength(before, s, i);
      ShiftedValid(before, s, i + CharacterLength(s, i, |s|));
    }
  }

  lemma {:induction false} EncodedIsValid(text: seq<Scalar>)
    ensures Valid(EncodeAll(text))
  {
    hide CharacterLength, Encode;
    if text != [] {
      EncodedIsValid(text[1..]);
      EncodesOne(text[0], EncodeAll(text[1..]));
      ShiftedValid(Encode(text[0]), EncodeAll(text[1..]), 0);
    }
  }

  /** Bytes are well formed exactly if they encode some text. */
  lemma ValidIff(s: seq<Byte>)
    ensures Valid(s) <==> exists text: seq<Scalar> :: EncodeAll(text) == s
  {
    if Valid(s) {
      var text := DecodeFrom(s, 0);
      assert s[0..] == s;
      assert EncodeAll(text) == s;
    }
    forall text: seq<Scalar> | EncodeAll(text) == s ensures Valid(s) {
      EncodedIsValid(text);
    }
  }
}
