/** Cutting an agent's output to the summary limit without splitting a UTF-8 character. */
module Truncate {

  newtype Byte = n: int | 0 <= n < 256

  const SUMMARY_LIMIT: nat := 500

  // ---------- UTF-8, as section 4 of RFC 3629 defines it ----------

  predicate Tail(b: Byte) { 0x80 <= b <= 0xBF }

  /** The length of the character the bytes start with, or 0 if they start with none. */
  function CharLen(s: seq<Byte>): (n: nat)
    ensures n <= |s| && n <= 4
  {
    if |s| >= 1 && s[0] <= 0x7F then 1
    else if |s| >= 2 && 0xC2 <= s[0] <= 0xDF && Tail(s[1]) then 2
    else if |s| >= 3 && Second3(s[0], s[1]) && Tail(s[2]) then 3
    else if |s| >= 4 && Second4(s[0], s[1]) && Tail(s[2]) && Tail(s[3]) then 4
    else 0
  }

  predicate Second3(a: Byte, b: Byte) {
    || (a == 0xE0 && 0xA0 <= b <= 0xBF)
    || (0xE1 <= a <= 0xEC && Tail(b))
    || (a == 0xED && 0x80 <= b <= 0x9F)
    || (0xEE <= a <= 0xEF && Tail(b))
  }

  predicate Second4(a: Byte, b: Byte) {
    || (a == 0xF0 && 0x90 <= b <= 0xBF)
    || (0xF1 <= a <= 0xF3 && Tail(b))
    || (a == 0xF4 && 0x80 <= b <= 0x8F)
  }

  /** A Unicode scalar value: a code point other than the surrogates. */
  predicate Scalar(cp: nat) { cp < 0xD800 || 0xE000 <= cp < 0x11_0000 }

  /** The encoding of a Unicode scalar value. */
  function Encode(cp: nat): seq<Byte>
    requires Scalar(cp)
  {
    if cp < 0x80 then [cp as Byte]
    else if cp < 0x800 then [(0xC0 + cp / 0x40) as Byte, (0x80 + cp % 0x40) as Byte]
    else if cp < 0x1_0000 then
      [(0xE0 + cp / 0x1000) as Byte, (0x80 + cp / 0x40 % 0x40) as Byte, (0x80 + cp % 0x40) as Byte]
    else
      [(0xF0 + cp / 0x4_0000) as Byte, (0x80 + cp / 0x1000 % 0x40) as Byte, (0x80 + cp / 0x40 % 0x40) as Byte,
       (0x80 + cp % 0x40) as Byte]
  }

  /** Every encoded character is recognised, with its length. */
  lemma EncodedIsChar(cp: nat, rest: seq<Byte>)
    requires Scalar(cp)
    ensures CharLen(Encode(cp) + rest) == |Encode(cp)| > 0
  {
    var s := Encode(cp) + rest;
    assert forall i :: 0 <= i < |Encode(cp)| ==> s[i] == Encode(cp)[i];
  }

  lemma TwoBytes(a: Byte, b: Byte) returns (cp: nat)
    requires 0xC2 <= a <= 0xDF && Tail(b)
    ensures Scalar(cp) && Encode(cp) == [a, b]
  {
    var x, y := a as nat - 0xC0, b as nat - 0x80;
    cp := x * 0x40 + y;
    assert cp / 0x40 == x && cp % 0x40 == y;
  }

  lemma ThreeBytes(a: Byte, b: Byte, c: Byte) returns (cp: nat)
    requires Second3(a, b) && Tail(c)
    ensures Scalar(cp) && Encode(cp) == [a, b, c]
  {
    var x, y, z := a as nat - 0xE0, b as nat - 0x80, c as nat - 0x80;
    var high := x * 0x40 + y;
    cp := high * 0x40 + z;
    assert cp / 0x40 == high && cp % 0x40 == z;
    assert high % 0x40 == y && cp / 0x1000 == high / 0x40 == x;
  }

  lemma FourBytes(a: Byte, b: Byte, c: Byte, d: Byte) returns (cp: nat)
    requires Second4(a, b) && Tail(c) && Tail(d)
    ensures Scalar(cp) && Encode(cp) == [a, b, c, d]
  {
    var x, y, z, v := a as nat - 0xF0, b as nat - 0x80, c as nat - 0x80, d as nat - 0x80;
    var top := x * 0x40 + y;
    var high := top * 0x40 + z;
    cp := high * 0x40 + v;
    assert cp / 0x40 == high && cp % 0x40 == v;
    assert high % 0x40 == z && cp / 0x1000 == high / 0x40 == top;
    assert top % 0x40 == y && cp / 0x4_0000 == top / 0x40 == x;
  }

  /** And what is recognised is the encoding of some character. */
  lemma CharIsEncoded(s: seq<Byte>) returns (cp: nat)
    requires CharLen(s) > 0
    ensures Scalar(cp) && s[..CharLen(s)] == Encode(cp)
  {
    var n := CharLen(s);
    if n == 1 {
      cp := s[0] as int;
    } else if n == 2 {
      cp := TwoBytes(s[0], s[1]);
    } else if n == 3 {
      cp := ThreeBytes(s[0], s[1], s[2]);
    } else {
      cp := FourBytes(s[0], s[1], s[2], s[3]);
    }
  }

  predicate ValidUtf8(s: seq<Byte>) {
    s == [] || (CharLen(s) > 0 && ValidUtf8(s[CharLen(s)..]))
  }

  /** Position k lies between two characters of s. */
  predicate Boundary(s: seq<Byte>, k: nat)
    requires ValidUtf8(s)
  {
    k == 0 || (s != [] && k >= CharLen(s) && Boundary(s[CharLen(s)..], k - CharLen(s)))
  }

  predicate RuneStart(b: Byte) { !Tail(b) }

  // ---------- The cut ----------

  /** Steps back from the limit to the nearest byte that can start a character. */
  method Truncate(s: seq<Byte>) returns (r: seq<Byte>)
    ensures |s| <= SUMMARY_LIMIT ==> r == s
    ensures |s| > SUMMARY_LIMIT ==>
      && |r| <= SUMMARY_LIMIT && r == s[..|r|]
      && (|r| == 0 || RuneStart(s[|r|]))
      && forall k :: |r| < k <= SUMMARY_LIMIT ==> !RuneStart(s[k])
    ensures ValidUtf8(s) ==> LongestFit(s, r)
  {
    if |s| <= SUMMARY_LIMIT {
      if ValidUtf8(s) { WholeIsBoundary(s); }
      return s;
    }
    var cut := SUMMARY_LIMIT;
    while cut > 0 && !RuneStart(s[cut])
      invariant 0 <= cut <= SUMMARY_LIMIT
      invariant forall k :: cut < k <= SUMMARY_LIMIT ==> !RuneStart(s[k])
    {
      cut := cut - 1;
    }
    r := s[..cut];
    if ValidUtf8(s) { CutIsLongestFit(s, cut); }
  }

  /** The longest prefix within the limit that ends between characters; at most three bytes are given up. */
  ghost predicate LongestFit(s: seq<Byte>, r: seq<Byte>)
    requires ValidUtf8(s)
  {
    && |r| <= |s| && |r| <= SUMMARY_LIMIT && r == s[..|r|]
    && ValidUtf8(r) && Boundary(s, |r|)
    && (forall k :: |r| < k <= SUMMARY_LIMIT && k <= |s| ==> !Boundary(s, k))
    && (|s| > SUMMARY_LIMIT ==> |r| >= SUMMARY_LIMIT - 3)
  }

  // ---------- Why it is right ----------

  /** UTF-8 synchronises itself: a position is a boundary exactly if its byte can start a character. */
  lemma {:induction false} BoundaryIffStart(s: seq<Byte>, k: nat)
    requires ValidUtf8(s) && k < |s|
    ensures Boundary(s, k) <==> RuneStart(s[k])
    decreases |s|
  {
    var n := CharLen(s);
    if k >= n {
      BoundaryIffStart(s[n..], k - n);
      assert s[n..][k - n] == s[k];
    }
  }

  lemma {:induction false} WholeIsBoundary(s: seq<Byte>)
    requires ValidUtf8(s)
    ensures Boundary(s, |s|)
    decreases |s|
  {
    if s == [] {
    } else {
      WholeIsBoundary(s[CharLen(s)..]);
    }
  }

  lemma {:induction false} PrefixIsValid(s: seq<Byte>, k: nat)
    requires ValidUtf8(s) && k <= |s| && Boundary(s, k)
    ensures ValidUtf8(s[..k])
    decreases |s|
  {
    if k == 0 {
    } else {
      var n := CharLen(s);
      PrefixIsValid(s[n..], k - n);
      assert s[..k][n..] == s[n..][..k - n];
      assert CharLen(s[..k]) == n;
    }
  }

  /** Boundaries are never more than three bytes back. */
  lemma {:induction false} BoundaryNearby(s: seq<Byte>, k: nat) returns (b: nat)
    requires ValidUtf8(s) && k < |s|
    ensures b <= k <= b + 3 && Boundary(s, b)
    decreases |s|
  {
    var n := CharLen(s);
    if k < n {
      b := 0;
    } else {
      var rest := BoundaryNearby(s[n..], k - n);
      b := n + rest;
    }
  }

  lemma CutIsLongestFit(s: seq<Byte>, cut: nat)
    requires ValidUtf8(s) && |s| > SUMMARY_LIMIT >= cut
    requires cut == 0 || RuneStart(s[cut])
    requires forall k :: cut < k <= SUMMARY_LIMIT ==> !RuneStart(s[k])
    ensures LongestFit(s, s[..cut])
  {
    if cut > 0 { BoundaryIffStart(s, cut); }
    PrefixIsValid(s, cut);
    forall k | cut < k <= SUMMARY_LIMIT ensures !Boundary(s, k) {
      BoundaryIffStart(s, k);
    }
    var b := BoundaryNearby(s, SUMMARY_LIMIT);
  }
}
