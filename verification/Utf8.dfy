/** Byte strings and UTF-8, as section 4 of RFC 3629 defines it. */
module Utf8 {
  type Byte = n: nat | n < 256

  type Bytes = seq<Byte>

  /** The bytes of an ASCII text; any other character would be a question mark. */
  function Ascii(text: string): (r: Bytes)
    ensures |r| == |text| && forall i :: 0 <= i < |r| ==> r[i] < 0x80
    ensures forall i :: 0 <= i < |r| ==> r[i] == if text[i] < 128 as char then text[i] as nat else 63
  {
    if text == "" then [] else [if text[0] < 128 as char then text[0] as nat else 63] + Ascii(text[1..])
  }

  predicate Tail(b: Byte) {
    0x80 <= b <= 0xBF
  }

  /** One UTF8-char of the grammar. */
  predicate Char(s: Bytes) {
    || (|s| == 1 && s[0] <= 0x7F)
    || (|s| == 2 && 0xC2 <= s[0] <= 0xDF && Tail(s[1]))
    || (|s| == 3 && s[0] == 0xE0 && 0xA0 <= s[1] <= 0xBF && Tail(s[2]))
    || (|s| == 3 && 0xE1 <= s[0] <= 0xEC && Tail(s[1]) && Tail(s[2]))
    || (|s| == 3 && s[0] == 0xED && 0x80 <= s[1] <= 0x9F && Tail(s[2]))
    || (|s| == 3 && 0xEE <= s[0] <= 0xEF && Tail(s[1]) && Tail(s[2]))
    || (|s| == 4 && s[0] == 0xF0 && 0x90 <= s[1] <= 0xBF && Tail(s[2]) && Tail(s[3]))
    || (|s| == 4 && 0xF1 <= s[0] <= 0xF3 && Tail(s[1]) && Tail(s[2]) && Tail(s[3]))
    || (|s| == 4 && s[0] == 0xF4 && 0x80 <= s[1] <= 0x8F && Tail(s[2]) && Tail(s[3]))
  }

  /** The characters of Unicode: no surrogates. */
  predicate Scalar(c: nat) {
    c < 0xD800 || 0xE000 <= c <= 0x10FFFF
  }

  /** The encoding of a character (section 3 of RFC 3629). */
  function Encode(c: nat): (r: Bytes)
    requires Scalar(c)
  {
    if c <= 0x7F then [c]
    else if c <= 0x7FF then [0xC0 + c / 64, 0x80 + c % 64]
    else if c <= 0xFFFF then [0xE0 + c / 4096, 0x80 + c / 64 % 64, 0x80 + c % 64]
    else [0xF0 + c / 262144, 0x80 + c / 4096 % 64, 0x80 + c / 64 % 64, 0x80 + c % 64]
  }

  function Decode(s: Bytes): (c: nat)
    requires Char(s)
  {
    var x: int := s[0];
    var y: int := if |s| > 1 then s[1] - 0x80 else 0;
    var z: int := if |s| > 2 then s[2] - 0x80 else 0;
    if |s| == 1 then x
    else if |s| == 2 then (x - 0xC0) * 64 + y
    else if |s| == 3 then (x - 0xE0) * 4096 + y * 64 + z
    else (x - 0xF0) * 262144 + y * 4096 + z * 64 + (s[3] - 0x80)
  }

  lemma Parts(c: nat, n: nat)
    requires n > 0
    ensures c == c / n * n + c % n && c % n < n
  {
  }

  
  /** The six-bit digits of a character. */
  lemma SixBitDigits(c: nat)
    requires c <= 0x10FFFF
    ensures c / 64 == c / 4096 * 64 + c / 64 % 64
    ensures c / 4096 == c / 262144 * 64 + c / 4096 % 64
    ensures c == c / 262144 * 262144 + c / 4096 % 64 * 4096 + c / 64 % 64 * 64 + c % 64
    ensures c == c / 4096 * 4096 + c / 64 % 64 * 64 + c % 64
  {
    assert c / 4096 == c / 64 / 64 && c / 262144 == c / 4096 / 64;
    Parts(c / 64, 64);
    Parts(c / 4096, 64);
    Parts(c, 64);
  }

  lemma TwoBytes(q: nat, r: nat)
    requires r < 64 && 0x80 <= q * 64 + r <= 0x7FF
    ensures Char([0xC0 + q, 0x80 + r]) && Decode([0xC0 + q, 0x80 + r]) == q * 64 + r
  {
  }

  lemma ThreeBytes(p: nat, q: nat, r: nat)
    requires q < 64 && r < 64 && 0x7FF < p * 4096 + q * 64 + r <= 0xFFFF && Scalar(p * 4096 + q * 64 + r)
    ensures var s := [0xE0 + p, 0x80 + q, 0x80 + r]; Char(s) && Decode(s) == p * 4096 + q * 64 + r
  {
  }

  lemma FourBytes(o: nat, p: nat, q: nat, r: nat)
    requires p < 64 && q < 64 && r < 64 && 0xFFFF < o * 262144 + p * 4096 + q * 64 + r <= 0x10FFFF
    ensures var s := [0xF0 + o, 0x80 + p, 0x80 + q, 0x80 + r];
            Char(s) && Decode(s) == o * 262144 + p * 4096 + q * 64 + r
  {
  }

  /** The grammar of section 4 generates the encodings of section 3, */
  lemma EncodingIsChar(c: nat)
    requires Scalar(c)
    ensures Char(Encode(c)) && Decode(Encode(c)) == c
  {
    hide Char, Decode;
    SixBitDigits(c);
    if c <= 0x7F {
      OneByte(c);
    } else if c <= 0x7FF {
      Parts(c, 64);
      TwoBytes(c / 64, c % 64);
    } else if c <= 0xFFFF {
      ThreeBytes(c / 4096, c / 64 % 64, c % 64);
    } else {
      FourBytes(c / 262144, c / 4096 % 64, c / 64 % 64, c % 64);
    }
  }

  lemma OneByte(c: nat)
    requires c <= 0x7F
    ensures Char([c]) && Decode([c]) == c
  {
  }

  lemma Recombined(o: nat, p: nat, q: nat, r: nat)
    requires o < 5 && p < 64 && q < 64 && r < 64
    ensures var c := o * 262144 + p * 4096 + q * 64 + r;
            && c % 64 == r && c / 64 % 64 == q && c / 4096 % 64 == p && c / 262144 == o
            && c / 64 == o * 4096 + p * 64 + q && c / 4096 == o * 64 + p
  {
  }

  /** and nothing else. */
  lemma CharIsEncoding(s: Bytes)
    requires Char(s)
    ensures Scalar(Decode(s)) && Encode(Decode(s)) == s
  {
    var x: int := s[0];
    if |s| == 2 {
      Recombined(0, 0, x - 0xC0, s[1] - 0x80);
    } else if |s| == 3 {
      Recombined(0, x - 0xE0, s[1] - 0x80, s[2] - 0x80);
    } else if |s| == 4 {
      Recombined(x - 0xF0, s[1] - 0x80, s[2] - 0x80, s[3] - 0x80);
    }
  }

  /** The length of the character s begins with; 0 if it begins with none. */
  function Width(s: Bytes): (n: nat)
    ensures n <= 4 && n <= |s| && (n > 0 ==> Char(s[..n]))
  {
    if |s| >= 1 && Char(s[..1]) then 1
    else if |s| >= 2 && Char(s[..2]) then 2
    else if |s| >= 3 && Char(s[..3]) then 3
    else if |s| >= 4 && Char(s[..4]) then 4
    else 0
  }

  predicate Valid(s: Bytes) {
    s == [] || (Width(s) > 0 && Valid(s[Width(s)..]))
  }

  /** The first byte of a character says how long it is. */
  lemma WidthOf(c: Bytes, s: Bytes)
    requires Char(c)
    ensures Width(c + s) == |c|
  {
    assert forall i :: 0 <= i < |c| ==> (c + s)[i] == c[i];
    var n := Width(c + s);
    assert (c + s)[..|c|] == c;
    if 0 < n {
      assert (c + s)[..n][0] == c[0];
    }
  }

  lemma CharFirst(c: Bytes, s: Bytes)
    requires Char(c)
    ensures Valid(c + s) <==> Valid(s)
  {
    WidthOf(c, s);
    assert (c + s)[|c|..] == s;
  }

  /** Valid texts are exactly the sequences of characters: they may be joined, */
  lemma {:induction false} Joined(a: Bytes, b: Bytes)
    requires Valid(a)
    ensures Valid(a + b) <==> Valid(b)
  {
    hide Char, Width;
    if a == [] {
      assert a + b == b;
    } else {
      var n := Width(a);
      Joined(a[n..], b);
      CharFirst(a[..n], a[n..] + b);
      assert a[..n] + (a[n..] + b) == a + b;
    }
  }

  lemma {:induction false} AsciiIsValid(s: Bytes)
    requires forall i :: 0 <= i < |s| ==> s[i] < 0x80
    ensures Valid(s)
  {
    if s != [] {
      AsciiIsValid(s[1..]);
      CharFirst(s[..1], s[1..]);
      assert s[..1] + s[1..] == s;
    }
  }

  /** and cut before any position at most three bytes earlier. */
  lemma {:induction false} CutNearby(s: Bytes, k: nat) returns (j: nat)
    requires Valid(s) && k <= |s|
    ensures j <= k < j + 4 && Valid(s[..j])
  {
    hide Char, Width;
    var n := Width(s);
    if k < n || s == [] {
      j := 0;
    } else {
      j := CutNearby(s[n..], k - n);
      j := j + n;
      CharFirst(s[..n], s[n..][..j - n]);
      assert s[..j] == s[..n] + s[n..][..j - n];
    }
  }

  // ---- Replacing what is not valid --------------------------------------------

  /** U+FFFD */
  const REPLACEMENT: Bytes := [0xEF, 0xBF, 0xBD]

  /** strings.ToValidUTF8: every run of invalid bytes becomes one replacement character. */
  function ToValid(s: Bytes, inRun: bool := false): (r: Bytes)
    ensures Valid(r) && |r| <= 3 * |s|
  {
    if s == [] then []
    else if Width(s) == 0 then
      var rest := ToValid(s[1..], true);
      assert Char(REPLACEMENT);
      CharFirst(REPLACEMENT, rest);
      if inRun then rest else REPLACEMENT + rest
    else
      var n := Width(s);
      var rest := ToValid(s[n..], false);
      CharFirst(s[..n], rest);
      s[..n] + rest
  }

  /** A valid text is left alone. */
  lemma {:induction false} ToValidKeepsValid(s: Bytes, inRun: bool)
    requires Valid(s)
    ensures ToValid(s, inRun) == s
  {
    if s != [] {
      ToValidKeepsValid(s[Width(s)..], false);
    }
  }

  /** Every character of a text survives, in its place. */
  lemma {:induction false} ToValidAfterValid(a: Bytes, b: Bytes, inRun: bool)
    requires Valid(a) && a != []
    ensures ToValid(a + b, inRun) == a + ToValid(b, false)
  {
    hide Char, Width;
    var n := Width(a);
    WidthOf(a[..n], a[n..] + b);
    assert a[..n] + (a[n..] + b) == a + b;
    assert (a + b)[n..] == a[n..] + b;
    var rest := a[n..];
    if rest == [] {
      assert rest + b == b;
      assert a[..n] == a;
    } else {
      ToValidAfterValid(rest, b, false);
      assert a[..n] + (rest + ToValid(b, false)) == a + ToValid(b, false);
    }
  }

  lemma OneInvalidByte(s: Bytes, inRun: bool)
    requires s != [] && Width(s) == 0
    ensures ToValid(s, inRun) == (if inRun then [] else REPLACEMENT) + ToValid(s[1..], true)
  {
    hide Width;
    assert [] + ToValid(s[1..], true) == ToValid(s[1..], true);
  }

  /** However long a run of invalid bytes is, it becomes one character. */
  lemma {:induction false} RunBecomesOne(s: Bytes, n: nat, inRun: bool)
    requires 1 <= n <= |s| && forall k :: 0 <= k < n ==> Width(s[k..]) == 0
    ensures ToValid(s, inRun) == (if inRun then [] else REPLACEMENT) + ToValid(s[n..], true)
  {
    hide Width, ToValid;
    assert s[0..] == s;
    OneInvalidByte(s, inRun);
    if n > 1 {
      forall k | 0 <= k < n - 1 ensures Width(s[1..][k..]) == 0 {
        assert s[1..][k..] == s[k + 1..];
      }
      RunBecomesOne(s[1..], n - 1, true);
      assert s[1..][n - 1..] == s[n..];
    }
  }

  /** boundedUTF8: the longest valid prefix within the limit, which is at most three bytes below it. */
  method Bounded(value: Bytes, limit: nat) returns (r: Bytes)
    ensures Valid(r) && |r| <= limit && r <= ToValid(value)
    ensures |ToValid(value)| <= limit ==> r == ToValid(value)
    ensures |ToValid(value)| > limit ==> limit < |r| + 4
    ensures forall k :: |r| < k <= limit && k <= |ToValid(value)| ==> !Valid(ToValid(value)[..k])
  {
    hide Valid, ToValid;
    ghost var all := ToValid(value);
    r := ToValid(value);
    if |r| <= limit {
      return;
    }
    ghost var j := CutNearby(r, limit);
    r := r[..limit];
    while |r| > 0 && !Valid(r)
      invariant j <= |r| <= limit && r == all[..|r|]
      invariant forall k :: |r| < k <= limit ==> !Valid(all[..k])
    {
      r := r[..|r| - 1];
    }
  }
}
