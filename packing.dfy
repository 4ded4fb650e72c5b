/** Python's `struct.pack` for the format codes the catman writer uses, as
    bytes in native (little-endian, Windows) order: "B" is 1 byte, "H" 2,
    "L" 4, "Ns" a byte string cut or zero-padded to exactly N bytes; plus the
    UTF-8 encoding of `str.encode`, and the readers that undo each of them. */
module Packing {
  import opened Py

  newtype byte = x: int | 0 <= x < 256

  const U16_LIMIT: int := 0x1_0000
  const U32_LIMIT: int := 0x1_0000_0000

  /** The values struct.pack("H", n) accepts; any other raises struct.error. */
  predicate FitsU16(n: int) { 0 <= n < U16_LIMIT }

  /** The values struct.pack("L", n) accepts. */
  predicate FitsU32(n: int) { 0 <= n < U32_LIMIT }

  function Zeros(n: nat): (r: seq<byte>)
    ensures |r| == n && forall i :: 0 <= i < n ==> r[i] == 0
  {
    seq(n, _ => 0)
  }

  /** struct.pack("B", n) */
  function PackU8(n: int): (r: seq<byte>)
    requires 0 <= n < 256
  {
    [n as byte]
  }

  /** struct.pack("H", n): two bytes, least significant first. */
  function PackU16(n: int): (r: seq<byte>)
    requires FitsU16(n)
    ensures |r| == 2
  {
    [(n % 256) as byte, (n / 256) as byte]
  }

  /** struct.pack("L", n): four bytes, least significant first. */
  function PackU32(n: int): (r: seq<byte>)
    requires FitsU32(n)
    ensures |r| == 4
  {
    [(n % 256) as byte, ((n / 256) % 256) as byte,
     ((n / 0x1_0000) % 256) as byte, (n / 0x100_0000) as byte]
  }

  /** The unsigned 16-bit little-endian value stored at `s[pos..pos+2]`. */
  function U16At(s: seq<byte>, pos: nat): nat
    requires pos + 2 <= |s|
  {
    s[pos] as nat + 256 * s[pos + 1] as nat
  }

  /** The unsigned 32-bit little-endian value stored at `s[pos..pos+4]`. */
  function U32At(s: seq<byte>, pos: nat): nat
    requires pos + 4 <= |s|
  {
    s[pos] as nat + 256 * s[pos + 1] as nat
      + 0x1_0000 * s[pos + 2] as nat + 0x100_0000 * s[pos + 3] as nat
  }

  /** Reading a packed "H" field back, wherever it sits, gives the value packed. */
  lemma U16RoundTrip(a: seq<byte>, n: int, b: seq<byte>)
    requires FitsU16(n)
    ensures U16At(a + PackU16(n) + b, |a|) == n
  {
    var s := a + PackU16(n) + b;
    assert s[|a|] as int == n % 256 && s[|a| + 1] as int == n / 256;
  }

  /** Reading a packed "L" field back, wherever it sits, gives the value packed. */
  lemma U32RoundTrip(a: seq<byte>, n: int, b: seq<byte>)
    requires FitsU32(n)
    ensures U32At(a + PackU32(n) + b, |a|) == n
  {
    var s := a + PackU32(n) + b;
    assert s[|a|..|a| + 4] == PackU32(n);
    var q1 := n / 256;
    var q2 := q1 / 256;
    assert n / 0x1_0000 == q2;
    assert n / 0x100_0000 == q2 / 256;
    assert n == n % 256 + 256 * (q1 % 256 + 256 * (q2 % 256 + 256 * (q2 / 256)));
  }

  /** A 16-bit field read inside a window of `s` reads the same in the window. */
  lemma U16AtShift(s: seq<byte>, t: seq<byte>, p: nat, k: nat)
    requires p + |t| <= |s| && s[p..p + |t|] == t && k + 2 <= |t|
    ensures U16At(s, p + k) == U16At(t, k)
  {
    assert s[p + k] == t[k] && s[p + k + 1] == t[k + 1];
  }

  /** A 32-bit field read inside a window of `s` reads the same in the window. */
  lemma U32AtShift(s: seq<byte>, t: seq<byte>, p: nat, k: nat)
    requires p + |t| <= |s| && s[p..p + |t|] == t && k + 4 <= |t|
    ensures U32At(s, p + k) == U32At(t, k)
  {
    assert s[p + k] == t[k] && s[p + k + 1] == t[k + 1];
    assert s[p + k + 2] == t[k + 2] && s[p + k + 3] == t[k + 3];
  }

  /** Byte blocks written one after another. */
  function Concat(bs: seq<seq<byte>>): (r: seq<byte>)
  {
    if bs == [] then [] else Concat(bs[..|bs| - 1]) + bs[|bs| - 1]
  }

  /** One more block goes at the end. */
  lemma ConcatSnoc(bs: seq<seq<byte>>, b: seq<byte>)
    ensures Concat(bs + [b]) == Concat(bs) + b
  {
    assert (bs + [b])[..|bs|] == bs;
  }

  /** A non-empty sequence is its front and its last element. */
  lemma FrontLast<T>(a: seq<T>)
    requires |a| > 0
    ensures a == a[..|a| - 1] + [a[|a| - 1]]
  {
  }

  /** A slice of a slice is a slice of the whole. */
  lemma SliceOfSlice<T>(a: seq<T>, lo: nat, hi: nat, i: nat, j: nat)
    requires lo <= hi <= |a| && i <= j <= hi - lo
    ensures a[lo..hi][i..j] == a[lo + i .. lo + j]
  {
    var b := a[lo..hi];
    forall k | 0 <= k < j - i
      ensures b[i..j][k] == a[lo + i .. lo + j][k]
    {
      assert b[i..j][k] == b[i + k] == a[lo + i + k];
    }
  }

  /** Element `i` after appending `x` to `a`: `a`'s own, or `x` at the end. */
  lemma SnocAt<T>(a: seq<T>, x: T, i: nat)
    requires i <= |a|
    ensures (a + [x])[i] == if i < |a| then a[i] else x
  {
  }

  /** Writing the blocks splits, at any block, into the blocks before it and
      the blocks from it on. */
  lemma {:induction false} ConcatSplit(bs: seq<seq<byte>>, i: nat)
    requires i <= |bs|
    ensures Concat(bs) == Concat(bs[..i]) + Concat(bs[i..])
  {
    if i == |bs| {
      assert bs[..i] == bs;
      assert bs[i..] == [];
    } else {
      var init := bs[..|bs| - 1];
      ConcatSplit(init, i);
      assert init[..i] == bs[..i];
      assert bs[i..][..|bs[i..]| - 1] == init[i..];
    }
  }

  /** From block `i` on, the output starts with block `i`. */
  lemma ConcatFrom(bs: seq<seq<byte>>, i: nat)
    requires i < |bs|
    ensures Concat(bs[i..]) == bs[i] + Concat(bs[i + 1..])
  {
    var tl := bs[i..];
    ConcatSplit(tl, 1);
    assert tl[..1] == [bs[i]];
    assert Concat([bs[i]]) == Concat([]) + bs[i];
    assert tl[1..] == bs[i + 1..];
  }

  /** Block `i` starts at the total length of the blocks before it and lies
      inside the output. */
  lemma ConcatAt(bs: seq<seq<byte>>, i: nat)
    requires i < |bs|
    ensures |Concat(bs[..i])| + |bs[i]| <= |Concat(bs)|
    ensures Concat(bs) == Concat(bs[..i]) + bs[i] + Concat(bs[i + 1..])
  {
    ConcatSplit(bs, i);
    ConcatFrom(bs, i);
  }

  /** In `pre + Concat(bs) + post`, block `i` starts right after `pre` and the
      blocks before it. */
  lemma ConcatWindow(pre: seq<byte>, bs: seq<seq<byte>>, post: seq<byte>, i: nat)
    requires i < |bs|
    ensures |pre| + |Concat(bs[..i])| <= |pre + Concat(bs) + post|
    ensures (pre + Concat(bs) + post)[|pre| + |Concat(bs[..i])|..]
         == bs[i] + (Concat(bs[i + 1..]) + post)
  {
    ConcatAt(bs, i);
    var c1 := Concat(bs[..i]);
    var c2 := Concat(bs[i + 1..]);
    var y := bs[i] + (c2 + post);
    Assoc(pre, Concat(bs), post);
    Reassoc4(c1, bs[i], c2, post);
    Assoc(pre, c1, y);
    Suffix(pre + c1, y);
  }

  /** Where each block starts when the blocks are written one after another
      from offset `base`. */
  function Starts(base: nat, bs: seq<seq<byte>>): (r: seq<int>)
    ensures |r| == |bs|
    ensures forall i :: 0 <= i < |bs| ==> base <= r[i] <= base + |Concat(bs)|
  {
    PrefixesFit(bs);
    seq(|bs|, i requires 0 <= i < |bs| => base + |Concat(bs[..i])|)
  }

  lemma PrefixesFit(bs: seq<seq<byte>>)
    ensures forall i :: 0 <= i < |bs| ==> |Concat(bs[..i])| <= |Concat(bs)|
  {
    forall i | 0 <= i < |bs|
      ensures |Concat(bs[..i])| <= |Concat(bs)|
    {
      ConcatAt(bs, i);
    }
  }

  /** Following start `i` of blocks written from offset `base` through
      `pre + Concat(bs) + post`, with `pre` that long, lands on block `i`. */
  lemma StartsLocate(pre: seq<byte>, bs: seq<seq<byte>>, post: seq<byte>, base: nat, i: nat)
    requires base == |pre| && i < |bs|
    ensures Starts(base, bs)[i] <= |pre + Concat(bs) + post|
    ensures (pre + Concat(bs) + post)[Starts(base, bs)[i]..] == bs[i] + (Concat(bs[i + 1..]) + post)
  {
    ConcatWindow(pre, bs, post, i);
  }

  /** Regrouping byte strings written one after another. */
  lemma Assoc(a: seq<byte>, b: seq<byte>, c: seq<byte>)
    ensures a + b + c == a + (b + c)
  {
  }

  lemma Reassoc4(a: seq<byte>, b: seq<byte>, c: seq<byte>, d: seq<byte>)
    ensures a + b + c + d == a + (b + (c + d))
  {
    Assoc(a + b, c, d);
    Assoc(a, b, c + d);
  }

  lemma Reassoc5(a: seq<byte>, b: seq<byte>, c: seq<byte>, d: seq<byte>, e: seq<byte>)
    ensures a + b + c + d + e == a + (b + (c + (d + e)))
  {
    Assoc(a + b + c, d, e);
    Reassoc4(a, b, c, d + e);
  }

  lemma Reassoc6(a: seq<byte>, b: seq<byte>, c: seq<byte>, d: seq<byte>, e: seq<byte>, f: seq<byte>)
    ensures a + b + c + d + e + f == a + (b + (c + (d + (e + f))))
  {
    Assoc(a + b + c + d, e, f);
    Reassoc5(a, b, c, d, e + f);
  }

  lemma Suffix(a: seq<byte>, b: seq<byte>)
    ensures (a + b)[|a|..] == b
  {
  }

  /** The three parts of `a + m + z` sit where their lengths put them. */
  lemma Parts(a: seq<byte>, m: seq<byte>, z: seq<byte>)
    ensures (a + m + z)[..|a|] == a
    ensures (a + m + z)[|a|..|a| + |m|] == m
    ensures (a + m + z)[|a| + |m|..] == z
  {
  }

  /** Replacing the middle part of `a + m + z` by a part of the same length. */
  lemma Overwrite(a: seq<byte>, m: seq<byte>, z: seq<byte>, w: seq<byte>)
    requires |w| == |m|
    ensures a + w + z == (a + m + z)[..|a|] + w + (a + m + z)[|a| + |m|..]
  {
    var s := a + m + z;
    assert s[..|a|] == a;
    assert s[|a| + |m|..] == z;
  }

  /** The output of `n` blocks of one length `k` is `n * k` bytes long. */
  lemma {:induction false} ConcatUniform(bs: seq<seq<byte>>, k: nat)
    requires forall i :: 0 <= i < |bs| ==> |bs[i]| == k
    ensures |Concat(bs)| == |bs| * k
  {
    if bs != [] {
      ConcatUniform(bs[..|bs| - 1], k);
    }
  }

  /** struct.pack("Ns", s): the first N bytes of s, zero-padded up to N. */
  function PadTo(s: seq<byte>, n: nat): (r: seq<byte>)
    ensures |r| == n
    ensures forall i :: 0 <= i < n ==> r[i] == if i < |s| then s[i] else 0
  {
    if |s| >= n then s[..n] else s + Zeros(n - |s|)
  }

  /** The UTF-8 encoding of one Unicode scalar value. */
  function Utf8Char(c: char): (r: seq<byte>)
    ensures 1 <= |r| <= 4
    ensures |r| == 1 <==> c as int < 0x80
  {
    var cp := c as int;
    if cp < 0x80 then
      [cp as byte]
    else if cp < 0x800 then
      [(0xC0 + cp / 64) as byte, (0x80 + cp % 64) as byte]
    else if cp < 0x1_0000 then
      [(0xE0 + cp / 4096) as byte, (0x80 + (cp / 64) % 64) as byte, (0x80 + cp % 64) as byte]
    else
      [(0xF0 + cp / 262144) as byte, (0x80 + (cp / 4096) % 64) as byte,
       (0x80 + (cp / 64) % 64) as byte, (0x80 + cp % 64) as byte]
  }

  predicate IsAscii(s: string)
  {
    forall i :: 0 <= i < |s| ==> s[i] as int < 0x80
  }

  /** `s.encode("utf8")`: each character in turn, in one to four bytes. An
      ASCII string encodes to its code points, one byte each. */
  function Utf8(s: string): (r: seq<byte>)
    ensures |s| <= |r| <= 4 * |s|
    ensures IsAscii(s) ==> |r| == |s| && forall i :: 0 <= i < |s| ==> r[i] as int == s[i] as int
  {
    if s == [] then [] else Utf8Char(s[0]) + Utf8(s[1..])
  }

  /** The bytes of an ASCII string: its code points. */
  function Ascii(s: string): (r: seq<byte>)
    requires IsAscii(s)
    ensures |r| == |s|
  {
    seq(|s|, i requires 0 <= i < |s| => s[i] as int as byte)
  }

  /** On ASCII text the UTF-8 encoding is the code points, one byte each. */
  lemma {:induction false} Utf8Ascii(s: string)
    requires IsAscii(s)
    ensures Utf8(s) == Ascii(s)
  {
    if s != [] {
      Utf8Ascii(s[1..]);
      assert Ascii(s) == [s[0] as int as byte] + Ascii(s[1..]);
    }
  }

  /** Encoding a concatenation encodes each part in turn. */
  lemma {:induction false} Utf8Concat(a: string, b: string)
    ensures Utf8(a + b) == Utf8(a) + Utf8(b)
  {
    if a == [] {
      assert a + b == b;
    } else {
      var ab := a + b;
      assert ab[0] == a[0];
      assert ab[1..] == a[1..] + b;
      Utf8Concat(a[1..], b);
      calc {
        Utf8(ab);
        Utf8Char(a[0]) + Utf8(a[1..] + b);
        Utf8Char(a[0]) + (Utf8(a[1..]) + Utf8(b));
        Utf8(a) + Utf8(b);
      }
    }
  }

  /** How many bytes a UTF-8 sequence starting with `b` occupies (0: not a lead byte). */
  function LeadLength(b: byte): nat
  {
    if b < 0x80 then 1
    else if 0xC0 <= b < 0xE0 then 2
    else if 0xE0 <= b < 0xF0 then 3
    else if 0xF0 <= b < 0xF8 then 4
    else 0
  }

  /** The code point a lead byte and its continuation bytes carry. */
  function CodePoint(b: seq<byte>): int
    requires 1 <= |b| <= 4
  {
    if |b| == 1 then b[0] as int
    else if |b| == 2 then (b[0] as int - 0xC0) * 64 + (b[1] as int - 0x80)
    else if |b| == 3 then
      ((b[0] as int - 0xE0) * 64 + (b[1] as int - 0x80)) * 64 + (b[2] as int - 0x80)
    else
      (((b[0] as int - 0xF0) * 64 + (b[1] as int - 0x80)) * 64 + (b[2] as int - 0x80)) * 64
        + (b[3] as int - 0x80)
  }

  predicate IsScalar(cp: int)
  {
    (0 <= cp < 0xD800) || (0xE000 <= cp < 0x11_0000)
  }

  /** Decodes UTF-8 bytes back into a string; None on a byte that cannot
      start a character, a truncated character, or a non-scalar code point. */
  function Utf8Decode(b: seq<byte>): Option<string>
    decreases |b|
  {
    if b == [] then Some([])
    else
      var n := LeadLength(b[0]);
      if n == 0 || n > |b| then None
      else
        var cp := CodePoint(b[..n]);
        if !IsScalar(cp) then None
        else
          match Utf8Decode(b[n..])
          case None => None
          case Some(rest) => Some([cp as char] + rest)
  }

  /** The bytes of one character read back: the lead byte announces their
      number and together they carry the character's code point. */
  lemma Utf8CharDecodes(c: char)
    ensures LeadLength(Utf8Char(c)[0]) == |Utf8Char(c)|
    ensures CodePoint(Utf8Char(c)) == c as int
  {
    var cp := c as int;
    if cp < 0x80 {
    } else if cp < 0x800 {
      Utf8TwoBytes(c);
    } else if cp < 0x1_0000 {
      Utf8ThreeBytes(c);
    } else {
      Utf8FourBytes(c);
    }
  }

  lemma Utf8TwoBytes(c: char)
    requires 0x80 <= c as int < 0x800
    ensures LeadLength(Utf8Char(c)[0]) == 2 && CodePoint(Utf8Char(c)) == c as int
  {
    var cp := c as int;
    assert Utf8Char(c) == [(0xC0 + cp / 64) as byte, (0x80 + cp % 64) as byte];
    SixBitGroups(cp);
  }

  lemma Utf8ThreeBytes(c: char)
    requires 0x800 <= c as int < 0x1_0000
    ensures LeadLength(Utf8Char(c)[0]) == 3 && CodePoint(Utf8Char(c)) == c as int
  {
    var cp := c as int;
    assert Utf8Char(c) == [(0xE0 + cp / 4096) as byte, (0x80 + (cp / 64) % 64) as byte, (0x80 + cp % 64) as byte];
    SixBitGroups(cp);
  }

  lemma Utf8FourBytes(c: char)
    requires 0x1_0000 <= c as int
    ensures LeadLength(Utf8Char(c)[0]) == 4 && CodePoint(Utf8Char(c)) == c as int
  {
    var cp := c as int;
    assert Utf8Char(c) == [(0xF0 + cp / 262144) as byte, (0x80 + (cp / 4096) % 64) as byte,
                           (0x80 + (cp / 64) % 64) as byte, (0x80 + cp % 64) as byte];
    SixBitGroups(cp);
    assert (cp / 262144) * 64 + (cp / 4096) % 64 == cp / 4096;
  }

  /** A code point split into its low six-bit groups. */
  lemma SixBitGroups(cp: nat)
    ensures (cp / 4096) * 64 + (cp / 64) % 64 == cp / 64
    ensures (cp / 64) * 64 + cp % 64 == cp
  {
  }

  /** Decoding the UTF-8 encoding of a string gives the string back. */
  lemma {:induction false} Utf8RoundTrip(s: string)
    ensures Utf8Decode(Utf8(s)) == Some(s)
  {
    if s != [] {
      var e := Utf8Char(s[0]);
      Utf8CharDecodes(s[0]);
      var b := Utf8(s);
      assert b == e + Utf8(s[1..]);
      assert b[..|e|] == e;
      assert b[|e|..] == Utf8(s[1..]);
      Utf8RoundTrip(s[1..]);
      assert [s[0]] + s[1..] == s;
    }
  }

  /** A length-prefixed byte string: an "H" length, then the bytes. */
  function PackBytes(b: seq<byte>): (r: seq<byte>)
    requires FitsU16(|b|)
    ensures |r| == 2 + |b|
    ensures U16At(r, 0) == |b|
    ensures r[2..] == b
  {
    U16RoundTrip([], |b|, b);
    PackU16(|b|) + b
  }

  /** The strings pack_string accepts: their UTF-8 length fits the "H" prefix. */
  predicate StringFits(s: string) { FitsU16(|Utf8(s)|) }

  /** pack_string: an "H" length prefix holding the number of UTF-8 bytes,
      followed by exactly those bytes. */
  function PackString(s: string): (r: seq<byte>)
    requires StringFits(s)
    ensures |r| == 2 + |Utf8(s)|
    ensures U16At(r, 0) == |Utf8(s)|
    ensures r[2..] == Utf8(s)
  {
    PackBytes(Utf8(s))
  }

  /** Reads an "H" field off the front of `s`: its value and the bytes after it. */
  function ReadU16(s: seq<byte>): Option<(nat, seq<byte>)>
  {
    if |s| < 2 then None else Some((U16At(s, 0), s[2..]))
  }

  /** Reads an "L" field off the front of `s`. */
  function ReadU32(s: seq<byte>): Option<(nat, seq<byte>)>
  {
    if |s| < 4 then None else Some((U32At(s, 0), s[4..]))
  }

  /** Takes `n` raw bytes off the front of `s`. */
  function ReadN(s: seq<byte>, n: nat): Option<(seq<byte>, seq<byte>)>
  {
    if |s| < n then None else Some((s[..n], s[n..]))
  }

  /** Reads a length-prefixed byte string off the front of `s`. */
  function ReadString(s: seq<byte>): Option<(seq<byte>, seq<byte>)>
  {
    match ReadU16(s)
    case None => None
    case Some((n, rest)) => ReadN(rest, n)
  }

  /** A packed "H" field reads back as the value packed, leaving what follows. */
  lemma ReadU16Pack(n: int, rest: seq<byte>)
    requires FitsU16(n)
    ensures ReadU16(PackU16(n) + rest) == Some((n, rest))
  {
    U16RoundTrip([], n, rest);
    assert [] + PackU16(n) + rest == PackU16(n) + rest;
  }

  /** A packed "L" field reads back as the value packed, leaving what follows. */
  lemma ReadU32Pack(n: int, rest: seq<byte>)
    requires FitsU32(n)
    ensures ReadU32(PackU32(n) + rest) == Some((n, rest))
  {
    U32RoundTrip([], n, rest);
    assert [] + PackU32(n) + rest == PackU32(n) + rest;
  }

  /** Taking `|x|` bytes off `x + rest` gives `x` and leaves `rest`. */
  lemma ReadNConcat(x: seq<byte>, rest: seq<byte>)
    ensures ReadN(x + rest, |x|) == Some((x, rest))
  {
  }

  /** A length-prefixed byte string reads back whole, leaving what follows. */
  lemma ReadStringPack(e: seq<byte>, rest: seq<byte>)
    requires FitsU16(|e|)
    ensures ReadString(PackBytes(e) + rest) == Some((e, rest))
  {
    assert PackBytes(e) + rest == PackU16(|e|) + (e + rest);
    ReadU16Pack(|e|, e + rest);
    ReadNConcat(e, rest);
  }

  /** A packed string reads back as its UTF-8 bytes (which Utf8RoundTrip
      decodes to the original string), leaving what follows. */
  lemma PackStringRoundTrip(str: string, rest: seq<byte>)
    requires StringFits(str)
    ensures ReadString(PackString(str) + rest) == Some((Utf8(str), rest))
  {
    ReadStringPack(Utf8(str), rest);
  }
}
