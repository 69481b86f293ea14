/** UTF-8 text: characters as bytes, byte offsets, and slices at character boundaries. */
module Utf8 {
  function CharLen(c: char): nat {
    if c as int < 0x80 then 1 else if c as int < 0x800 then 2 else if c as int < 0x1_0000 then 3 else 4
  }

  /** The encoding of one character. */
  function Encoding(c: char): (b: seq<nat>)
    ensures |b| == CharLen(c)
    ensures c as int < 0x80 ==> b == [c as int]
    ensures c as int >= 0x80 ==> forall k :: 0 <= k < |b| ==> b[k] >= 0x80
  {
    seq(CharLen(c), k requires 0 <= k < CharLen(c) => CodeUnit(c as int, CharLen(c), k))
  }

  /** Byte `k` of the encoding, of length `len`, of the scalar value `n`. */
  function CodeUnit(n: nat, len: nat, k: nat): nat
    requires k < len <= 4
  {
    if len == 1 then n
    else if k == 0 then
      if len == 2 then 0xC0 + n / 0x40 else if len == 3 then 0xE0 + n / 0x1000 else 0xF0 + n / 0x4_0000
    else if k == len - 1 then 0x80 + n % 0x40
    else if k == len - 2 then 0x80 + n / 0x40 % 0x40
    else 0x80 + n / 0x1000 % 0x40
  }

  /** The length of the character that starts with this byte. */
  function LeadLen(b: nat): nat {
    if b < 0x80 then 1 else if b / 0x20 == 6 then 2 else if b / 0x10 == 14 then 3 else 4
  }

  lemma LeadGivesLength(c: char)
    ensures LeadLen(Encoding(c)[0]) == CharLen(c)
  {
    var n := c as int;
    if 0x80 <= n < 0x800 {
      assert n / 0x40 < 0x20;
    } else if 0x800 <= n < 0x1_0000 {
      assert n / 0x1000 < 0x10;
    } else if n >= 0x1_0000 {
      assert n / 0x4_0000 <= 4;
    }
  }

  function ByteLen(s: string): nat {
    if s == [] then 0 else ByteLen(s[..|s| - 1]) + CharLen(s[|s| - 1])
  }

  function Encode(s: string): (b: seq<nat>)
    ensures |b| == ByteLen(s)
  {
    if s == [] then [] else Encode(s[..|s| - 1]) + Encoding(s[|s| - 1])
  }

  lemma {:induction false} EncodeAppend(a: string, b: string)
    ensures Encode(a + b) == Encode(a) + Encode(b)
  {
    if b == [] {
      assert a + b == a;
    } else {
      assert (a + b)[..|a + b| - 1] == a + b[..|b| - 1];
      EncodeAppend(a, b[..|b| - 1]);
    }
  }

  lemma ByteLenAppend(a: string, b: string)
    ensures ByteLen(a + b) == ByteLen(a) + ByteLen(b)
  {
    EncodeAppend(a, b);
    assert |Encode(a + b)| == |Encode(a)| + |Encode(b)|;
  }

  lemma ByteLenSplit(s: string, i: nat, j: nat)
    requires i <= j <= |s|
    ensures ByteLen(s[..j]) == ByteLen(s[..i]) + ByteLen(s[i..][..j - i])
  {
    assert s[..j] == s[..i] + s[i..][..j - i];
    ByteLenAppend(s[..i], s[i..][..j - i]);
  }

  lemma OneCharBytes(s: string)
    requires s != []
    ensures ByteLen(s[..1]) == CharLen(s[0])
  {
    assert s[..1] == [s[0]] && [s[0]][..0] == [];
  }

  lemma EncodeOne(c: char)
    ensures Encode([c]) == Encoding(c)
  {
    assert [c][..0] == [];
    assert Encode([c]) == [] + Encoding(c);
  }

  lemma EncodeHead(s: string)
    requires s != []
    ensures Encode(s) == Encoding(s[0]) + Encode(s[1..])
  {
    assert s == [s[0]] + s[1..];
    EncodeAppend([s[0]], s[1..]);
    EncodeOne(s[0]);
  }

  /** The bytes from a character boundary on. */
  lemma EncodeFrom(s: string, k: nat)
    requires k <= |s|
    ensures ByteLen(s[..k]) <= ByteLen(s) && Encode(s)[ByteLen(s[..k])..] == Encode(s[k..])
  {
    assert s == s[..k] + s[k..];
    EncodeAppend(s[..k], s[k..]);
  }

  lemma PrefixLen(s: string, k: nat)
    requires k <= |s|
    ensures ByteLen(s[..k]) <= ByteLen(s)
  {
    EncodeFrom(s, k);
  }

  /** Offsets of the character boundaries are strictly increasing. */
  lemma {:induction false} BoundariesIncrease(s: string, j: nat, k: nat)
    requires j < k <= |s|
    ensures ByteLen(s[..j]) < ByteLen(s[..k])
    decreases k
  {
    assert s[..k][..k - 1] == s[..k - 1];
    if j < k - 1 {
      BoundariesIncrease(s, j, k - 1);
    }
  }

  lemma BoundariesOrdered(s: string, i: nat, j: nat)
    requires i <= |s| && j <= |s| && ByteLen(s[..i]) <= ByteLen(s[..j])
    ensures i <= j
  {
    if j < i {
      BoundariesIncrease(s, j, i);
    }
  }

  ghost predicate IsBoundary(s: string, offset: nat) {
    exists k: nat :: k <= |s| && ByteLen(s[..k]) == offset
  }

  /** The index of the character boundary at a byte offset. */
  function IndexAt(s: string, offset: nat): (k: nat)
    requires IsBoundary(s, offset)
    ensures k <= |s| && ByteLen(s[..k]) == offset
  {
    assert s[..|s|] == s;
    if ByteLen(s) == offset then |s|
    else
      assert forall k: nat :: k < |s| ==> s[..|s| - 1][..k] == s[..k];
      assert IsBoundary(s[..|s| - 1], offset);
      IndexAt(s[..|s| - 1], offset)
  }

  lemma BoundaryIndex(s: string, k: nat)
    requires k <= |s|
    ensures IsBoundary(s, ByteLen(s[..k])) && IndexAt(s, ByteLen(s[..k])) == k
  {
    var i := IndexAt(s, ByteLen(s[..k]));
    if i < k {
      BoundariesIncrease(s, i, k);
    } else if k < i {
      BoundariesIncrease(s, k, i);
    }
  }

  /** `&s[from..to]`: defined only at character boundaries. */
  function Slice(s: string, from: nat, to: nat): string
    requires IsBoundary(s, from) && IsBoundary(s, to) && from <= to
  {
    var i, j := IndexAt(s, from), IndexAt(s, to);
    BoundariesOrdered(s, i, j);
    s[i..j]
  }

  lemma SliceAt(s: string, i: nat, j: nat)
    requires i <= j <= |s|
    ensures ByteLen(s[..i]) <= ByteLen(s[..j]) && IsBoundary(s, ByteLen(s[..i])) && IsBoundary(s, ByteLen(s[..j]))
    ensures Slice(s, ByteLen(s[..i]), ByteLen(s[..j])) == s[i..j]
  {
    if i < j {
      BoundariesIncrease(s, i, j);
    }
    BoundaryIndex(s, i);
    BoundaryIndex(s, j);
  }
}
