/** The frame codec of the simulated link (NetEntity's byte-level helpers):
    byte stuffing with the flag byte '$' and the escape byte '/', the
    C-string view every `setPayload(s.c_str())` imposes on a payload, and
    the XOR parity that the receiver compares. */
module Codec {

  type Byte = bv8

  const FLAG: Byte := 0x24  // '$'
  const ESC: Byte := 0x2F   // '/'
  const NUL: Byte := 0x00

  predicate IsSpecial(b: Byte) {
    b == FLAG || b == ESC
  }

  predicate NulFree(s: seq<Byte>) {
    forall i :: 0 <= i < |s| ==> s[i] != NUL
  }

  /** A payload as a packet stores it: a C string, so it never holds NUL. */
  type CString = s: seq<Byte> | NulFree(s)

  /** What `setPayload(s.c_str())` keeps of s: the bytes before the first NUL. */
  function CStr(s: seq<Byte>): (r: CString)
    ensures |r| <= |s| && r == s[..|r|]
    ensures |r| < |s| ==> s[|r|] == NUL
    ensures NulFree(s) ==> r == s
  {
    if |s| == 0 || s[0] == NUL then [] else [s[0]] + CStr(s[1..])
  }

  /** Number of bytes of x that the encoder escapes. */
  function Specials(x: seq<Byte>): nat {
    if |x| == 0 then 0 else (if IsSpecial(x[0]) then 1 else 0) + Specials(x[1..])
  }

  /** The stuffed body: every '$' and '/' gets one '/' in front of it. */
  function Escape(x: seq<Byte>): (r: seq<Byte>)
    ensures |r| == |x| + Specials(x)
    ensures NulFree(x) ==> NulFree(r)
  {
    if |x| == 0 then []
    else (if IsSpecial(x[0]) then [ESC, x[0]] else [x[0]]) + Escape(x[1..])
  }

  /** The encoded payload (EncodePayload's specification): the stuffed body between two flags. */
  function Encoded(x: seq<Byte>): seq<Byte> {
    [FLAG] + Escape(x) + [FLAG]
  }

  /** What DecodePayload's left-to-right scan does to the whole payload:
      an escape byte followed by '$' or '/' is dropped and the byte after
      it is kept without being looked at again; the last byte is never
      taken as the start of an escape. */
  function Unescape(s: seq<Byte>): seq<Byte> {
    if |s| <= 1 then s
    else if s[0] == ESC && IsSpecial(s[1]) then [s[1]] + Unescape(s[2..])
    else [s[0]] + Unescape(s[1..])
  }

  /** The decoded payload (DecodePayload's specification): the unescaped
      payload without its first and last byte; `substr(1, size - 2)` of a
      one-byte string is empty. */
  function Decoded(s: seq<Byte>): seq<Byte> {
    var u := Unescape(s);
    if |u| >= 2 then u[1..|u| - 1] else []
  }

  /** XOR of all bytes, folded from the left as the parity loop does. */
  function XorFold(s: seq<Byte>): Byte {
    if |s| == 0 then 0 else XorFold(s[..|s| - 1]) ^ s[|s| - 1]
  }

  /** The value of a signed `char` once promoted to `int`. */
  function SignExtend(b: Byte): int {
    if b < 0x80 then b as int else b as int - 256
  }

  /** The parity CalculateParity returns for a C string. */
  function Parity(s: CString): int {
    SignExtend(XorFold(s))
  }

  // ---------------------------------------------------------------------
  // The three loops of NetEntity, in the form the source writes them.
  // ---------------------------------------------------------------------

  /** EncodePacket: walk the payload, inserting '/' in front of every '$'
      or '/' and stepping over the byte just escaped; then add the flags. */
  method EncodePayload(x: seq<Byte>) returns (r: seq<Byte>)
    ensures r == Encoded(x)
  {
    var p := x;
    var i := 0;
    while i < |p|
      invariant 0 <= i <= |p|
      invariant p[..i] + Escape(p[i..]) == Escape(x)
      decreases |p| - i
    {
      if IsSpecial(p[i]) {
        EscapeStepSpecial(p, i);
        p := p[..i] + [ESC] + p[i..];
        i := i + 1;
      } else {
        EscapeStepPlain(p, i);
      }
      i := i + 1;
    }
    assert p[i..] == [];
    assert p[..i] == p;
    r := [FLAG] + p + [FLAG];
  }

  /** DecodePacket: walk all but the last byte, erasing an escape byte that
      stands before '$' or '/' (the erased position then holds the escaped
      byte, which the step skips); then cut the first and the last byte. */
  method DecodePayload(s: seq<Byte>) returns (r: seq<Byte>)
    requires |s| >= 1
    ensures r == Decoded(s)
  {
    var p := s;
    var i := 0;
    while i < |p| - 1
      invariant 0 <= i <= |p|
      invariant p[..i] + Unescape(p[i..]) == Unescape(s)
      decreases |p| - i
    {
      if p[i] == ESC && IsSpecial(p[i + 1]) {
        UnescapeStepEscaped(p, i);
        p := p[..i] + p[i + 1..];
      } else {
        UnescapeStepPlain(p, i);
      }
      i := i + 1;
    }
    assert Unescape(p[i..]) == p[i..];
    assert p[..i] + p[i..] == p;
    r := if |p| >= 2 then p[1..|p| - 1] else [];
  }

  /** One step of EncodePayload on a byte that needs escaping. */
  lemma EscapeStepSpecial(q: seq<Byte>, i: nat)
    requires i < |q| && IsSpecial(q[i])
    ensures var p := q[..i] + [ESC] + q[i..];
      p[..i + 2] + Escape(p[i + 2..]) == q[..i] + Escape(q[i..])
  {
    var p := q[..i] + [ESC] + q[i..];
    assert Escape(q[i..]) == [ESC, q[i]] + Escape(q[i..][1..]);
    assert q[i..][1..] == q[i + 1..];
    assert p[..i + 2] == q[..i] + [ESC, q[i]];
    assert p[i + 2..] == q[i + 1..];
  }

  /** One step of EncodePayload on a byte that is copied as it is. */
  lemma EscapeStepPlain(q: seq<Byte>, i: nat)
    requires i < |q| && !IsSpecial(q[i])
    ensures q[..i + 1] + Escape(q[i + 1..]) == q[..i] + Escape(q[i..])
  {
    assert Escape(q[i..]) == [q[i]] + Escape(q[i..][1..]);
    assert q[i..][1..] == q[i + 1..];
    assert q[..i + 1] == q[..i] + [q[i]];
  }

  /** One step of DecodePayload that erases an escape byte. */
  lemma UnescapeStepEscaped(q: seq<Byte>, i: nat)
    requires i + 1 < |q| && q[i] == ESC && IsSpecial(q[i + 1])
    ensures var p := q[..i] + q[i + 1..];
      p[..i + 1] + Unescape(p[i + 1..]) == q[..i] + Unescape(q[i..])
  {
    var p := q[..i] + q[i + 1..];
    var t := q[i..];
    assert t[0] == ESC && t[1] == q[i + 1];
    assert Unescape(t) == [t[1]] + Unescape(t[2..]);
    assert t[2..] == q[i + 2..];
    assert p[..i + 1] == q[..i] + [q[i + 1]];
    assert p[i + 1..] == q[i + 2..];
  }

  /** One step of DecodePayload that keeps the byte. */
  lemma UnescapeStepPlain(q: seq<Byte>, i: nat)
    requires i + 1 < |q| && !(q[i] == ESC && IsSpecial(q[i + 1]))
    ensures q[..i + 1] + Unescape(q[i + 1..]) == q[..i] + Unescape(q[i..])
  {
    var t := q[i..];
    assert t[0] == q[i] && t[1] == q[i + 1];
    assert Unescape(t) == [t[0]] + Unescape(t[1..]);
    assert t[1..] == q[i + 1..];
    assert q[..i + 1] == q[..i] + [q[i]];
  }

  /** CalculateParity: XOR every byte of the C string into the result.
      The source XORs sign-extended `char`s into an `int`; sign extension
      commutes with XOR, so that `int` is the sign extension of the byte
      fold, which is what this loop keeps. */
  method CalculateParity(payload: CString) returns (parity: int)
    ensures parity == Parity(payload)
  {
    var acc: Byte := 0;
    var i := 0;
    while i < |payload|
      invariant 0 <= i <= |payload|
      invariant acc == XorFold(payload[..i])
    {
      assert payload[..i + 1][..i] == payload[..i];
      acc := acc ^ payload[i];
      i := i + 1;
    }
    assert payload[..i] == payload;
    parity := SignExtend(acc);
  }

  // ---------------------------------------------------------------------
  // Properties of the codec.
  // ---------------------------------------------------------------------

  /** Unescaping the stuffed body followed by the closing flag returns the
      input followed by that flag. */
  lemma {:induction false} UnescapeEscape(x: seq<Byte>)
    ensures Unescape(Escape(x) + [FLAG]) == x + [FLAG]
  {
    if |x| == 0 {
      assert Escape(x) + [FLAG] == [FLAG];
    } else {
      var rest := Escape(x[1..]) + [FLAG];
      UnescapeEscape(x[1..]);
      var head := if IsSpecial(x[0]) then [ESC, x[0]] else [x[0]];
      assert Escape(x) + [FLAG] == head + rest by {
        assert Escape(x) == head + Escape(x[1..]);
      }
      UnescapeHead(x[0], rest);
      assert [x[0]] + (x[1..] + [FLAG]) == x + [FLAG] by {
        assert [x[0]] + x[1..] == x;
      }
    }
  }

  /** Unescaping undoes the stuffing of one byte in front of a non-empty rest. */
  lemma UnescapeHead(c: Byte, rest: seq<Byte>)
    requires |rest| > 0
    ensures Unescape((if IsSpecial(c) then [ESC, c] else [c]) + rest) == [c] + Unescape(rest)
  {
    if IsSpecial(c) {
      var s := [ESC, c] + rest;
      assert s[2..] == rest;
    } else {
      var s := [c] + rest;
      assert s[1..] == rest;
    }
  }

  /** Decoding an encoded payload gives back the payload exactly. */
  lemma RoundTrip(x: seq<Byte>)
    ensures Decoded(Encoded(x)) == x
  {
    var s := [FLAG] + Escape(x) + [FLAG];
    UnescapeEscape(x);
    assert s[1..] == Escape(x) + [FLAG];
    assert Unescape(s) == [FLAG] + (x + [FLAG]);
  }

  /** The encoded payload starts and ends with the flag and is longer than
      the input by the number of escaped bytes plus the two flags; a C
      string stays a C string, so `setPayload(c_str())` keeps all of it. */
  lemma EncodedShape(x: seq<Byte>)
    ensures |Encoded(x)| == |x| + Specials(x) + 2
    ensures Encoded(x)[0] == FLAG && Encoded(x)[|Encoded(x)| - 1] == FLAG
    ensures NulFree(x) ==> NulFree(Encoded(x)) && CStr(Encoded(x)) == Encoded(x)
  {
  }

  /** Where byte j of the input lands in the stuffed body. */
  function Landing(x: seq<Byte>, j: nat): nat
    requires j <= |x|
  {
    j + Specials(x[..j])
  }

  lemma {:induction false} SpecialsPrefix(x: seq<Byte>, j: nat)
    requires j < |x|
    ensures Specials(x[..j + 1]) == Specials(x[..j]) + (if IsSpecial(x[j]) then 1 else 0)
  {
    if j == 0 {
      assert x[..1] == [x[0]];
      assert x[..1][1..] == [];
    } else {
      assert x[..j + 1][1..] == x[1..][..j];
      assert x[..j][1..] == x[1..][..j - 1];
      SpecialsPrefix(x[1..], j - 1);
    }
  }

  /** In the stuffed body every input byte keeps its value and its order;
      each '$' or '/' of the input is immediately preceded by one inserted
      '/', and nothing else is inserted. */
  lemma {:induction false} EscapePlacement(x: seq<Byte>, j: nat)
    requires j < |x|
    ensures Landing(x, j) < |Escape(x)|
    ensures !IsSpecial(x[j]) ==> Escape(x)[Landing(x, j)] == x[j]
    ensures IsSpecial(x[j]) ==>
              Landing(x, j) + 1 < |Escape(x)| &&
              Escape(x)[Landing(x, j)] == ESC && Escape(x)[Landing(x, j) + 1] == x[j]
    ensures j + 1 < |x| ==> Landing(x, j + 1) == Landing(x, j) + (if IsSpecial(x[j]) then 2 else 1)
  {
    var head := if IsSpecial(x[0]) then [ESC, x[0]] else [x[0]];
    assert Escape(x) == head + Escape(x[1..]);
    SpecialsPrefix(x, j);
    if j == 0 {
      assert x[..0] == [];
    } else {
      EscapePlacement(x[1..], j - 1);
      assert x[..j][1..] == x[1..][..j - 1];
      assert Specials(x[..j]) == |head| - 1 + Specials(x[1..][..j - 1]);
      assert Landing(x, j) == |head| + Landing(x[1..], j - 1);
      assert x[1..][j - 1] == x[j];
    }
  }

  /** The parity of a concatenation is the XOR of the parts' parities; the
      empty payload has parity 0. */
  lemma {:induction false} XorFoldConcat(a: seq<Byte>, b: seq<Byte>)
    ensures XorFold(a + b) == XorFold(a) ^ XorFold(b)
    decreases |b|
  {
    if |b| == 0 {
      assert a + b == a;
    } else {
      var b' := b[..|b| - 1];
      assert (a + b)[..|a + b| - 1] == a + b';
      XorFoldConcat(a, b');
    }
  }

  lemma ParityOfEmpty()
    ensures Parity([]) == 0
  {
  }

  /** Flipping bits `m` of one byte flips exactly those bits of the fold. */
  lemma XorFoldFlip(s: seq<Byte>, i: nat, m: Byte)
    requires i < |s|
    ensures XorFold(s[i := s[i] ^ m]) == XorFold(s) ^ m
  {
    var t := s[i := s[i] ^ m];
    XorFoldAround(s, i);
    XorFoldAround(t, i);
    assert t[..i] == s[..i] && t[i + 1..] == s[i + 1..];
  }

  /** The fold split at byte i: the prefix, byte i, then the suffix. */
  lemma XorFoldAround(s: seq<Byte>, i: nat)
    requires i < |s|
    ensures XorFold(s) == (XorFold(s[..i]) ^ s[i]) ^ XorFold(s[i + 1..])
  {
    XorFoldSingle(s[i]);
    assert s == (s[..i] + [s[i]]) + s[i + 1..];
    XorFoldConcat(s[..i] + [s[i]], s[i + 1..]);
    XorFoldConcat(s[..i], [s[i]]);
  }

  lemma XorFoldSingle(c: Byte)
    ensures XorFold([c]) == c
  {
    assert [c][..0] == [];
  }

  /** Distinct folds give distinct parities. */
  lemma SignExtendInjective(a: Byte, b: Byte)
    ensures SignExtend(a) == SignExtend(b) <==> a == b
  {
  }
}
