/**
 UTF-8 (section 3 of RFC 3629) as Python decodes it with `errors="replace"`: all at
 once, and incrementally, keeping back a character that is not complete yet.
 */
module Utf8 {
  type Byte = b: nat | b < 256

  /** A code point. */
  type Char = nat

  const REPLACEMENT: Char := 0xFFFD

  predicate IsScalar(c: Char) {
    c < 0xD800 || 0xE000 <= c < 0x110000
  }

  /** How many bytes a character that starts with `lead` has; 0 if none does. */
  function Length(lead: Byte): nat {
    if lead < 0x80 then 1
    else if lead < 0xC2 then 0
    else if lead < 0xE0 then 2
    else if lead < 0xF0 then 3
    else if lead < 0xF5 then 4
    else 0
  }

  /** Whether a character that starts with `lead` may have `b` next: no overlong forms, surrogates or too large numbers. */
  predicate MayBeSecond(lead: Byte, b: Byte) {
    match lead
    case 0xE0 => 0xA0 <= b < 0xC0
    case 0xED => 0x80 <= b < 0xA0
    case 0xF0 => 0x90 <= b < 0xC0
    case 0xF4 => 0x80 <= b < 0x90
    case _ => 0x80 <= b < 0xC0
  }

  predicate MayBeLater(b: Byte) {
    0x80 <= b < 0xC0
  }

  /** How many bytes at the start of `bs` begin a character, up to a whole one. */
  function Begun(bs: seq<Byte>): (k: nat)
    requires bs != [] && Length(bs[0]) > 0
    ensures 1 <= k <= |bs| && k <= Length(bs[0])
  {
    var n := Length(bs[0]);
    if n < 2 || |bs| < 2 || !MayBeSecond(bs[0], bs[1]) then 1
    else if n < 3 || |bs| < 3 || !MayBeLater(bs[2]) then 2
    else if n < 4 || |bs| < 4 || !MayBeLater(bs[3]) then 3
    else 4
  }

  /** `bs` begins a character, and ends before that does. */
  predicate Incomplete(bs: seq<Byte>) {
    bs != [] && Length(bs[0]) > 0 && Begun(bs) == |bs| < Length(bs[0])
  }

  /** The six bits that a later byte carries. */
  function Six(b: Byte): nat
    requires MayBeLater(b)
  {
    b - 0x80
  }

  function CodePoint(bs: seq<Byte>): Char
    requires 1 <= |bs| <= 4
    requires |bs| == 1 || bs[0] >= 0xC0
    requires forall i :: 1 <= i < |bs| ==> MayBeLater(bs[i])
  {
    var lead: int := bs[0];
    match |bs|
    case 1 => lead
    case 2 => (lead - 0xC0) * 0x40 + Six(bs[1])
    case 3 => if lead < 0xE0 then 0 else (lead - 0xE0) * 0x1000 + Six(bs[1]) * 0x40 + Six(bs[2])
    case _ => if lead < 0xF0 then 0 else (lead - 0xF0) * 0x40000 + Six(bs[1]) * 0x1000 + Six(bs[2]) * 0x40 + Six(bs[3])
  }

  /** The first character of `bs`, and of how many bytes: one that is not valid is replaced as far as it goes. */
  function First(bs: seq<Byte>): (r: (nat, Char))
    requires bs != []
    ensures 1 <= r.0 <= |bs| && r.0 <= 4
  {
    if Length(bs[0]) == 0 then (1, REPLACEMENT)
    else
      var k := Begun(bs);
      (k, if k == Length(bs[0]) then CodePoint(bs[..k]) else REPLACEMENT)
  }

  /** `bytes.decode(errors="replace")` */
  function Decode(bs: seq<Byte>): seq<Char>
    decreases |bs|
  {
    if bs == [] then []
    else var (k, c) := First(bs); [c] + Decode(bs[k..])
  }

  /** The characters that are complete, and what follows them. */
  function DecodeSome(bs: seq<Byte>): (r: (seq<Char>, seq<Byte>))
    ensures r.1 == [] || Incomplete(r.1)
    decreases |bs|
  {
    if bs == [] || Incomplete(bs) then ([], bs)
    else
      var (k, c) := First(bs);
      var (cs, rest) := DecodeSome(bs[k..]);
      ([c] + cs, rest)
  }

  /** What is kept back, at the end of all input. */
  function Flushed(rest: seq<Byte>): seq<Char> {
    if rest == [] then [] else [REPLACEMENT]
  }

  // The two agree

  lemma {:induction false} DecodeIsSomeAndFlush(bs: seq<Byte>)
    ensures Decode(bs) == DecodeSome(bs).0 + Flushed(DecodeSome(bs).1)
    decreases |bs|
  {
    if bs == [] {
    } else if Incomplete(bs) {
      assert bs[|bs|..] == [];
    } else {
      DecodeIsSomeAndFlush(bs[First(bs).0..]);
    }
  }

  /** More input does not change a first character that is complete, or is known to be invalid. */
  lemma FirstStands(bs: seq<Byte>, more: seq<Byte>)
    requires bs != [] && !Incomplete(bs)
    ensures First(bs + more) == First(bs) && !Incomplete(bs + more)
  {
    var all := bs + more;
    assert forall i :: 0 <= i < |bs| ==> all[i] == bs[i];
    if Length(bs[0]) > 0 {
      assert Begun(all) == Begun(bs);
      assert all[..Begun(bs)] == bs[..Begun(bs)];
    }
  }

  /** Decoding what comes later needs, of what came before, only what was kept back. */
  lemma {:induction false} DecodeSomeOfParts(bs: seq<Byte>, more: seq<Byte>)
    ensures var (cs, rest) := DecodeSome(bs);
            var (later, end) := DecodeSome(rest + more);
            DecodeSome(bs + more) == (cs + later, end)
    decreases |bs|
  {
    if bs == [] || Incomplete(bs) {
      assert [] + DecodeSome(bs + more).0 == DecodeSome(bs + more).0;
    } else {
      var k := First(bs).0;
      FirstStands(bs, more);
      assert (bs + more)[k..] == bs[k..] + more;
      DecodeSomeOfParts(bs[k..], more);
      var (cs, rest) := DecodeSome(bs[k..]);
      assert [First(bs).1] + (cs + DecodeSome(rest + more).0) == [First(bs).1] + cs + DecodeSome(rest + more).0;
    }
  }

  /** `codecs.getincrementaldecoder("utf-8")(errors="replace")` */
  class IncrementalDecoder {
    var buffer: seq<Byte>
    // All the input so far.
    ghost var read: seq<Byte>

    ghost predicate Valid()
      reads this
    {
      buffer == DecodeSome(read).1
    }

    constructor ()
      ensures Valid() && read == []
    {
      buffer, read := [], [];
    }

    method DecodeNext(input: seq<Byte>) returns (cs: seq<Char>)
      requires Valid()
      modifies this
      ensures Valid() && read == old(read) + input
      ensures DecodeSome(read).0 == DecodeSome(old(read)).0 + cs
    {
      DecodeSomeOfParts(read, input);
      var (decoded, rest) := DecodeSome(buffer + input);
      buffer, read := rest, read + input;
      cs := decoded;
    }

    /** With `final=True`, and no more input. */
    method Finish() returns (cs: seq<Char>)
      requires Valid()
      modifies this
      ensures Decode(old(read)) == DecodeSome(old(read)).0 + cs
      ensures |cs| <= 1 && (cs == [] || cs == [REPLACEMENT])
    {
      DecodeIsSomeAndFlush(read);
      cs := Flushed(buffer);
      buffer := [];
    }
  }

  // And are right: what RFC 3629 encodes reads back.

  function EncodeOne(c: Char): (bs: seq<Byte>)
    requires IsScalar(c)
    ensures 1 <= |bs| <= 4
  {
    if c < 0x80 then [c]
    else if c < 0x800 then [0xC0 + c / 0x40, 0x80 + c % 0x40]
    else if c < 0x10000 then [0xE0 + c / 0x1000, 0x80 + c / 0x40 % 0x40, 0x80 + c % 0x40]
    else [0xF0 + c / 0x40000, 0x80 + c / 0x1000 % 0x40, 0x80 + c / 0x40 % 0x40, 0x80 + c % 0x40]
  }

  predicate AllScalar(cs: seq<Char>) {
    forall i :: 0 <= i < |cs| ==> IsScalar(cs[i])
  }

  function Encode(cs: seq<Char>): seq<Byte>
    requires AllScalar(cs)
  {
    if cs == [] then [] else EncodeOne(cs[0]) + Encode(cs[1..])
  }

  lemma OneReadsBack(c: Char, more: seq<Byte>)
    requires IsScalar(c)
    ensures First(EncodeOne(c) + more) == (|EncodeOne(c)|, c)
  {
    var one := EncodeOne(c);
    var all := one + more;
    assert forall i :: 0 <= i < |one| ==> all[i] == one[i];
    assert all[..|one|] == one;
    if c < 0x80 {
    } else if c < 0x800 {
      assert c == c / 0x40 * 0x40 + c % 0x40;
    } else if c < 0x10000 {
      assert c / 0x40 == c / 0x1000 * 0x40 + c / 0x40 % 0x40;
    } else {
      assert c / 0x1000 == c / 0x40000 * 0x40 + c / 0x1000 % 0x40;
      assert c / 0x40 == c / 0x1000 * 0x40 + c / 0x40 % 0x40;
    }
  }

  lemma {:induction false} TextReadsBack(cs: seq<Char>)
    requires AllScalar(cs)
    ensures Decode(Encode(cs)) == cs
  {
    if cs != [] {
      OneReadsBack(cs[0], Encode(cs[1..]));
      assert Encode(cs)[|EncodeOne(cs[0])|..] == Encode(cs[1..]);
      TextReadsBack(cs[1..]);
    }
  }

  // What is not valid is replaced as far as it goes.

  /** `bs` are the bytes of a character, or the first of them. */
  ghost predicate BeginsOne(bs: seq<Byte>) {
    exists c :: IsScalar(c) && bs <= EncodeOne(c)
  }

  lemma WholeIsBegun(c: Char)
    requires IsScalar(c)
    ensures var bs := EncodeOne(c); Length(bs[0]) == |bs| == Begun(bs)
  {
  }

  /** The rest of some character that begins so. */
  function Filled(bs: seq<Byte>): (full: seq<Byte>)
    requires bs != [] && Length(bs[0]) > 0 && 0 < Begun(bs) == |bs| < Length(bs[0]) && |bs| <= 3
  {
    var later: Byte := 0x80;
    var second: Byte := if bs[0] == 0xE0 then 0xA0 else if bs[0] == 0xF0 then 0x90 else 0x80;
    var n := Length(bs[0]);
    if |bs| == 1 then
      [bs[0], second] + if n == 2 then [] else if n == 3 then [later] else [later, later]
    else if |bs| == 2 then bs + if n == 3 then [later] else [later, later]
    else bs + [later]
  }

  lemma FilledIsOne(bs: seq<Byte>)
    requires bs != [] && Length(bs[0]) > 0 && Begun(bs) == |bs| < Length(bs[0])
    ensures BeginsOne(bs)
  {
    var full := Filled(bs);
    assert bs <= full;
    match |full|
    case 2 =>
      TwoAreEncoded(full[0], full[1]);
      assert full == [full[0], full[1]];
    case 3 =>
      ThreeAreEncoded(full[0], full[1], full[2]);
      assert full == [full[0], full[1], full[2]];
    case 4 =>
      FourAreEncoded(full[0], full[1], full[2], full[3]);
      assert full == [full[0], full[1], full[2], full[3]];
  }

  lemma BegunAtLeast(bs: seq<Byte>, c: Char, j: nat)
    requires IsScalar(c) && 0 < j <= |bs| && bs[..j] <= EncodeOne(c)
    ensures Length(bs[0]) == |EncodeOne(c)| && j <= Begun(bs)
  {
    var whole := EncodeOne(c);
    WholeIsBegun(c);
    assert forall i :: 0 <= i < j ==> bs[i] == bs[..j][i] == whole[i];
  }

  /**
   If no character's bytes come first, one replacement character stands for as many bytes
   as begin one, or else for the first.
   */
  lemma OneReplacementAsFarAsItGoes(bs: seq<Byte>)
    requires bs != [] && forall c :: IsScalar(c) ==> !(EncodeOne(c) <= bs)
    ensures var (k, c) := First(bs);
      && c == REPLACEMENT
      && (k == 1 || BeginsOne(bs[..k]))
      && forall j :: k < j <= |bs| ==> !BeginsOne(bs[..j])
  {
    var (k, c) := First(bs);
    if c != REPLACEMENT {
      OneIsEncoded(bs);
      assert false;
    }
    if Length(bs[0]) > 0 {
      var begun := bs[..k];
      if k == Length(bs[0]) {
        ValidIsOne(bs);
        assert false;
      }
      assert Begun(begun) == k;
      FilledIsOne(begun);
    }
    forall j | k < j <= |bs|
      ensures !BeginsOne(bs[..j])
    {
      if BeginsOne(bs[..j]) {
        var one :| IsScalar(one) && bs[..j] <= EncodeOne(one);
        BegunAtLeast(bs, one, j);
      }
    }
  }

  lemma ValidIsOne(bs: seq<Byte>)
    requires bs != [] && Length(bs[0]) > 0 && Begun(bs) == Length(bs[0])
    ensures IsScalar(First(bs).1) && EncodeOne(First(bs).1) <= bs
  {
    var k := First(bs).0;
    match k
    case 1 => assert bs[..1] == [bs[0]];
    case 2 => TwoAreEncoded(bs[0], bs[1]); assert bs[..2] == [bs[0], bs[1]];
    case 3 => ThreeAreEncoded(bs[0], bs[1], bs[2]); assert bs[..3] == [bs[0], bs[1], bs[2]];
    case 4 => FourAreEncoded(bs[0], bs[1], bs[2], bs[3]); assert bs[..4] == [bs[0], bs[1], bs[2], bs[3]];
  }

  predicate Clean(cs: seq<Char>) {
    forall i :: 0 <= i < |cs| ==> cs[i] != REPLACEMENT
  }

  /** Bytes that decode without a replacement are the encoding of what they decode to. */
  lemma {:induction false} OnlyTextReadsClean(bs: seq<Byte>)
    requires Clean(Decode(bs))
    ensures AllScalar(Decode(bs)) && Encode(Decode(bs)) == bs
    decreases |bs|
  {
    if bs != [] {
      var (k, c) := First(bs);
      CleanStart(bs);
      OneIsEncoded(bs);
      OnlyTextReadsClean(bs[k..]);
      EncodeMore(c, Decode(bs[k..]));
    }
  }

  lemma CleanParts(c: Char, cs: seq<Char>)
    requires Clean([c] + cs)
    ensures c != REPLACEMENT && Clean(cs)
  {
    assert ([c] + cs)[0] == c && forall i :: 0 <= i < |cs| ==> cs[i] == ([c] + cs)[i + 1];
  }

  lemma CleanStart(bs: seq<Byte>)
    requires bs != [] && Clean(Decode(bs))
    ensures var (k, c) := First(bs);
            Decode(bs) == [c] + Decode(bs[k..]) && c != REPLACEMENT && Clean(Decode(bs[k..]))
  {
    CleanParts(First(bs).1, Decode(bs[First(bs).0..]));
  }

  lemma EncodeMore(c: Char, cs: seq<Char>)
    requires IsScalar(c) && AllScalar(cs)
    ensures AllScalar([c] + cs) && Encode([c] + cs) == EncodeOne(c) + Encode(cs)
  {
    assert ([c] + cs)[1..] == cs;
  }

  lemma OneIsEncoded(bs: seq<Byte>)
    requires bs != [] && First(bs).1 != REPLACEMENT
    ensures IsScalar(First(bs).1) && EncodeOne(First(bs).1) + bs[First(bs).0..] == bs
  {
    var k := First(bs).0;
    match k
    case 1 => assert bs[..1] == [bs[0]];
    case 2 => TwoAreEncoded(bs[0], bs[1]); assert bs[..2] == [bs[0], bs[1]];
    case 3 => ThreeAreEncoded(bs[0], bs[1], bs[2]); assert bs[..3] == [bs[0], bs[1], bs[2]];
    case 4 => FourAreEncoded(bs[0], bs[1], bs[2], bs[3]); assert bs[..4] == [bs[0], bs[1], bs[2], bs[3]];
  }

  lemma TwoAreEncoded(a: Byte, b: Byte)
    requires Length(a) == 2 && MayBeSecond(a, b)
    ensures MayBeLater(b) && IsScalar(CodePoint([a, b])) && EncodeOne(CodePoint([a, b])) == [a, b]
  {
  }

  lemma ThreeAreEncoded(a: Byte, b: Byte, c: Byte)
    requires Length(a) == 3 && MayBeSecond(a, b) && MayBeLater(c)
    ensures MayBeLater(b) && IsScalar(CodePoint([a, b, c])) && EncodeOne(CodePoint([a, b, c])) == [a, b, c]
  {
    var x := CodePoint([a, b, c]);
    assert x / 0x40 == (a - 0xE0) * 0x40 + Six(b);
  }

  lemma FourAreEncoded(a: Byte, b: Byte, c: Byte, d: Byte)
    requires Length(a) == 4 && MayBeSecond(a, b) && MayBeLater(c) && MayBeLater(d)
    ensures MayBeLater(b) && IsScalar(CodePoint([a, b, c, d])) && EncodeOne(CodePoint([a, b, c, d])) == [a, b, c, d]
  {
    var x := CodePoint([a, b, c, d]);
    assert x / 0x1000 == (a - 0xF0) * 0x40 + Six(b);
    assert x / 0x40 == (a - 0xF0) * 0x1000 + Six(b) * 0x40 + Six(c);
  }
}
