/** Standard base64 with padding, section 4 of RFC 4648, as Go's encoding/base64 reads and writes it. */
module Base64 {
  import opened Common

  type sextet = v: int | 0 <= v < 64

  /** A-Z, a-z, 0-9, + and /. */
  function Letter(v: sextet): char {
    if v < 26 then 'A' + v as char
    else if v < 52 then 'a' + (v - 26) as char
    else if v < 62 then '0' + (v - 52) as char
    else if v == 62 then '+' else '/'
  }

  /** The value of a letter, None for every other character. */
  function Value(c: char): (r: Option<sextet>) {
    if 'A' <= c <= 'Z' then Some(c as int - 'A' as int)
    else if 'a' <= c <= 'z' then Some(c as int - 'a' as int + 26)
    else if '0' <= c <= '9' then Some(c as int - '0' as int + 52)
    else if c == '+' then Some(62)
    else if c == '/' then Some(63)
    else None
  }

  lemma ValueOfLetter(v: sextet)
    ensures Value(Letter(v)) == Some(v)
    ensures Letter(v) != '=' && Letter(v) != '\r' && Letter(v) != '\n'
  {
  }

  // Three bytes are four sextets.

  function Sextet0(x: byte): sextet { x / 4 }
  function Sextet1(x: byte, y: byte): sextet { x % 4 * 16 + y / 16 }
  function Sextet2(y: byte, z: byte): sextet { y % 16 * 4 + z / 64 }
  function Sextet3(z: byte): sextet { z % 64 }

  function Byte0(u: sextet, v: sextet): byte { u * 4 + v / 16 }
  function Byte1(v: sextet, w: sextet): byte { v % 16 * 16 + w / 4 }
  function Byte2(w: sextet, t: sextet): byte { w % 4 * 64 + t }

  function Encode(data: seq<byte>): string {
    if |data| == 0 then ""
    else if |data| == 1 then [Letter(Sextet0(data[0])), Letter(Sextet1(data[0], 0)), '=', '=']
    else if |data| == 2 then
      [Letter(Sextet0(data[0])), Letter(Sextet1(data[0], data[1])), Letter(Sextet2(data[1], 0)), '=']
    else
      [Letter(Sextet0(data[0])), Letter(Sextet1(data[0], data[1])), Letter(Sextet2(data[1], data[2])), Letter(Sextet3(data[2]))]
      + Encode(data[3..])
  }

  /** Line breaks are skipped wherever they stand. */
  function Unbroken(s: string): string {
    if s == "" then "" else (if s[0] == '\r' || s[0] == '\n' then "" else [s[0]]) + Unbroken(s[1..])
  }

  function Decode(s: string): Option<seq<byte>> {
    Quads(Unbroken(s))
  }

  /** Four characters at a time; padding only closes the last four, and left-over low bits are ignored. */
  function Quads(s: string): Option<seq<byte>> {
    if s == "" then Some([])
    else if |s| < 4 then None
    else
      var u, v, w, t := Value(s[0]), Value(s[1]), Value(s[2]), Value(s[3]);
      if u.None? || v.None? then None
      else if s[2] == '=' then if s[3] == '=' && |s| == 4 then Some([Byte0(u.value, v.value)]) else None
      else if w.None? then None
      else if s[3] == '=' then if |s| == 4 then Some([Byte0(u.value, v.value), Byte1(v.value, w.value)]) else None
      else if t.None? then None
      else match Quads(s[4..])
        case None => None
        case Some(rest) => Some([Byte0(u.value, v.value), Byte1(v.value, w.value), Byte2(w.value, t.value)] + rest)
  }

  lemma {:induction false} NothingToSkip(s: string)
    requires '\r' !in s && '\n' !in s
    ensures Unbroken(s) == s
  {
    if s != "" {
      NothingToSkip(s[1..]);
      assert s == [s[0]] + s[1..];
    }
  }

  lemma {:induction false} EncodingHasNoBreaks(data: seq<byte>)
    ensures '\r' !in Encode(data) && '\n' !in Encode(data)
  {
    if |data| >= 3 { EncodingHasNoBreaks(data[3..]); }
  }

  /** The four sextets of three bytes give the bytes back. */
  lemma Repack(x: byte, y: byte, z: byte)
    ensures Byte0(Sextet0(x), Sextet1(x, y)) == x
    ensures Byte1(Sextet1(x, y), Sextet2(y, z)) == y
    ensures Byte2(Sextet2(y, z), Sextet3(z)) == z
  {
  }

  /** Reading one whole quad of letters. */
  lemma FullQuad(p: sextet, q: sextet, r: sextet, t: sextet, rest: string)
    ensures Quads([Letter(p), Letter(q), Letter(r), Letter(t)] + rest)
      == if Quads(rest).None? then None else Some([Byte0(p, q), Byte1(q, r), Byte2(r, t)] + Quads(rest).value)
  {
    ValueOfLetter(p);
    ValueOfLetter(q);
    ValueOfLetter(r);
    ValueOfLetter(t);
    var s := [Letter(p), Letter(q), Letter(r), Letter(t)] + rest;
    assert s[4..] == rest;
  }

  lemma PaddedQuad(p: sextet, q: sextet, r: sextet)
    ensures Quads([Letter(p), Letter(q), '=', '=']) == Some([Byte0(p, q)])
    ensures Quads([Letter(p), Letter(q), Letter(r), '=']) == Some([Byte0(p, q), Byte1(q, r)])
  {
    ValueOfLetter(p);
    ValueOfLetter(q);
    ValueOfLetter(r);
  }

  lemma OneByte(x: byte)
    ensures Quads(Encode([x])) == Some([x])
  {
    PaddedQuad(Sextet0(x), Sextet1(x, 0), 0);
    Repack(x, 0, 0);
  }

  lemma TwoBytes(x: byte, y: byte)
    ensures Quads(Encode([x, y])) == Some([x, y])
  {
    PaddedQuad(Sextet0(x), Sextet1(x, y), Sextet2(y, 0));
    Repack(x, y, 0);
  }

  lemma ThreeMore(x: byte, y: byte, z: byte, rest: seq<byte>)
    requires Quads(Encode(rest)) == Some(rest)
    ensures Quads(Encode([x, y, z] + rest)) == Some([x, y, z] + rest)
  {
    var data := [x, y, z] + rest;
    assert data[3..] == rest;
    FullQuad(Sextet0(x), Sextet1(x, y), Sextet2(y, z), Sextet3(z), Encode(rest));
    Repack(x, y, z);
  }

  lemma {:induction false} QuadsOfEncoding(data: seq<byte>)
    ensures Quads(Encode(data)) == Some(data)
  {
    if |data| == 0 {
    } else if |data| == 1 {
      assert data == [data[0]];
      OneByte(data[0]);
    } else if |data| == 2 {
      assert data == [data[0], data[1]];
      TwoBytes(data[0], data[1]);
    } else {
      QuadsOfEncoding(data[3..]);
      ThreeMore(data[0], data[1], data[2], data[3..]);
      assert data == [data[0], data[1], data[2]] + data[3..];
    }
  }

  /** Decoding an encoding gives the data back, for every byte string. */
  lemma RoundTrip(data: seq<byte>)
    ensures Decode(Encode(data)) == Some(data)
  {
    EncodingHasNoBreaks(data);
    NothingToSkip(Encode(data));
    QuadsOfEncoding(data);
  }

  // ---- texts that are encodings -------------------------------------------------------------

  lemma LetterOfValue(c: char)
    requires Value(c).Some?
    ensures Letter(Value(c).value) == c
  {
  }

  lemma SameLetter(p: sextet, q: sextet)
    ensures Letter(p) == Letter(q) <==> p == q
  {
    ValueOfLetter(p);
    ValueOfLetter(q);
  }

  /** Packing four sextets into three bytes and back; on a short quad only what fits comes back. */
  lemma Unpack(u: sextet, v: sextet, w: sextet, t: sextet)
    ensures Sextet0(Byte0(u, v)) == u && Sextet1(Byte0(u, v), Byte1(v, w)) == v
    ensures Sextet2(Byte1(v, w), Byte2(w, t)) == w && Sextet3(Byte2(w, t)) == t
    ensures Sextet1(Byte0(u, v), 0) == v / 16 * 16 && Sextet2(Byte1(v, w), 0) == w / 4 * 4
  {
  }

  /** The bits of a padded last quad that no byte uses are zero. */
  predicate ZeroSpareBits(s: string) {
    |s| >= 4 && s[|s| - 1] == '=' ==>
      if s[|s| - 2] == '=' then Value(s[|s| - 3]).Some? && Value(s[|s| - 3]).value % 16 == 0
      else Value(s[|s| - 2]).Some? && Value(s[|s| - 2]).value % 4 == 0
  }

  lemma ShortQuads(s: string)
    requires |s| == 4 && s[3] == '=' && Quads(s).Some?
    ensures Encode(Quads(s).value) == s <==> ZeroSpareBits(s)
  {
    var u, v := Value(s[0]).value, Value(s[1]).value;
    LetterOfValue(s[0]);
    LetterOfValue(s[1]);
    if s[2] == '=' {
      Unpack(u, v, 0, 0);
      SameLetter(v / 16 * 16, v);
      assert s == [s[0], s[1], s[2], s[3]];
    } else {
      var w := Value(s[2]).value;
      LetterOfValue(s[2]);
      Unpack(u, v, w, 0);
      SameLetter(w / 4 * 4, w);
      assert s == [s[0], s[1], s[2], s[3]];
    }
    hide Letter, Value, Sextet0, Sextet1, Sextet2, Byte0, Byte1;
  }

  lemma WholeQuad(s: string, rest: seq<byte>)
    requires |s| >= 4 && s[3] != '=' && Quads(s).Some? && Quads(s[4..]) == Some(rest)
    ensures Encode(Quads(s).value) == s[..4] + Encode(rest)
  {
    var u, v, w, t := Value(s[0]).value, Value(s[1]).value, Value(s[2]).value, Value(s[3]).value;
    LetterOfValue(s[0]);
    LetterOfValue(s[1]);
    LetterOfValue(s[2]);
    LetterOfValue(s[3]);
    Unpack(u, v, w, t);
    hide Letter, Sextet0, Sextet1, Sextet2, Sextet3, Byte0, Byte1, Byte2;
    var data := [Byte0(u, v), Byte1(v, w), Byte2(w, t)] + rest;
    assert Quads(s) == Some(data) && data[3..] == rest;
    assert s[..4] == [s[0], s[1], s[2], s[3]];
  }

  lemma {:induction false} ExactQuads(s: string)
    requires Quads(s).Some?
    ensures Encode(Quads(s).value) == s <==> ZeroSpareBits(s)
  {
    if s != "" {
      if s[3] == '=' {
        ShortQuads(s);
      } else {
        ExactQuads(s[4..]);
        WholeQuad(s, Quads(s[4..]).value);
        assert s == s[..4] + s[4..];
        hide Encode, Value;
      }
    }
  }

  /** Decoding accepts more than encodings. A text that decodes is the encoding of its bytes exactly
      when it has no line breaks and the spare bits of its padded last quad are zero. */
  lemma DecodingIsLenient(s: string)
    requires Decode(s).Some?
    ensures Encode(Decode(s).value) == s <==> '\r' !in s && '\n' !in s && ZeroSpareBits(s)
  {
    hide Quads, Encode, Unbroken;
    EncodingHasNoBreaks(Decode(s).value);
    if '\r' !in s && '\n' !in s {
      NothingToSkip(s);
      ExactQuads(s);
    }
  }

  // ---- texts that decode --------------------------------------------------------------------

  ghost predicate IsLetter(c: char) {
    exists v: sextet :: c == Letter(v)
  }

  /** Whole quads of letters, where the last may end in one or two equals signs. */
  ghost predicate Padded(s: string, pad: nat) {
    && pad <= 2 && pad <= |s| && |s| % 4 == 0
    && (forall i :: 0 <= i < |s| - pad ==> IsLetter(s[i]))
    && (forall i :: |s| - pad <= i < |s| ==> s[i] == '=')
  }

  lemma LettersHaveValues(c: char)
    ensures Value(c).Some? <==> IsLetter(c)
    ensures Value('=').None?
  {
    if Value(c).Some? { LetterOfValue(c); }
    if v: sextet :| c == Letter(v) { ValueOfLetter(v); }
  }

  lemma {:induction false} QuadsAccept(s: string, pad: nat)
    requires Padded(s, pad)
    ensures Quads(s).Some?
  {
    forall i | 0 <= i < |s| - pad ensures Value(s[i]).Some? { LettersHaveValues(s[i]); }
    if |s| > 4 {
      var rest := s[4..];
      assert forall i :: 0 <= i < |rest| ==> rest[i] == s[i + 4];
      QuadsAccept(rest, pad);
    }
    hide IsLetter;
  }

  lemma {:induction false} QuadsOnly(s: string) returns (pad: nat)
    requires Quads(s).Some?
    ensures Padded(s, pad)
  {
    if s == "" {
      pad := 0;
    } else {
      LettersHaveValues(s[0]);
      LettersHaveValues(s[1]);
      LettersHaveValues(s[2]);
      LettersHaveValues(s[3]);
      hide Letter, Value, IsLetter;
      if s[2] == '=' {
        pad := 2;
      } else if s[3] == '=' {
        pad := 1;
      } else {
        pad := QuadsOnly(s[4..]);
        ShiftPadding(s, pad);
      }
    }
  }

  lemma ShiftPadding(s: string, pad: nat)
    requires |s| >= 4 && Padded(s[4..], pad)
    requires forall i :: 0 <= i < 4 ==> IsLetter(s[i])
    ensures Padded(s, pad)
  {
    hide IsLetter;
    assert forall i :: 4 <= i < |s| ==> s[i] == s[4..][i - 4];
  }

  /** Exactly the padded texts decode, wherever line breaks stand in them, and breaks change nothing. */
  lemma WhatDecodes(s: string)
    ensures Decode(s).Some? <==> exists pad: nat :: Padded(Unbroken(s), pad)
  {
    hide Quads, Unbroken, Padded;
    if pad: nat :| Padded(Unbroken(s), pad) { QuadsAccept(Unbroken(s), pad); }
    if Decode(s).Some? {
      var pad := QuadsOnly(Unbroken(s));
      assert Padded(Unbroken(s), pad);
    }
  }

  lemma {:induction false} BreaksSkipped(p: string, c: char, q: string)
    requires c == '\r' || c == '\n'
    ensures Unbroken(p + [c] + q) == Unbroken(p + q) && Decode(p + [c] + q) == Decode(p + q)
  {
    if p == "" {
      assert p + [c] + q == [c] + q && p + q == q;
      assert ([c] + q)[1..] == q;
    } else {
      assert (p + [c] + q)[1..] == p[1..] + [c] + q && (p + q)[1..] == p[1..] + q;
      BreaksSkipped(p[1..], c, q);
    }
  }

  // ---- the standard's alphabet and test vectors ---------------------------------------------

  const CAPITALS := "ABCDEFGHIJKLMNOPQRSTUVWXYZ"
  const SMALLS := "abcdefghijklmnopqrstuvwxyz"
  const DIGITS := "0123456789"

  lemma {:induction false} CapitalAt(i: nat)
    requires i < 26
    ensures |CAPITALS| == 26 && CAPITALS[i] == 'A' + i as char
  {
    if i > 0 {
      CapitalAt(i - 1);
      assert CAPITALS[i] as int == CAPITALS[i - 1] as int + 1;
    }
  }

  lemma {:induction false} SmallAt(i: nat)
    requires i < 26
    ensures |SMALLS| == 26 && SMALLS[i] == 'a' + i as char
  {
    if i > 0 {
      SmallAt(i - 1);
      assert SMALLS[i] as int == SMALLS[i - 1] as int + 1;
    }
  }

  lemma {:induction false} DigitAt(i: nat)
    requires i < 10
    ensures |DIGITS| == 10 && DIGITS[i] == '0' + i as char
  {
    if i > 0 {
      DigitAt(i - 1);
      assert DIGITS[i] as int == DIGITS[i - 1] as int + 1;
    }
  }

  /** Table 1 of RFC 4648. */
  lemma StandardAlphabet(v: sextet)
    ensures Letter(v) ==
      if v < 26 then CAPITALS[v] else if v < 52 then SMALLS[v - 26] else if v < 62 then DIGITS[v - 52]
      else if v == 62 then '+' else '/'
  {
    if v < 26 { CapitalAt(v); } else if v < 52 { SmallAt(v - 26); } else if v < 62 { DigitAt(v - 52); }
    hide CAPITALS, SMALLS, DIGITS;
  }

  /** Section 10 of RFC 4648. */
  lemma TestVectors()
    ensures Encode([]) == "" && Encode([0x66]) == "Zg==" && Encode([0x66, 0x6f]) == "Zm8="
    ensures Encode([0x66, 0x6f, 0x6f]) == "Zm9v"
    ensures Encode([0x66, 0x6f, 0x6f, 0x62, 0x61, 0x72]) == "Zm9vYmFy"
  {
    var foobar: seq<byte> := [0x66, 0x6f, 0x6f, 0x62, 0x61, 0x72];
    assert foobar[3..] == [0x62, 0x61, 0x72];
    assert Encode([0x62, 0x61, 0x72]) == "YmFy";
  }
}
