/** License keys (store/licenses.go): the generator's nested loop, a reader for the keys it prints,
    and the exact distribution of its output, for any 32-letter alphabet. */
module KeyGen {
  import opened Common

  type digit = d: int | 0 <= d < 32

  /** Thirty-two letters and digits, without I, L, O and U. */
  const CROCKFORD := "0123456789ABCDEFGHJKMNPQRSTVWXYZ"
  const GROUPS: nat := 4
  const GROUP_LEN: nat := 4

  ghost predicate Alphabet(a: string) {
    |a| == 32 && NoRepeats(a)
  }

  /** The alphabet is in ascending order, so no letter occurs twice in it. */
  lemma {:induction false} CrockfordAscends(a: nat, b: nat)
    requires a < b < 32
    ensures CROCKFORD[a] < CROCKFORD[b]
  {
    assert CROCKFORD[b - 1] < CROCKFORD[b];
    if a < b - 1 { CrockfordAscends(a, b - 1); }
  }

  lemma CrockfordIsAlphabet()
    ensures Alphabet(CROCKFORD)
  {
    forall i, j | 0 <= i < j < 32 ensures CROCKFORD[i] != CROCKFORD[j] { CrockfordAscends(i, j); }
  }

  lemma CrockfordBeside(i: nat, p: nat)
    requires i < 32 && p < 31
    ensures if i <= p then CROCKFORD[i] <= CROCKFORD[p] else CROCKFORD[i] >= CROCKFORD[p + 1]
  {
    if i < p { CrockfordAscends(i, p); }
    if p + 1 < i { CrockfordAscends(p + 1, i); }
  }

  /** Only digits and capital letters, and none of the four that are mistaken for others. */
  lemma CrockfordLetters(i: nat)
    requires i < 32
    ensures var c := CROCKFORD[i];
      ('0' <= c <= '9' || 'A' <= c <= 'Z') && c != 'I' && c != 'L' && c != 'O' && c != 'U'
  {
    assert CROCKFORD[0] == '0' && CROCKFORD[9] == '9' && CROCKFORD[10] == 'A' && CROCKFORD[17] == 'H' && CROCKFORD[18] == 'J';
    assert CROCKFORD[19] == 'K' && CROCKFORD[20] == 'M' && CROCKFORD[21] == 'N' && CROCKFORD[22] == 'P';
    assert CROCKFORD[26] == 'T' && CROCKFORD[27] == 'V' && CROCKFORD[30] == 'Y' && CROCKFORD[31] == 'Z';
    CrockfordBeside(i, 0);
    CrockfordBeside(i, 9);
    CrockfordBeside(i, 17);
    CrockfordBeside(i, 19);
    CrockfordBeside(i, 21);
    CrockfordBeside(i, 26);
    CrockfordBeside(i, 30);
    hide CROCKFORD;
  }

  /** groups * groupLen, one group at a time. */
  function Cells(groups: nat, groupLen: nat): nat {
    if groups == 0 then 0 else Cells(groups - 1, groupLen) + groupLen
  }

  lemma {:induction false} CellsIsProduct(groups: nat, groupLen: nat)
    ensures Cells(groups, groupLen) == groups * groupLen
  {
    if groups > 0 {
      CellsIsProduct(groups - 1, groupLen);
      assert groups * groupLen == (groups - 1) * groupLen + groupLen;
    }
  }

  lemma {:induction false} CellsMonotone(g: nat, groups: nat, groupLen: nat)
    requires g <= groups
    ensures Cells(g, groupLen) <= Cells(groups, groupLen)
  {
    if g < groups { CellsMonotone(g, groups - 1, groupLen); }
  }

  function Residue(b: byte): digit {
    b % 32
  }

  function Residues(buf: seq<byte>): (r: seq<digit>)
    ensures |r| == |buf|
  {
    seq(|buf|, i requires 0 <= i < |buf| => Residue(buf[i]))
  }

  lemma ResiduesSplit(buf: seq<byte>, m: nat)
    requires m <= |buf|
    ensures Residues(buf) == Residues(buf[..m]) + Residues(buf[m..])
  {
  }

  /** The letters of a group of bytes. */
  function Group(a: string, buf: seq<byte>): (s: string)
    requires |a| == 32
    ensures |s| == |buf|
  {
    seq(|buf|, i requires 0 <= i < |buf| => a[Residue(buf[i])])
  }

  /** "SEAT" followed by a dash and the letters of each group of groupLen bytes. */
  function KeyOf(a: string, buf: seq<byte>, groups: nat, groupLen: nat): (key: string)
    requires |a| == 32 && |buf| == Cells(groups, groupLen)
    ensures |key| == 4 + groups + Cells(groups, groupLen)
    decreases groups
  {
    if groups == 0 then "SEAT"
    else
      var m := |buf| - groupLen;
      KeyOf(a, buf[..m], groups - 1, groupLen) + "-" + Group(a, buf[m..])
  }

  lemma KeyStep(a: string, buf: seq<byte>, g: nat, groupLen: nat)
    requires |a| == 32 && Cells(g + 1, groupLen) <= |buf|
    ensures KeyOf(a, buf[..Cells(g + 1, groupLen)], g + 1, groupLen)
      == KeyOf(a, buf[..Cells(g, groupLen)], g, groupLen) + "-" + Group(a, buf[Cells(g, groupLen)..Cells(g + 1, groupLen)])
  {
    var n := Cells(g + 1, groupLen);
    assert buf[..n][..n - groupLen] == buf[..n - groupLen];
    assert buf[..n][n - groupLen..] == buf[n - groupLen..n];
  }

  lemma GroupStep(a: string, buf: seq<byte>, lo: nat, hi: nat)
    requires |a| == 32 && lo <= hi < |buf|
    ensures Group(a, buf[lo..hi + 1]) == Group(a, buf[lo..hi]) + [a[buf[hi] % |a|]]
  {
  }

  /** The bytes are taken in the order buf[g * groupLen + i]. */
  method GenerateLicenseKey(a: string, buf: seq<byte>, groups: nat, groupLen: nat) returns (key: string)
    requires |a| == 32 && |buf| == Cells(groups, groupLen)
    ensures key == KeyOf(a, buf, groups, groupLen)
  {
    hide Group;
    key := "SEAT";
    for g := 0 to groups
      invariant Cells(g, groupLen) <= |buf|
      invariant key == KeyOf(a, buf[..Cells(g, groupLen)], g, groupLen)
    {
      CellsMonotone(g + 1, groups, groupLen);
      KeyStep(a, buf, g, groupLen);
      var base := g * groupLen;
      assert base == Cells(g, groupLen) by { CellsIsProduct(g, groupLen); }
      ghost var start := key;
      key := key + "-";
      for i := 0 to groupLen
        invariant key == start + "-" + Group(a, buf[base..base + i])
      {
        GroupStep(a, buf, base, base + i);
        key := key + [a[buf[base + i] % |a|]];
      }
    }
    assert buf[..|buf|] == buf;
  }

  // ---- reading a key back -------------------------------------------------------------------

  function Digits(a: string, s: string): (r: seq<int>)
    requires |a| == 32
    ensures |r| == |s|
  {
    seq(|s|, i requires 0 <= i < |s| => IndexOf(a, s[i]))
  }

  /** The digits of the groups of a key, in order. */
  function Read(a: string, key: string, groups: nat, groupLen: nat): (r: seq<int>)
    requires |a| == 32 && |key| == 4 + groups + Cells(groups, groupLen)
    ensures |r| == Cells(groups, groupLen)
    decreases groups
  {
    if groups == 0 then []
    else
      var cut := |key| - (1 + groupLen);
      Read(a, key[..cut], groups - 1, groupLen) + Digits(a, key[cut + 1..])
  }

  lemma DigitsOfGroup(a: string, buf: seq<byte>)
    requires Alphabet(a)
    ensures Digits(a, Group(a, buf)) == Residues(buf)
  {
    forall i | 0 <= i < |buf| ensures Digits(a, Group(a, buf))[i] == Residues(buf)[i] {
      assert Group(a, buf)[i] == a[Residue(buf[i])];
    }
  }

  lemma ReadStep(a: string, head: string, tail: string, groups: nat, groupLen: nat)
    requires |a| == 32 && groups > 0 && |tail| == groupLen && |head| == 3 + groups + Cells(groups - 1, groupLen)
    ensures Read(a, head + "-" + tail, groups, groupLen) == Read(a, head, groups - 1, groupLen) + Digits(a, tail)
  {
    var key := head + "-" + tail;
    assert key[..|head|] == head && key[|head| + 1..] == tail;
  }

  /** Parsing a generated key back gives every byte modulo 32. */
  lemma {:induction false} ReadKey(a: string, buf: seq<byte>, groups: nat, groupLen: nat)
    requires Alphabet(a) && |buf| == Cells(groups, groupLen)
    ensures Read(a, KeyOf(a, buf, groups, groupLen), groups, groupLen) == Residues(buf)
    decreases groups
  {
    if groups > 0 {
      var m := |buf| - groupLen;
      var head, tail := KeyOf(a, buf[..m], groups - 1, groupLen), Group(a, buf[m..]);
      ReadStep(a, head, tail, groups, groupLen);
      ReadKey(a, buf[..m], groups - 1, groupLen);
      DigitsOfGroup(a, buf[m..]);
      ResiduesSplit(buf, m);
    }
  }

  /** SEAT, then groups of a dash and groupLen letters of the alphabet. */
  predicate WellShaped(a: string, key: string, groups: nat, groupLen: nat) {
    if groups == 0 then key == "SEAT"
    else
      var cut := |key| - (1 + groupLen);
      && cut >= 0 && key[cut] == '-'
      && (forall i :: cut < i < |key| ==> key[i] in a)
      && WellShaped(a, key[..cut], groups - 1, groupLen)
  }

  lemma {:induction false} KeyIsWellShaped(a: string, buf: seq<byte>, groups: nat, groupLen: nat)
    requires Alphabet(a) && |buf| == Cells(groups, groupLen)
    ensures WellShaped(a, KeyOf(a, buf, groups, groupLen), groups, groupLen)
    decreases groups
  {
    if groups > 0 {
      var m := |buf| - groupLen;
      KeyIsWellShaped(a, buf[..m], groups - 1, groupLen);
      var head, key := KeyOf(a, buf[..m], groups - 1, groupLen), KeyOf(a, buf, groups, groupLen);
      assert key == head + "-" + Group(a, buf[m..]);
      assert key[..|head|] == head;
    }
  }

  lemma Letters(a: string, s: string) returns (buf: seq<byte>)
    requires |a| == 32 && forall i :: 0 <= i < |s| ==> s[i] in a
    ensures |buf| == |s| && Group(a, buf) == s
  {
    buf := seq(|s|, i requires 0 <= i < |s| => IndexOf(a, s[i]));
    forall i | 0 <= i < |s| ensures Group(a, buf)[i] == s[i] {
      assert Residue(buf[i]) == IndexOf(a, s[i]);
    }
  }

  /** Every well-shaped key is generated by some buffer. */
  lemma {:induction false} EveryShapeIsGenerated(a: string, key: string, groups: nat, groupLen: nat) returns (buf: seq<byte>)
    requires Alphabet(a) && WellShaped(a, key, groups, groupLen)
    ensures |buf| == Cells(groups, groupLen) && KeyOf(a, buf, groups, groupLen) == key
    decreases groups
  {
    if groups == 0 {
      buf := [];
    } else {
      var cut := |key| - (1 + groupLen);
      var head := EveryShapeIsGenerated(a, key[..cut], groups - 1, groupLen);
      var tail := Letters(a, key[cut + 1..]);
      buf := head + tail;
      assert buf[..|head|] == head && buf[|head|..] == tail;
      assert key == key[..cut] + "-" + key[cut + 1..];
    }
  }

  // ---- distribution -------------------------------------------------------------------------

  function Power(b: nat, e: nat): nat {
    if e == 0 then 1 else b * Power(b, e - 1)
  }

  /** Every buffer whose bytes have the given residues: each position has eight choices. */
  function Preimages(residues: seq<digit>): set<seq<byte>>
  {
    if residues == [] then {[]}
    else Extend(Preimages(residues[..|residues| - 1]), residues[|residues| - 1], 8)
  }

  /** Each buffer followed by one of r, r + 32, ..., r + 32 * (n - 1). */
  function Extend(s: set<seq<byte>>, r: digit, n: nat): set<seq<byte>>
    requires n <= 8
  {
    if n == 0 then {} else Extend(s, r, n - 1) + AppendTo(s, r + 32 * (n - 1))
  }

  function AppendTo(s: set<seq<byte>>, b: byte): (r: set<seq<byte>>) {
    set p | p in s :: p + [b]
  }

  lemma {:induction false} AppendToSize(s: set<seq<byte>>, b: byte)
    ensures |AppendTo(s, b)| == |s|
    decreases s
  {
    if s != {} {
      var p :| p in s;
      AppendToSize(s - {p}, b);
      assert forall q :: q in s - {p} ==> (q + [b])[..|q|] == q;
      assert (p + [b])[..|p|] == p;
      assert forall q :: q + [b] == p + [b] ==> |q| == |p|;
      assert p + [b] !in AppendTo(s - {p}, b);
      assert AppendTo(s, b) == AppendTo(s - {p}, b) + {p + [b]};
    }
  }

  lemma {:induction false} InExtend(s: set<seq<byte>>, r: digit, n: nat, q: seq<byte>)
    requires n <= 8
    ensures q in Extend(s, r, n) <==>
      |q| > 0 && q[..|q| - 1] in s && Residue(q[|q| - 1]) == r && q[|q| - 1] < r + 32 * n
  {
    if n > 0 {
      InExtend(s, r, n - 1, q);
      var b := r + 32 * (n - 1);
      if |q| > 0 && q[..|q| - 1] in s && q[|q| - 1] == b { assert q == q[..|q| - 1] + [b]; }
      if q in AppendTo(s, b) {
        var p :| p in s && q == p + [b];
        assert q[..|q| - 1] == p;
      }
    }
  }

  lemma NewByteIsNew(s: set<seq<byte>>, r: digit, n: nat)
    requires n < 8
    ensures Extend(s, r, n) * AppendTo(s, r + 32 * n) == {}
  {
    forall q | q in AppendTo(s, r + 32 * n) ensures q !in Extend(s, r, n) {
      var p :| p in s && q == p + [r + 32 * n];
      InExtend(s, r, n, q);
      assert q[|q| - 1] == r + 32 * n;
    }
  }

  lemma {:induction false} ExtendSize(s: set<seq<byte>>, r: digit, n: nat)
    requires n <= 8
    ensures |Extend(s, r, n)| == Cells(n, |s|)
  {
    if n > 0 {
      ExtendSize(s, r, n - 1);
      AppendToSize(s, r + 32 * (n - 1));
      NewByteIsNew(s, r, n - 1);
    }
  }

  lemma {:induction false} PreimagesOf(residues: seq<digit>, q: seq<byte>)
    ensures q in Preimages(residues) <==> Residues(q) == residues
  {
    if residues != [] {
      var n := |residues|;
      InExtend(Preimages(residues[..n - 1]), residues[n - 1], 8, q);
      if |q| > 0 {
        PreimagesOf(residues[..n - 1], q[..|q| - 1]);
        assert Residues(q) == Residues(q[..|q| - 1]) + [Residue(q[|q| - 1])];
        assert residues == residues[..n - 1] + [residues[n - 1]];
        if Residues(q) == residues { assert Residues(q)[..n - 1] == Residues(q[..|q| - 1]); }
      }
    }
  }

  lemma {:induction false} PreimagesSize(residues: seq<digit>)
    ensures |Preimages(residues)| == Power(8, |residues|)
  {
    if residues != [] {
      var n := |residues|;
      PreimagesSize(residues[..n - 1]);
      ExtendSize(Preimages(residues[..n - 1]), residues[n - 1], 8);
      CellsIsProduct(8, Power(8, n - 1));
    }
  }

  lemma SameParts(p: seq<byte>, q: seq<byte>, m: nat)
    requires m <= |p| == |q| && Residues(p) == Residues(q)
    ensures Residues(p[..m]) == Residues(q[..m]) && Residues(p[m..]) == Residues(q[m..])
  {
    assert Residues(p)[..m] == Residues(p[..m]) && Residues(q)[..m] == Residues(q[..m]);
    assert Residues(p)[m..] == Residues(p[m..]) && Residues(q)[m..] == Residues(q[m..]);
  }

  lemma SameGroup(a: string, p: seq<byte>, q: seq<byte>)
    requires |a| == 32 && |p| == |q| && Residues(p) == Residues(q)
    ensures Group(a, p) == Group(a, q)
  {
    assert forall i :: 0 <= i < |p| ==> Residue(p[i]) == Residues(p)[i] == Residues(q)[i] == Residue(q[i]);
  }

  /** Buffers with the same residues give the same key. */
  lemma {:induction false} SameResiduesSameKey(a: string, p: seq<byte>, q: seq<byte>, groups: nat, groupLen: nat)
    requires |a| == 32 && |p| == |q| == Cells(groups, groupLen) && Residues(p) == Residues(q)
    ensures KeyOf(a, p, groups, groupLen) == KeyOf(a, q, groups, groupLen)
    decreases groups
  {
    if groups > 0 {
      var m := |p| - groupLen;
      SameParts(p, q, m);
      SameResiduesSameKey(a, p[..m], q[..m], groups - 1, groupLen);
      SameGroup(a, p[m..], q[m..]);
    }
  }

  /** Every key that can be generated comes from exactly 8^(groups * groupLen) of the possible
      buffers, so a uniformly random buffer gives a uniformly random key. */
  lemma KeysAreUniform(a: string, buf: seq<byte>, groups: nat, groupLen: nat)
    requires Alphabet(a) && |buf| == Cells(groups, groupLen)
    ensures forall b: seq<byte> {:trigger b in Preimages(Residues(buf))} ::
      b in Preimages(Residues(buf)) <==> |b| == |buf| && KeyOf(a, b, groups, groupLen) == KeyOf(a, buf, groups, groupLen)
    ensures |Preimages(Residues(buf))| == Power(8, groups * groupLen)
  {
    forall b: seq<byte>
      ensures b in Preimages(Residues(buf)) <==> |b| == |buf| && KeyOf(a, b, groups, groupLen) == KeyOf(a, buf, groups, groupLen)
    {
      PreimagesOf(Residues(buf), b);
      if |b| == |buf| {
        if Residues(b) == Residues(buf) { SameResiduesSameKey(a, b, buf, groups, groupLen); }
        if KeyOf(a, b, groups, groupLen) == KeyOf(a, buf, groups, groupLen) {
          ReadKey(a, b, groups, groupLen);
          ReadKey(a, buf, groups, groupLen);
        }
      }
    }
    PreimagesSize(Residues(buf));
    CellsIsProduct(groups, groupLen);
  }

  // ---- the keys the store makes -------------------------------------------------------------

  lemma GroupLetters(a: string, buf: seq<byte>, i: nat)
    requires |a| == 32 && i < |buf|
    ensures Group(a, buf)[i] == a[buf[i] % 32]
  {
  }

  lemma ThreeGroups(a: string, buf: seq<byte>)
    requires |a| == 32 && |buf| >= 16
    ensures Cells(1, 4) == 4 && Cells(2, 4) == 8 && Cells(3, 4) == 12 && Cells(4, 4) == 16
    ensures KeyOf(a, buf[..12], 3, 4) == "SEAT" + "-" + Group(a, buf[0..4]) + "-" + Group(a, buf[4..8]) + "-" + Group(a, buf[8..12])
  {
    assert Cells(1, 4) == 4 && Cells(2, 4) == 8 && Cells(3, 4) == 12 && Cells(4, 4) == 16;
    KeyStep(a, buf, 0, 4);
    KeyStep(a, buf, 1, 4);
    KeyStep(a, buf, 2, 4);
    assert KeyOf(a, buf[..0], 0, 4) == "SEAT";
    hide KeyOf, Group, Cells;
  }

  /** The store's keys have the form SEAT-XXXX-XXXX-XXXX-XXXX and take sixteen bytes, in order. */
  lemma StoreKeyShape(buf: seq<byte>)
    requires |buf| == 16
    ensures Cells(GROUPS, GROUP_LEN) == 16
    ensures KeyOf(CROCKFORD, buf, GROUPS, GROUP_LEN)
         == "SEAT" + "-" + Group(CROCKFORD, buf[0..4]) + "-" + Group(CROCKFORD, buf[4..8])
                   + "-" + Group(CROCKFORD, buf[8..12]) + "-" + Group(CROCKFORD, buf[12..16])
  {
    assert |CROCKFORD| == 32;
    hide KeyOf, Group, Cells, CROCKFORD;
    ThreeGroups(CROCKFORD, buf);
    KeyStep(CROCKFORD, buf, 3, 4);
    assert buf[..16] == buf;
  }
}
