/** Invite codes: the `part` closure of `invite_create` in src/discovery.rs and its inverse. */
module InviteCode {
  const ALPHABET: string := "ABCDEFGHJKLMNPQRSTUVWXYZ23456789"

  /** The `i`-th five-bit group of `n`, that is `(n >> (i * 5)) & 0x1F`. */
  function Group(n: bv32, i: nat): bv32
    requires i < 4
  {
    match i
    case 0 => n & 0x1F
    case 1 => (n >> 5) & 0x1F
    case 2 => (n >> 10) & 0x1F
    case _ => (n >> 15) & 0x1F
  }

  lemma GroupIsIndex(n: bv32, i: nat)
    requires i < 4
    ensures Group(n, i) < 32
    ensures Group(n, i) as int < |ALPHABET| == 32
  {
  }

  /** One symbol, with the reduction by the alphabet length that the source writes. */
  function Symbol(n: bv32, i: nat): char
    requires i < 4
  {
    GroupIsIndex(n, i);
    ALPHABET[Group(n, i) as int % |ALPHABET|]
  }

  function Part(n: bv32): string {
    [Symbol(n, 0), Symbol(n, 1), Symbol(n, 2), Symbol(n, 3)]
  }

  function Code(r: bv32): string {
    Part(r) + "-" + Part(r >> 16)
  }

  // ---------------------------------------------------------------------------
  // The inverse

  /** Where `c` first stands in `s`. */
  function Position(s: string, c: char): (p: nat)
    requires c in s
    ensures p < |s| && s[p] == c
  {
    if s[0] == c then 0 else 1 + Position(s[1..], c)
  }

  function Value(c: char): bv32
    requires c in ALPHABET
  {
    Position(ALPHABET, c) as bv32
  }

  lemma AlphabetIsDistinct()
    ensures forall i, j :: 0 <= i < j < |ALPHABET| ==> ALPHABET[i] != ALPHABET[j]
  {}

  lemma {:induction false} PositionIs(s: string, c: char, k: nat)
    requires k < |s| && s[k] == c && forall j :: 0 <= j < k ==> s[j] != c
    ensures Position(s, c) == k
  {
    if k > 0 {
      assert c in s[1..] by {
        assert s[1..][k - 1] == c;
      }
      PositionIs(s[1..], c, k - 1);
    }
  }

  lemma PositionOfSymbol(k: nat)
    requires k < |ALPHABET|
    ensures Position(ALPHABET, ALPHABET[k]) == k
  {
    hide Position;
    AlphabetIsDistinct();
    PositionIs(ALPHABET, ALPHABET[k], k);
  }

  lemma SmallMod(k: nat)
    requires k < |ALPHABET|
    ensures k % |ALPHABET| == k
  {}

  lemma BitsOfInt(g: bv32)
    ensures (g as int) as bv32 == g
  {}

  lemma ValueOfIndex(g: bv32)
    requires g < 32 && g as int < |ALPHABET|
    ensures ALPHABET[g as int] in ALPHABET && Value(ALPHABET[g as int]) == g
  {
    PositionOfSymbol(g as int);
    BitsOfInt(g);
  }

  /** Every symbol is in the alphabet, the reduction by its length changes nothing, and the
      symbol gives its five bits back. */
  lemma ValueOfSymbol(n: bv32, i: nat)
    requires i < 4
    ensures Group(n, i) as int < |ALPHABET| && Symbol(n, i) == ALPHABET[Group(n, i) as int]
    ensures Symbol(n, i) in ALPHABET && Value(Symbol(n, i)) == Group(n, i)
  {
    GroupIsIndex(n, i);
    SmallMod(Group(n, i) as int);
    assert Symbol(n, i) == ALPHABET[Group(n, i) as int];
    ValueOfIndex(Group(n, i));
  }

  function Join(a: bv32, b: bv32, c: bv32, d: bv32): bv32 {
    a | (b << 5) | (c << 10) | (d << 15)
  }

  /** The bits that four symbols stand for. */
  function Bits(part: string): bv32
    requires |part| == 4 && forall c :: c in part ==> c in ALPHABET
  {
    Join(Value(part[0]), Value(part[1]), Value(part[2]), Value(part[3]))
  }

  function Low20(n: bv32): bv32 {
    n & 0xF_FFFF
  }

  lemma GroupsOfTwentyBits(n: bv32)
    ensures Join(Group(n, 0), Group(n, 1), Group(n, 2), Group(n, 3)) == Low20(n)
  {}

  /** A part keeps exactly the low twenty bits of its argument. */
  lemma PartKeepsTwentyBits(n: bv32)
    ensures |Part(n)| == 4 && forall c :: c in Part(n) ==> c in ALPHABET
    ensures Bits(Part(n)) == Low20(n)
  {
    hide Group, Value, Symbol, Join, Low20;
    ValueOfSymbol(n, 0);
    ValueOfSymbol(n, 1);
    ValueOfSymbol(n, 2);
    ValueOfSymbol(n, 3);
    GroupsOfTwentyBits(n);
  }

  predicate WellFormed(code: string) {
    |code| == 9 && code[4] == '-'
    && (forall c :: c in code[..4] ==> c in ALPHABET)
    && (forall c :: c in code[5..] ==> c in ALPHABET)
  }

  function Merge(low: bv32, high: bv32): bv32 {
    (low & 0xFFFF) | (high << 16)
  }

  /** The random number behind a code: its low half from the first part, its high half from
      the second. */
  function Decode(code: string): bv32
    requires WellFormed(code)
  {
    Merge(Bits(code[..4]), Bits(code[5..]))
  }

  predicate Agree(low: bv32, high: bv32) {
    high <= 0xFFFF && low >> 16 == high & 0xF
  }

  /** The two parts share bits 16 to 19, and the second one has only sixteen bits to carry. */
  predicate Consistent(code: string)
    requires WellFormed(code)
  {
    Agree(Bits(code[..4]), Bits(code[5..]))
  }

  lemma CodeParts(r: bv32)
    ensures WellFormed(Code(r)) && Code(r)[..4] == Part(r) && Code(r)[5..] == Part(r >> 16)
  {
    PartKeepsTwentyBits(r);
    PartKeepsTwentyBits(r >> 16);
    assert Code(r)[..4] == Part(r) && Code(r)[5..] == Part(r >> 16);
  }

  lemma Halves(r: bv32)
    ensures Merge(Low20(r), Low20(r >> 16)) == r && Agree(Low20(r), Low20(r >> 16))
  {}

  /** Every random number can be read back from its code. */
  lemma DecodeCode(r: bv32)
    ensures WellFormed(Code(r)) && Decode(Code(r)) == r && Consistent(Code(r))
  {
    hide Code, Part, Bits, WellFormed, Merge, Agree, Low20;
    CodeParts(r);
    PartKeepsTwentyBits(r);
    PartKeepsTwentyBits(r >> 16);
    Halves(r);
  }

  /** Different random numbers get different codes. */
  lemma CodeInjective(r: bv32, s: bv32)
    ensures Code(r) == Code(s) ==> r == s
  {
    DecodeCode(r);
    DecodeCode(s);
  }

  lemma IntOfBits(k: nat)
    requires k < 32
    ensures (k as bv32) < 32 && (k as bv32) as int == k
  {}

  lemma ValueBelow(c: char)
    requires c in ALPHABET
    ensures Value(c) < 32 && ALPHABET[Value(c) as int] == c
  {
    assert Position(ALPHABET, c) < 32;
    IntOfBits(Position(ALPHABET, c));
  }

  lemma SymbolIs(n: bv32, i: nat, c: char)
    requires i < 4 && c in ALPHABET && Group(n, i) == Value(c)
    ensures Symbol(n, i) == c
  {
    hide Group, Value, Symbol;
    ValueOfSymbol(n, i);
    ValueBelow(c);
  }

  lemma GroupsOfBits(a: bv32, b: bv32, c: bv32, d: bv32)
    requires a < 32 && b < 32 && c < 32 && d < 32
    ensures var n := Join(a, b, c, d);
            n <= 0xF_FFFF && Group(n, 0) == a && Group(n, 1) == b && Group(n, 2) == c && Group(n, 3) == d
  {}

  /** Four symbols are the part of the bits they stand for. */
  lemma SymbolsOfBits(part: string)
    requires |part| == 4 && forall c :: c in part ==> c in ALPHABET
    ensures Bits(part) <= 0xF_FFFF && Part(Bits(part)) == part
  {
    hide Group, Value, Symbol, Join;
    ValueBelow(part[0]);
    ValueBelow(part[1]);
    ValueBelow(part[2]);
    ValueBelow(part[3]);
    var n := Bits(part);
    GroupsOfBits(Value(part[0]), Value(part[1]), Value(part[2]), Value(part[3]));
    SymbolIs(n, 0, part[0]);
    SymbolIs(n, 1, part[1]);
    SymbolIs(n, 2, part[2]);
    SymbolIs(n, 3, part[3]);
  }

  lemma JoinHalves(low: bv32, high: bv32)
    requires low <= 0xF_FFFF && Agree(low, high)
    ensures Low20(Merge(low, high)) == low && Merge(low, high) >> 16 == high
  {}

  lemma SameGroups(n: bv32, m: bv32)
    requires Low20(n) == m
    ensures Group(n, 0) == Group(m, 0) && Group(n, 1) == Group(m, 1)
    ensures Group(n, 2) == Group(m, 2) && Group(n, 3) == Group(m, 3)
  {}

  lemma SameTwentyBits(n: bv32, m: bv32)
    requires Low20(n) == m
    ensures Part(n) == Part(m)
  {
    assert forall i :: 0 <= i < 4 ==> Group(n, i) == Group(m, i) by {
      SameGroups(n, m);
    }
  }

  lemma ConsistentIsCode(code: string)
    requires WellFormed(code) && Consistent(code)
    ensures Code(Decode(code)) == code
  {
    hide Part, Bits, Merge, Agree, Low20;
    var low, high := code[..4], code[5..];
    SymbolsOfBits(low);
    SymbolsOfBits(high);
    JoinHalves(Bits(low), Bits(high));
    SameTwentyBits(Decode(code), Bits(low));
    assert code == low + "-" + high;
  }

  /** A string is the code of some random number exactly when it is well formed and its two
      parts agree on the bits they share. */
  lemma CodesAreTheConsistentStrings(code: string)
    ensures (exists r: bv32 :: Code(r) == code) <==> WellFormed(code) && Consistent(code)
  {
    forall r: bv32 | Code(r) == code
      ensures WellFormed(code) && Consistent(code)
    {
      DecodeCode(r);
    }
    if WellFormed(code) && Consistent(code) {
      ConsistentIsCode(code);
    }
  }

  // ---------------------------------------------------------------------------
  // Which symbol stands where

  /** The thirty-two symbols in order: the capital letters without I and O, then the digits from 2. */
  function SymbolOf(k: nat): char
    requires k < 32
  {
    if k < 8 then ('A' as int + k) as char
    else if k < 13 then ('J' as int + k - 8) as char
    else if k < 24 then ('P' as int + k - 13) as char
    else ('2' as int + k - 24) as char
  }

  lemma SymbolsInOrder(k: nat)
    requires k < 32
    ensures |ALPHABET| == 32 && ALPHABET[k] == SymbolOf(k)
  {}

  /** The five bits of `n` from bit `shift` on. */
  function FiveBits(n: bv32, shift: nat): (k: nat)
    requires shift < 32
    ensures k < 32
  {
    ((n >> shift) & 0x1F) as int
  }

  lemma GroupsAreFiveBits(r: bv32)
    ensures Group(r, 0) as int == FiveBits(r, 0) && Group(r, 1) as int == FiveBits(r, 5)
    ensures Group(r, 2) as int == FiveBits(r, 10) && Group(r, 3) as int == FiveBits(r, 15)
    ensures Group(r >> 16, 0) as int == FiveBits(r, 16) && Group(r >> 16, 1) as int == FiveBits(r, 21)
    ensures Group(r >> 16, 2) as int == FiveBits(r, 26) && Group(r >> 16, 3) as int == FiveBits(r, 31)
  {}

  lemma SymbolSpelled(n: bv32, i: nat, k: nat)
    requires i < 4 && k < 32 && Group(n, i) as int == k
    ensures Symbol(n, i) == SymbolOf(k)
  {
    hide SymbolOf, Group, Symbol, Value;
    ValueOfSymbol(n, i);
    SymbolsInOrder(k);
  }

  lemma TwoParts(a: bv32, b: bv32)
    ensures Part(a) + "-" + Part(b) == [Symbol(a, 0), Symbol(a, 1), Symbol(a, 2), Symbol(a, 3), '-',
                                        Symbol(b, 0), Symbol(b, 1), Symbol(b, 2), Symbol(b, 3)]
  {
    hide Symbol;
  }

  /** The symbols of a code from left to right: five bits each from bits 0, 5, 10 and 15 on, a dash,
      and five bits each from bits 16, 21, 26 and 31 on. */
  lemma CodeSpelled(r: bv32)
    ensures Code(r) == [SymbolOf(FiveBits(r, 0)), SymbolOf(FiveBits(r, 5)), SymbolOf(FiveBits(r, 10)),
                        SymbolOf(FiveBits(r, 15)), '-', SymbolOf(FiveBits(r, 16)), SymbolOf(FiveBits(r, 21)),
                        SymbolOf(FiveBits(r, 26)), SymbolOf(FiveBits(r, 31))]
  {
    GroupsAreFiveBits(r);
    hide Group, FiveBits, Symbol, SymbolOf, Part;
    SymbolSpelled(r, 0, FiveBits(r, 0));
    SymbolSpelled(r, 1, FiveBits(r, 5));
    SymbolSpelled(r, 2, FiveBits(r, 10));
    SymbolSpelled(r, 3, FiveBits(r, 15));
    SymbolSpelled(r >> 16, 0, FiveBits(r, 16));
    SymbolSpelled(r >> 16, 1, FiveBits(r, 21));
    SymbolSpelled(r >> 16, 2, FiveBits(r, 26));
    SymbolSpelled(r >> 16, 3, FiveBits(r, 31));
    TwoParts(r, r >> 16);
  }
}
