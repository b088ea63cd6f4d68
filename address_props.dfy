/**
 * What the address parser computes for the tag shapes the driver accepts and
 * rejects, including the places where the code as written is more lenient
 * than its own tests.
 */
module AddressProperties {
  import opened Wrappers
  import opened Address

  // ---------------------------------------------------------------- tag builders

  /** `DB<n>.DBX<b>.<bit>` */
  function BitTag(n: nat, b: nat, bit: nat): string {
    "DB" + NatToString(n) + ".DBX" + NatToString(b) + "." + NatToString(bit)
  }

  /** `DB<n>.<kind><b>`, where kind is a three-letter element type such as DBW */
  function WordTag(n: nat, kind: string, b: nat): string {
    "DB" + NatToString(n) + "." + kind + NatToString(b)
  }

  // ---------------------------------------------------------------- helpers

  lemma {:induction false} DigitsAreNormal(s: string)
    requires AllDigits(s)
    ensures IsNormal(s) && '.' !in s
  {
    forall i | 0 <= i < |s| ensures s[i] != '.' && s[i] != ' ' && !IsLower(s[i]) {
      assert IsDigit(s[i]);
    }
  }

  /** A normal tag starting with DB is parsed by the data-block branch. */
  lemma {:induction false} DataBlockBranch(v: string)
    requires IsNormal(v) && |v| >= 2 && v[..2] == "DB"
    ensures GetDBInfo(v) == ParseDataBlock(v)
  {
    NormalizeFixed(v);
    assert !IsPlainArea(v[..2]);
  }

  /** The data-block branch on three tokens, the second of kind DBX. */
  lemma {:induction false} DescribeBit(arr: seq<string>)
    requires |arr| >= 3 && |arr[0]| >= 2 && |arr[1]| >= 3 && arr[1][..3] == "DBX"
    ensures DescribeTokens(arr) ==
      Some(DBInfo(AreaDB, ParseInt16(arr[0][2..]), ParseInt16(arr[1][3..]) * 8 + ParseInt16(arr[2]),
                  1, S7WLBit, arr))
  {
  }

  /** The data-block branch on two tokens, the second of a kind other than DBX. */
  lemma {:induction false} DescribeWord(x: string, y: string)
    requires |x| >= 2 && |y| >= 3 && y[..3] != "DBX"
    ensures DescribeTokens([x, y]) ==
      Some(DBInfo(AreaDB, ParseInt16(x[2..]), ParseInt16(y[3..]), 1, WordLengthOf(y[..3]), [x, y]))
  {
  }

  /** A normal DB tag is described by its dotted tokens. */
  lemma {:induction false} DataBlockTokens(v: string)
    requires IsNormal(v) && |v| >= 2 && v[..2] == "DB"
    ensures |Split(v)[0]| >= 2
    ensures GetDBInfo(v) == DescribeTokens(Split(v))
  {
    DataBlockBranch(v);
    FirstTokenLong(v);
    assert ParseDataBlock(v) == DescribeTokens(Split(v));
  }

  lemma {:induction false} NormalAppend(a: string, b: string)
    requires IsNormal(a) && IsNormal(b)
    ensures IsNormal(a + b)
  {
    forall i | 0 <= i < |a + b| ensures (a + b)[i] != ' ' && !IsLower((a + b)[i]) {
      if i < |a| { assert (a + b)[i] == a[i]; } else { assert (a + b)[i] == b[i - |a|]; }
    }
  }

  /** Splitting three dot-free tokens joined by dots gives them back. */
  lemma {:induction false} SplitThree(x: string, y: string, z: string)
    requires '.' !in x && '.' !in y && '.' !in z
    ensures Split(x + "." + y + "." + z) == [x, y, z]
  {
    var parts := [x, y, z];
    assert parts[1..] == [y, z];
    assert parts[1..][1..] == [z];
    assert Join([y, z]) == y + "." + z;
    assert Join(parts) == x + "." + (y + "." + z);
    assert x + "." + y + "." + z == x + "." + (y + "." + z);
    SplitJoin(parts);
  }

  lemma {:induction false} SplitFour(x: string, y: string, z: string, w: string)
    requires '.' !in x && '.' !in y && '.' !in z && '.' !in w
    ensures Split(x + "." + y + "." + z + "." + w) == [x, y, z, w]
  {
    var parts := [x, y, z, w];
    assert parts[1..] == [y, z, w] && parts[1..][1..] == [z, w] && parts[1..][1..][1..] == [w];
    assert Join([z, w]) == z + "." + w;
    assert Join([y, z, w]) == y + "." + (z + "." + w);
    assert Join(parts) == x + "." + (y + "." + (z + "." + w));
    assert x + "." + y + "." + z + "." + w == x + "." + (y + "." + (z + "." + w));
    SplitJoin(parts);
  }

  lemma {:induction false} SplitTwo(x: string, y: string)
    requires '.' !in x && '.' !in y
    ensures Split(x + "." + y) == [x, y]
  {
    var parts := [x, y];
    assert parts[1..] == [y];
    assert Join(parts) == x + "." + y;
    SplitJoin(parts);
  }

  /** The first two tokens of a tag, `DB<n>` and `<kind><b>`, are normal and dot-free. */
  lemma {:induction false} TokensNormal(n: nat, kind: string, b: nat)
    requires IsNormal(kind) && '.' !in kind
    ensures var x, y := "DB" + NatToString(n), kind + NatToString(b);
      IsNormal(x) && IsNormal(y) && '.' !in x && '.' !in y && |x| >= 2
  {
    DigitsAreNormal(NatToString(n));
    DigitsAreNormal(NatToString(b));
    NormalAppend("DB", NatToString(n));
    NormalAppend(kind, NatToString(b));
    var x, y := "DB" + NatToString(n), kind + NatToString(b);
    forall i | 0 <= i < |x| ensures x[i] != '.' {
      if i >= 2 { assert x[i] == NatToString(n)[i - 2]; }
    }
    forall i | 0 <= i < |y| ensures y[i] != '.' {
      if i < |kind| { assert y[i] == kind[i]; } else { assert y[i] == NatToString(b)[i - |kind|]; }
    }
  }

  // ---------------------------------------------------------------- accepted tags

  /** The tokens of a bit tag, and that the tag is already in normal form. */
  lemma {:induction false} BitTagTokens(n: nat, b: nat, bit: nat)
    ensures var tag := BitTag(n, b, bit);
      && IsNormal(tag) && |tag| >= 2 && tag[..2] == "DB"
      && Split(tag) == ["DB" + NatToString(n), "DBX" + NatToString(b), NatToString(bit)]
  {
    var x, y, z := "DB" + NatToString(n), "DBX" + NatToString(b), NatToString(bit);
    var tag := x + "." + y + "." + z;
    assert tag == BitTag(n, b, bit);
    TokensNormal(n, "DBX", b);
    DigitsAreNormal(z);
    NormalAppend(x, ".");
    NormalAppend(x + ".", y);
    NormalAppend(x + "." + y, ".");
    NormalAppend(x + "." + y + ".", z);
    SplitThree(x, y, z);
    assert tag[..2] == x[..2] == "DB";
  }

  /** A bit tag `DB<n>.DBX<b>.<bit>` addresses bit b*8+bit of block n. */
  lemma {:induction false} BitTagParses(n: nat, b: nat, bit: nat)
    requires n <= 32767 && b <= 32767 && bit <= 32767
    ensures GetDBInfo(BitTag(n, b, bit)) ==
      Some(DBInfo(AreaDB, n, b * 8 + bit, 1, S7WLBit,
                  ["DB" + NatToString(n), "DBX" + NatToString(b), NatToString(bit)]))
  {
    var tag := BitTag(n, b, bit);
    BitTagTokens(n, b, bit);
    DataBlockTokens(tag);
    BitTokensParse(Split(tag), n, b, bit);
  }

  /** Dotted tokens `DB<n>`, `DBX<b>`, `<bit>` (and possibly more) describe bit b*8+bit of block n. */
  lemma {:induction false} BitTokensParse(arr: seq<string>, n: nat, b: nat, bit: nat)
    requires n <= 32767 && b <= 32767 && bit <= 32767
    requires |arr| >= 3 && arr[0] == "DB" + NatToString(n) && arr[1] == "DBX" + NatToString(b)
    requires arr[2] == NatToString(bit)
    ensures DescribeTokens(arr) == Some(DBInfo(AreaDB, n, b * 8 + bit, 1, S7WLBit, arr))
  {
    assert arr[1][..3] == "DBX";
    assert arr[0][2..] == NatToString(n);
    assert arr[1][3..] == NatToString(b);
    ParseNatToString(n);
    ParseNatToString(b);
    ParseNatToString(bit);
    DescribeBit(arr);
  }

  /**
   * A byte, word or double-word tag `DB<n>.<kind><b>` addresses byte b of block n
   * with the word length its kind selects; an unknown kind still yields a
   * descriptor, with word length 0.
   */
  lemma {:induction false} WordTagParses(n: nat, kind: string, b: nat)
    requires n <= 32767 && b <= 32767
    requires |kind| == 3 && IsNormal(kind) && '.' !in kind && kind != "DBX"
    ensures GetDBInfo(WordTag(n, kind, b)) ==
      Some(DBInfo(AreaDB, n, b, 1, WordLengthOf(kind),
                  ["DB" + NatToString(n), kind + NatToString(b)]))
  {
    var x, y := "DB" + NatToString(n), kind + NatToString(b);
    var tag := x + "." + y;
    assert tag == WordTag(n, kind, b);
    TokensNormal(n, kind, b);
    NormalAppend(x, ".");
    NormalAppend(x + ".", y);
    SplitTwo(x, y);
    assert tag[..2] == x[..2] == "DB";
    DataBlockTokens(tag);
    assert y[..3] == kind;
    DescribeWord(x, y);
    assert x[2..] == NatToString(n);
    assert y[3..] == NatToString(b);
    ParseNatToString(n);
    ParseNatToString(b);
  }

  /** DBB, DBW and DBD select the codes 0x02, 0x04 and 0x08, and start at the byte index. */
  lemma {:induction false} WordKinds(n: nat, kind: string, b: nat)
    requires n <= 32767 && b <= 32767
    requires kind in ["DBB", "DBW", "DBD"]
    ensures GetDBInfo(WordTag(n, kind, b)).Some?
    ensures GetDBInfo(WordTag(n, kind, b)).value.start == b
    ensures GetDBInfo(WordTag(n, kind, b)).value.wordLength ==
      (if kind == "DBB" then 0x02 else if kind == "DBW" then 0x04 else 0x08)
  {
    assert IsNormal(kind) && '.' !in kind && |kind| == 3;
    WordTagParses(n, kind, b);
  }

  /** For a bit index in 0..7 the start offset gives back the byte and the bit. */
  lemma {:induction false} BitStartDecodes(n: nat, b: nat, bit: nat)
    requires n <= 32767 && b <= 32767 && bit < 8
    ensures GetDBInfo(BitTag(n, b, bit)).Some?
    ensures GetDBInfo(BitTag(n, b, bit)).value.start / 8 == b
    ensures GetDBInfo(BitTag(n, b, bit)).value.start % 8 == bit
  {
    BitTagParses(n, b, bit);
  }

  /** The renderings the driver's test case uses. */
  lemma ExampleRenderings()
    ensures NatToString(0) == "0" && NatToString(1) == "1" && NatToString(100) == "100"
  {
    assert NatToString(10) == "10";
  }

  /** The driver's test case `DB1.DBX100.0` is the bit tag for block 1, byte 100, bit 0. */
  lemma ExampleBitTagText()
    ensures BitTag(1, 100, 0) == "DB1.DBX100.0"
  {
    ExampleRenderings();
  }

  /** The driver's test case `DB1.DBX100.0`: block 1, start 800, one bit. */
  lemma {:induction false} ExampleBitTag(tag: string)
    requires tag == BitTag(1, 100, 0)
    ensures GetDBInfo(tag) == Some(DBInfo(0x84, 1, 800, 1, S7WLBit, ["DB1", "DBX100", "0"]))
  {
    ExampleRenderings();
    BitTagParses(1, 100, 0);
    assert "DB" + NatToString(1) == "DB1" && "DBX" + NatToString(100) == "DBX100";
  }

  // ---------------------------------------------------------------- case and spaces

  /** A tag is parsed as its normal form. */
  lemma {:induction false} NormalFormParsesAlike(s: string)
    ensures GetDBInfo(Normalize(s)) == GetDBInfo(s)
  {
    NormalizeIdempotent(s);
  }

  /** Inserting a space anywhere leaves the descriptor unchanged. */
  lemma {:induction false} SpaceIgnored(a: string, b: string)
    ensures GetDBInfo(a + " " + b) == GetDBInfo(a + b)
  {
    NormalizeAppend(a + " ", b);
    NormalizeAppend(a, " ");
    NormalizeAppend(a, b);
    assert Normalize(" ") == [];
    assert Normalize(a + " " + b) == Normalize(a + b);
    NormalFormParsesAlike(a + " " + b);
    NormalFormParsesAlike(a + b);
  }

  /** Changing the case of one letter leaves the descriptor unchanged. */
  lemma {:induction false} CaseIgnored(a: string, c: char, b: string)
    ensures GetDBInfo(a + [c] + b) == GetDBInfo(a + [Upper(c)] + b)
  {
    NormalizeAppend(a + [c], b);
    NormalizeAppend(a, [c]);
    NormalizeAppend(a + [Upper(c)], b);
    NormalizeAppend(a, [Upper(c)]);
    assert Normalize([c]) == Normalize([Upper(c)]);
  }

  // ---------------------------------------------------------------- rejected tags

  /** A DB tag without a dot has fewer than two tokens and gives no descriptor. */
  lemma {:induction false} NoDotRejected(s: string)
    requires |Normalize(s)| >= 2 && Normalize(s)[..2] == "DB" && '.' !in Normalize(s)
    ensures GetDBInfo(s) == None
  {
  }

  /** The driver's test case `DBX100`. */
  lemma {:induction false} ExampleNoDot(tag: string)
    requires tag == "DBX100"
    ensures GetDBInfo(tag) == None
  {
    assert IsNormal(tag) && '.' !in tag;
    NormalizeFixed(tag);
    NoDotRejected(tag);
  }

  /** A bit tag without its bit token `DB<n>.DBX<b>` gives no descriptor. */
  lemma {:induction false} MissingBitRejected(n: nat, b: nat)
    ensures GetDBInfo("DB" + NatToString(n) + ".DBX" + NatToString(b)) == None
  {
    var x, y := "DB" + NatToString(n), "DBX" + NatToString(b);
    var tag := x + "." + y;
    assert tag == "DB" + NatToString(n) + ".DBX" + NatToString(b);
    TokensNormal(n, "DBX", b);
    NormalAppend(x, ".");
    NormalAppend(x + ".", y);
    assert tag[..2] == x[..2] == "DB";
    DataBlockTokens(tag);
    SplitTwo(x, y);
    assert y[..3] == "DBX";
  }

  /** The driver's test case `DB1.DBX100`. */
  lemma {:induction false} ExampleMissingBit(tag: string)
    requires tag == "DB1.DBX100"
    ensures GetDBInfo(tag) == None
  {
    assert NatToString(1) == "1";
    assert NatToString(10) == "10";
    assert NatToString(100) == "100";
    assert "DB" + NatToString(1) + ".DBX" + NatToString(100) == tag;
    MissingBitRejected(1, 100);
  }

  /**
   * Areas outside DB: the two-letter input, output and memory areas and the
   * single letters E, I, A, 0, M, Z give the all-zero descriptor; a timer (T)
   * or counter (C) tag, a tag of one character, and any other tag that does
   * not begin with DB give none.
   */
  lemma {:induction false} OtherAreas(s: string)
    requires |Normalize(s)| >= 1
    ensures var v := Normalize(s);
      && (|v| == 1 ==> GetDBInfo(s) == None)
      && (|v| >= 2 && IsPlainArea(v[..2]) ==> GetDBInfo(s) == Some(Unsupported))
      && (|v| >= 2 && v[0] in "EIA0MZ" ==> GetDBInfo(s) == Some(Unsupported))
      && (v[0] in "TC" ==> GetDBInfo(s) == None)
      && (v[0] !in "EIA0MZ" && (|v| < 2 || v[..2] != "DB") ==> GetDBInfo(s) == None)
  {
    var v := Normalize(s);
    if |v| >= 2 {
      assert v[..2][0] == v[0];
      if v[0] in "EIA0MZ" && !IsPlainArea(v[..2]) {
        assert v[..2] != "DB";
      }
    }
  }

  // ---------------------------------------------------------------- leniency of the code

  /** The tokens of a bit tag followed by one more dotted token. */
  lemma {:induction false} ExtendedBitTagTokens(n: nat, b: nat, bit: nat, extra: string)
    requires IsNormal(extra) && '.' !in extra
    ensures var tag := BitTag(n, b, bit) + "." + extra;
      && IsNormal(tag) && |tag| >= 2 && tag[..2] == "DB"
      && Split(tag) == ["DB" + NatToString(n), "DBX" + NatToString(b), NatToString(bit), extra]
  {
    var x, y, z := "DB" + NatToString(n), "DBX" + NatToString(b), NatToString(bit);
    ExtendedTagNormal(n, b, bit, extra);
    TokensNormal(n, "DBX", b);
    DigitsAreNormal(z);
    assert BitTag(n, b, bit) + "." + extra == x + "." + y + "." + z + "." + extra;
    SplitFour(x, y, z, extra);
  }

  lemma {:induction false} ExtendedTagNormal(n: nat, b: nat, bit: nat, extra: string)
    requires IsNormal(extra)
    ensures var tag := BitTag(n, b, bit) + "." + extra;
      IsNormal(tag) && |tag| >= 2 && tag[..2] == "DB"
  {
    BitTagTokens(n, b, bit);
    NormalAppend(BitTag(n, b, bit), ".");
    NormalAppend(BitTag(n, b, bit) + ".", extra);
  }

  /**
   * The code does not reject a fourth dotted token: it is kept in the token
   * list and otherwise ignored, so `DB<n>.DBX<b>.<bit>.<extra>` addresses the
   * same bit as `DB<n>.DBX<b>.<bit>`.
   */
  lemma {:induction false} ExtraTokenAccepted(n: nat, b: nat, bit: nat, extra: string)
    requires n <= 32767 && b <= 32767 && bit <= 32767
    requires IsNormal(extra) && '.' !in extra
    ensures GetDBInfo(BitTag(n, b, bit) + "." + extra) ==
      Some(DBInfo(AreaDB, n, b * 8 + bit, 1, S7WLBit,
                  ["DB" + NatToString(n), "DBX" + NatToString(b), NatToString(bit), extra]))
  {
    var tag := BitTag(n, b, bit) + "." + extra;
    ExtendedBitTagTokens(n, b, bit, extra);
    DataBlockTokens(tag);
    BitTokensParse(Split(tag), n, b, bit);
  }

  /** The driver's test case `DB1.DBX86.2.1`, which its test expects to be rejected. */
  lemma {:induction false} ExampleExtraToken(tag: string)
    requires tag == "DB1.DBX86.2.1"
    ensures GetDBInfo(tag).Some? && GetDBInfo(tag).value.start == 690
  {
    assert NatToString(86) == "86";
    assert BitTag(1, 86, 2) + "." + "1" == tag;
    ExtraTokenAccepted(1, 86, 2, "1");
  }

  /**
   * The bit index is not bounded to 0..7, so distinct tags alias one bit:
   * `DB<n>.DBX<b>.<bit+8>` and `DB<n>.DBX<b+1>.<bit>` give the same descriptor
   * fields apart from the tokens.
   */
  lemma {:induction false} BitIndexAliases(n: nat, b: nat, bit: nat)
    requires n <= 32767 && b < 32767 && bit + 8 <= 32767
    ensures GetDBInfo(BitTag(n, b, bit + 8)).Some? && GetDBInfo(BitTag(n, b + 1, bit)).Some?
    ensures GetDBInfo(BitTag(n, b, bit + 8)).value.start
         == GetDBInfo(BitTag(n, b + 1, bit)).value.start
    ensures BitTag(n, b, bit + 8) != BitTag(n, b + 1, bit)
  {
    BitTagParses(n, b, bit + 8);
    BitTagParses(n, b + 1, bit);
    BitTagsDiffer(n, b, bit);
  }

  lemma {:induction false} BitTagsDiffer(n: nat, b: nat, bit: nat)
    ensures BitTag(n, b, bit + 8) != BitTag(n, b + 1, bit)
  {
    BitTagTokens(n, b, bit + 8);
    BitTagTokens(n, b + 1, bit);
    NatToStringValue(bit + 8);
    NatToStringValue(bit);
  }

}
