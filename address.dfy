/**
 * The symbolic S7 address parser `getDBInfo` of internal/driver/driver.go:
 * a tag such as `DB2.DBX1.0`, `DB2.DBW4` or `DB2.DBD26` becomes a DBInfo
 * descriptor. Every path on which the Go code returns a nil descriptor, or
 * panics on a short slice or a missing token, yields None here.
 */
module Address {
  import opened Wrappers

  // Word-length codes used by the parser.
  const S7WLBit := 0x01
  const S7WLByte := 0x02
  const S7WLWord := 0x04
  const S7WLReal := 0x08

  // Area code of a data block.
  const AreaDB := 0x84

  datatype DBInfo = DBInfo(area: int, dbNumber: int, start: int, amount: int,
                           wordLength: int, dbArray: seq<string>)

  /** The all-zero descriptor the parser returns for recognised areas other than DB. */
  const Unsupported := DBInfo(0, 0, 0, 0, 0, [])

  // ---------------------------------------------------------------- normalisation

  predicate IsLower(c: char) { 'a' <= c <= 'z' }

  /** ASCII upper-casing of one character. */
  function Upper(c: char): (u: char)
    ensures !IsLower(u)
    ensures !IsLower(c) ==> u == c
    ensures u == ' ' <==> c == ' '
  {
    if IsLower(c) then (c as int - 32) as char else c
  }

  /** A string in the form the parser works on: no space, no lower-case letter. */
  predicate IsNormal(s: string) {
    forall i :: 0 <= i < |s| ==> s[i] != ' ' && !IsLower(s[i])
  }

  /** Upper-case and drop every space, as the parser does first. */
  function Normalize(s: string): (r: string)
    ensures IsNormal(r)
    ensures |r| <= |s|
  {
    if s == [] then []
    else (if s[0] == ' ' then [] else [Upper(s[0])]) + Normalize(s[1..])
  }

  lemma {:induction false} NormalizeAppend(a: string, b: string)
    ensures Normalize(a + b) == Normalize(a) + Normalize(b)
  {
    if a == [] {
      assert a + b == b;
    } else {
      assert (a + b)[0] == a[0];
      assert (a + b)[1..] == a[1..] + b;
      NormalizeAppend(a[1..], b);
    }
  }

  /** A normal string is its own normal form. */
  lemma {:induction false} NormalizeFixed(s: string)
    requires IsNormal(s)
    ensures Normalize(s) == s
  {
    if s != [] {
      assert IsNormal(s[1..]) by {
        forall i | 0 <= i < |s[1..]| ensures s[1..][i] != ' ' && !IsLower(s[1..][i]) {
          assert s[1..][i] == s[i + 1];
        }
      }
      NormalizeFixed(s[1..]);
    }
  }

  lemma NormalizeIdempotent(s: string)
    ensures Normalize(Normalize(s)) == Normalize(s)
  {
    NormalizeFixed(Normalize(s));
  }

  // ---------------------------------------------------------------- splitting on '.'

  function IndexOf(s: string, c: char): (i: nat)
    requires c in s
    ensures i < |s| && s[i] == c && c !in s[..i]
  {
    if s[0] == c then 0
    else
      assert c in s[1..] by {
        var k :| 0 <= k < |s| && s[k] == c;
        assert s[1..][k - 1] == c;
      }
      var j := IndexOf(s[1..], c);
      assert s[..j + 1] == [s[0]] + s[1..][..j];
      j + 1
  }

  /** Go's strings.Split(s, "."): never empty, no piece holds a dot. */
  function Split(s: string): (r: seq<string>)
    ensures |r| >= 1
    ensures forall k :: 0 <= k < |r| ==> '.' !in r[k]
    decreases |s|
  {
    if '.' !in s then [s]
    else
      var i := IndexOf(s, '.');
      [s[..i]] + Split(s[i + 1..])
  }

  /** Go's strings.Join(parts, "."). */
  function Join(parts: seq<string>): string
    requires |parts| >= 1
  {
    if |parts| == 1 then parts[0] else parts[0] + "." + Join(parts[1..])
  }

  lemma {:induction false} JoinSplit(s: string)
    ensures Join(Split(s)) == s
    decreases |s|
  {
    if '.' in s {
      var i := IndexOf(s, '.');
      JoinSplit(s[i + 1..]);
      assert Split(s)[1..] == Split(s[i + 1..]);
      assert s == s[..i] + "." + s[i + 1..];
    }
  }

  /** The first dot of `p + "." + rest` is the one after p when p has none. */
  lemma {:induction false} IndexOfAfterPrefix(p: string, rest: string)
    requires '.' !in p
    ensures IndexOf(p + "." + rest, '.') == |p|
  {
    var s := p + "." + rest;
    if p != [] {
      assert s[0] == p[0];
      assert s[1..] == p[1..] + "." + rest;
      IndexOfAfterPrefix(p[1..], rest);
    }
  }

  lemma {:induction false} SplitJoin(parts: seq<string>)
    requires |parts| >= 1
    requires forall k :: 0 <= k < |parts| ==> '.' !in parts[k]
    ensures Split(Join(parts)) == parts
  {
    if |parts| > 1 {
      var p := parts[0];
      var rest := Join(parts[1..]);
      var s := p + "." + rest;
      IndexOfAfterPrefix(p, rest);
      assert s[|p|] == '.';
      assert s[..|p|] == p && s[|p| + 1..] == rest;
      assert Split(s) == [p] + Split(rest);
      SplitJoin(parts[1..]);
      assert parts == [p] + parts[1..];
    }
  }

  // ---------------------------------------------------------------- integers

  predicate IsDigit(c: char) { '0' <= c <= '9' }

  predicate AllDigits(s: string) { forall i :: 0 <= i < |s| ==> IsDigit(s[i]) }

  function DigitsValue(s: string): (v: nat)
    requires AllDigits(s)
  {
    if s == [] then 0
    else DigitsValue(s[..|s| - 1]) * 10 + (s[|s| - 1] as int - '0' as int)
  }

  /** The text after an optional leading sign. */
  function SignFree(s: string): (t: string)
    ensures |s| > 0 && (s[0] == '-' || s[0] == '+') ==> t == s[1..]
    ensures |s| == 0 || (s[0] != '-' && s[0] != '+') ==> t == s
  {
    if |s| > 0 && (s[0] == '-' || s[0] == '+') then s[1..] else s
  }

  /** An optional sign followed by at least one decimal digit: the syntax ParseInt accepts in base 10. */
  predicate IsDecimal(s: string) {
    || (|s| >= 1 && AllDigits(s))
    || (|s| >= 2 && (s[0] == '-' || s[0] == '+') && AllDigits(s[1..]))
  }

  /** The longest run of decimal digits at the start of s. */
  function LeadingDigits(s: string): (d: string)
    ensures |d| <= |s| && d == s[..|d|] && AllDigits(d)
    ensures |d| < |s| ==> !IsDigit(s[|d|])
  {
    if s == [] || !IsDigit(s[0]) then []
    else
      var d := [s[0]] + LeadingDigits(s[1..]);
      assert d == s[..|d|];
      d
  }

  const MaxUint16: nat := 65535

  /** Outcome of ParseUint's digit loop: a value, a syntax error, or a range error. */
  datatype Scan = Digits(value: nat) | SyntaxError | RangeError

  /**
   * ParseUint's loop over the magnitude in base 10 with a 16-bit limit: the
   * characters are taken left to right, the first non-digit is a syntax
   * error, and the first digit that takes the running value past 65535 is a
   * range error, whatever follows it.
   */
  function ScanDecimal(s: string, acc: nat): (r: Scan)
    requires acc <= MaxUint16
    ensures r.Digits? ==> acc <= r.value <= MaxUint16
    decreases |s|
  {
    if s == [] then Digits(acc)
    else if !IsDigit(s[0]) then SyntaxError
    else
      var next := acc * 10 + (s[0] as int - '0' as int);
      if next > MaxUint16 then RangeError else ScanDecimal(s[1..], next)
  }

  /** Scanning p + q is scanning p, then q from where p stopped, unless p ended in an error. */
  lemma {:induction false} ScanAppend(p: string, q: string, acc: nat)
    requires acc <= MaxUint16
    ensures ScanDecimal(p + q, acc) ==
      match ScanDecimal(p, acc)
      case Digits(v) => ScanDecimal(q, v)
      case e => e
  {
    if p != [] {
      assert (p + q)[0] == p[0];
      assert (p + q)[1..] == p[1..] + q;
      if IsDigit(p[0]) {
        var next := acc * 10 + (p[0] as int - '0' as int);
        if next <= MaxUint16 {
          ScanAppend(p[1..], q, next);
        }
      }
    } else {
      assert p + q == q;
    }
  }

  /** On a string of digits the scan gives the digits' value, or a range error when it exceeds 65535. */
  lemma {:induction false} ScanDigitsValue(s: string)
    requires AllDigits(s)
    ensures ScanDecimal(s, 0) == if DigitsValue(s) > MaxUint16 then RangeError else Digits(DigitsValue(s))
  {
    if s != [] {
      var p := s[..|s| - 1];
      var c := s[|s| - 1];
      assert s == p + [c];
      ScanAppend(p, [c], 0);
      ScanDigitsValue(p);
    }
  }

  /**
   * The whole scan in terms of the leading digit run: a range error when
   * that run is worth more than 65535 (even if a non-digit follows it),
   * otherwise the run's value when it is all of s, otherwise a syntax error.
   */
  lemma ScanLeading(s: string)
    ensures ScanDecimal(s, 0) ==
      var d := LeadingDigits(s);
      if DigitsValue(d) > MaxUint16 then RangeError
      else if d == s then Digits(DigitsValue(s))
      else SyntaxError
  {
    var d := LeadingDigits(s);
    var rest := s[|d|..];
    assert s == d + rest;
    ScanAppend(d, rest, 0);
    ScanDigitsValue(d);
  }

  /**
   * The value of Go's strconv.ParseInt(s, 10, 16) when its error is ignored.
   * After an optional sign the magnitude is scanned as ScanDecimal does; an
   * empty magnitude or a syntax error gives 0, a range error gives the bound
   * on the side of the sign, and a value outside 16 bits is clamped to the
   * nearest bound.
   */
  function ParseInt16(s: string): (r: int)
    ensures -32768 <= r <= 32767
  {
    var neg := |s| > 0 && s[0] == '-';
    var body := SignFree(s);
    if body == [] then 0
    else
      match ScanDecimal(body, 0)
      case SyntaxError => 0
      case RangeError => if neg then -32768 else 32767
      case Digits(v) =>
        if neg then (if v > 32768 then -32768 else -(v as int))
        else (if v > 32767 then 32767 else v)
  }

  /**
   * The error cases of the conversion, stated through the leading digit run
   * of the magnitude: a string that is not an optional sign followed by
   * digits gives 0, unless that run is already worth more than 65535, in
   * which case the result is the bound on the side of the sign.
   */
  lemma ParseInt16Errors(s: string)
    ensures var run := DigitsValue(LeadingDigits(SignFree(s)));
      && (!IsDecimal(s) && run <= MaxUint16 ==> ParseInt16(s) == 0)
      && (run > MaxUint16 ==> ParseInt16(s) == if |s| > 0 && s[0] == '-' then -32768 else 32767)
  {
    ScanLeading(SignFree(s));
  }

  /** Decimal rendering of a natural number, used to state facts about tags. */
  function NatToString(n: nat): (s: string)
    ensures |s| >= 1 && AllDigits(s)
  {
    if n < 10 then ['0' + n as char]
    else NatToString(n / 10) + ['0' + (n % 10) as char]
  }

  lemma {:induction false} NatToStringValue(n: nat)
    ensures DigitsValue(NatToString(n)) == n
  {
    if n >= 10 {
      var s := NatToString(n);
      assert s[..|s| - 1] == NatToString(n / 10);
      NatToStringValue(n / 10);
    }
  }

  /** Parsing a decimal rendering gives its value back, clamped to 32767. */
  lemma ParseNatToString(n: nat)
    ensures ParseInt16(NatToString(n)) == if n > 32767 then 32767 else n
  {
    var t := NatToString(n);
    NatToStringValue(n);
    ScanDigitsValue(t);
  }

  /**
   * A decimal rendering with a sign: a plus sign changes nothing, a minus
   * sign negates, and the result is clamped to -32768 below.
   */
  lemma ParseSignedNatToString(n: nat)
    ensures ParseInt16("+" + NatToString(n)) == if n > 32767 then 32767 else n
    ensures ParseInt16("-" + NatToString(n)) == if n > 32768 then -32768 else -(n as int)
  {
    var t := NatToString(n);
    NatToStringValue(n);
    ScanDigitsValue(t);
    assert ("+" + t)[1..] == t;
    assert ("-" + t)[1..] == t;
  }

  /**
   * A digit run worth more than 65535 is a range error even when a non-digit
   * follows it: the result is the bound on the side of the sign, never the
   * 0 of a syntax error.
   */
  lemma OverflowBeforeGarbage(t: string, rest: string)
    requires AllDigits(t) && DigitsValue(t) > MaxUint16
    requires rest == [] || !IsDigit(rest[0])
    ensures ParseInt16(t + rest) == 32767
  {
    LeadingRun(t, rest);
    assert (t + rest)[0] == t[0];
    ParseInt16Errors(t + rest);
  }

  /** The same with a minus sign: the range error gives the lower bound. */
  lemma NegativeOverflowBeforeGarbage(t: string, rest: string)
    requires AllDigits(t) && DigitsValue(t) > MaxUint16
    requires rest == [] || !IsDigit(rest[0])
    ensures ParseInt16("-" + t + rest) == -32768
  {
    LeadingRun(t, rest);
    var s := "-" + t + rest;
    assert s[0] == '-' && s[1..] == t + rest;
    ParseInt16Errors(s);
  }

  /** The leading digit run of an all-digit string followed by a non-digit is that string. */
  lemma LeadingRun(t: string, rest: string)
    requires AllDigits(t)
    requires rest == [] || !IsDigit(rest[0])
    ensures LeadingDigits(t + rest) == t
  {
    var s := t + rest;
    var d := LeadingDigits(s);
    assert d == s[..|t|] == t;
  }

  /** Go's ParseInt gives 32767 for "70000A", the bound, and not the 0 of a syntax error. */
  lemma ExampleOverflowBeforeGarbage()
    ensures ParseInt16("70000A") == 32767
  {
  }

  // ---------------------------------------------------------------- the parser

  /** The two-letter areas the parser recognises without building a descriptor. */
  predicate IsPlainArea(two: string) {
    two in ["EB", "EW", "ED", "AB", "AW", "AD", "MB", "MW", "MD"]
  }

  /** Word-length code selected by the first three characters of token 1 (0 when unknown). */
  function WordLengthOf(dbType: string): (w: int)
    ensures w in {0, S7WLBit, S7WLByte, S7WLWord, S7WLReal}
    ensures w == S7WLBit <==> dbType == "DBX"
    ensures w == 0 <==> dbType !in ["DBX", "DBB", "DBW", "DBD"]
  {
    if dbType == "DBX" then S7WLBit
    else if dbType == "DBB" then S7WLByte
    else if dbType == "DBW" then S7WLWord
    else if dbType == "DBD" then S7WLReal
    else 0
  }

  /** The data-block branch on the dotted tokens of a tag whose first token begins with "DB". */
  function DescribeTokens(arr: seq<string>): (r: Option<DBInfo>)
    requires |arr| >= 1 && |arr[0]| >= 2
    ensures r.Some? ==> r.value.area == AreaDB && r.value.amount == 1
    ensures r.Some? ==> r.value.dbArray == arr && |arr| >= 2 && |arr[1]| >= 3
    ensures r.Some? ==> r.value.wordLength == WordLengthOf(arr[1][..3])
    ensures r.Some? ==> r.value.dbNumber == ParseInt16(arr[0][2..])
  {
    if |arr| < 2 then None
    else
      var dbNo := ParseInt16(arr[0][2..]);
      if |arr[1]| < 3 then None
      else
        var index := ParseInt16(arr[1][3..]);
        var wordLen := WordLengthOf(arr[1][..3]);
        if wordLen == S7WLBit then
          if |arr| < 3 then None
          else Some(DBInfo(AreaDB, dbNo, index * 8 + ParseInt16(arr[2]), 1, wordLen, arr))
        else Some(DBInfo(AreaDB, dbNo, index, 1, wordLen, arr))
  }

  /** The data-block branch, on a normalised tag beginning with "DB". */
  function ParseDataBlock(v: string): (r: Option<DBInfo>)
    requires |v| >= 2 && v[..2] == "DB"
    ensures r.Some? ==> r.value.dbArray == Split(v)
  {
    FirstTokenLong(v);
    DescribeTokens(Split(v))
  }

  /** The first token of a tag beginning with DB is at least two characters long. */
  lemma {:induction false} FirstTokenLong(v: string)
    requires |v| >= 2 && v[..2] == "DB"
    ensures |Split(v)[0]| >= 2
  {
    var arr := Split(v);
    JoinSplit(v);
    if |arr| > 1 {
      assert v == arr[0] + "." + Join(arr[1..]);
    }
    assert v[0] == 'D' && v[1] == 'B';
  }

  /** getDBInfo: the descriptor of a symbolic tag, or None where the code returns nil or panics. */
  function GetDBInfo(variable: string): (r: Option<DBInfo>)
    ensures Normalize(variable) == [] ==> r.None?
    ensures r.Some? ==> r.value == Unsupported || r.value.area == AreaDB
    ensures r.Some? && r.value.area == AreaDB ==>
      && r.value.amount == 1
      && r.value.wordLength in {0, S7WLBit, S7WLByte, S7WLWord, S7WLReal}
      && -32768 <= r.value.dbNumber <= 32767
      && r.value.dbArray == Split(Normalize(variable))
  {
    var v := Normalize(variable);
    if |v| < 2 then None
    else if IsPlainArea(v[..2]) then Some(Unsupported)
    else if v[..2] == "DB" then ParseDataBlock(v)
    else if v[0] in "EIA0MZ" then Some(Unsupported)
    else None
  }
}
