/** The on-disk format of the offset file (src/logtail2.c, read_offset and
    write_offset): one unsigned decimal number followed by a newline, written
    with printf's "%lu\n" and read back with fscanf's "%lu\n".

    Bytes are `bv8`. The position lives in a C `long` (64 bits), but "%lu"
    converts through `unsigned long`, so reading applies strtoul's rules
    (optional sign, saturation at ULONG_MAX, negation modulo 2^64 under '-')
    and then reinterprets the 64 bits as a signed `long`. */
module OffsetCodec {
  import opened Wrappers

  /** Largest `unsigned long` (LP64). */
  const ULongMax: int := 0xFFFF_FFFF_FFFF_FFFF
  /** Largest `long`; also the largest file size `off_t` can report. */
  const LongMax: int := 0x7FFF_FFFF_FFFF_FFFF
  /** Smallest `long`. */
  const LongMin: int := -0x8000_0000_0000_0000

  const Newline: bv8 := 0x0A
  const Plus: bv8 := 0x2B
  const Minus: bv8 := 0x2D
  const Zero: bv8 := 0x30

  predicate IsDigit(b: bv8) {
    0x30 <= b <= 0x39
  }

  /** isspace() in the C locale: blank, tab, newline, vertical tab, form feed, carriage return. */
  predicate IsSpace(b: bv8) {
    b == 0x20 || 0x09 <= b <= 0x0D
  }

  predicate AllDigits(s: seq<bv8>) {
    forall i :: 0 <= i < |s| ==> IsDigit(s[i])
  }

  function DigitByte(d: nat): (b: bv8)
    requires d < 10
    ensures IsDigit(b)
  {
    (0x30 + d) as bv8
  }

  function DigitValue(b: bv8): (d: nat)
    requires IsDigit(b)
    ensures d < 10
    ensures DigitByte(d) == b
  {
    b as int - 0x30
  }

  // ---------------------------------------------------------------------------
  // Writing: fprintf(fs, "%lu\n", offset)
  // ---------------------------------------------------------------------------

  /** The decimal text "%lu" prints for a non-negative value: at least one
      digit, and no leading zero unless the value is zero. */
  function Digits(n: nat): (r: seq<bv8>)
    ensures 0 < |r|
    ensures AllDigits(r)
    ensures r[0] == Zero ==> n == 0
    decreases n
  {
    if n < 10 then [DigitByte(n)] else Digits(n / 10) + [DigitByte(n % 10)]
  }

  /** The value of a run of decimal digits, most significant first. */
  function ValueOf(ds: seq<bv8>): nat
    requires AllDigits(ds)
  {
    if ds == [] then 0 else ValueOf(ds[..|ds| - 1]) * 10 + DigitValue(ds[|ds| - 1])
  }

  /** The whole content write_offset leaves in the offset file: one line
      holding nothing but digits. */
  function EncodeOffset(n: nat): (r: seq<bv8>)
    ensures 2 <= |r|
    ensures r[|r| - 1] == Newline
    ensures AllDigits(r[..|r| - 1])
  {
    Digits(n) + [Newline]
  }

  // ---------------------------------------------------------------------------
  // Reading: fscanf(fs, "%lu\n", &offset) == 1
  // ---------------------------------------------------------------------------

  /** Number of leading white-space bytes, which a scanf conversion skips. */
  function SkipSpace(s: seq<bv8>): (k: nat)
    ensures k <= |s|
    ensures forall i :: 0 <= i < k ==> IsSpace(s[i])
    ensures k == |s| || !IsSpace(s[k])
  {
    if s == [] || !IsSpace(s[0]) then 0 else 1 + SkipSpace(s[1..])
  }

  /** Length of the longest run of digits at the front of s. */
  function DigitRun(s: seq<bv8>): (n: nat)
    ensures n <= |s|
    ensures forall i :: 0 <= i < n ==> IsDigit(s[i])
    ensures n == |s| || !IsDigit(s[n])
  {
    if s == [] || !IsDigit(s[0]) then 0 else 1 + DigitRun(s[1..])
  }

  /** strtoul's result for a digit run of value v, negated when a '-' preceded it. */
  function StrToULong(negative: bool, v: nat): (u: nat)
    ensures u <= ULongMax
    ensures v > ULongMax ==> u == ULongMax
    ensures v <= ULongMax && !negative ==> u == v
    ensures v <= ULongMax && negative ==> (u + v) % (ULongMax + 1) == 0
  {
    if v > ULongMax then ULongMax
    else if negative then (ULongMax + 1 - v) % (ULongMax + 1)
    else v
  }

  /** The 64 bits of an `unsigned long` read back as a `long`. */
  function AsLong(u: nat): (x: int)
    requires u <= ULongMax
    ensures LongMin <= x <= LongMax
    ensures (x - u) % (ULongMax + 1) == 0
  {
    if u <= LongMax then u else u - (ULongMax + 1)
  }

  /** 1 when t starts with the sign "%lu" accepts, else 0. */
  function SignLength(t: seq<bv8>): (k: nat)
    ensures k <= |t|
    ensures k == 1 <==> |t| > 0 && (t[0] == Plus || t[0] == Minus)
  {
    if |t| > 0 && (t[0] == Plus || t[0] == Minus) then 1 else 0
  }

  /** The digits "%lu" consumes from t: the longest digit run after the sign. */
  function NumberDigits(t: seq<bv8>): (ds: seq<bv8>)
    ensures AllDigits(ds)
  {
    var u := t[SignLength(t)..];
    u[..DigitRun(u)]
  }

  /** The "%lu" conversion proper, on the input after the skipped white
      space: an optional sign, then at least one digit. A value too large for
      `unsigned long` becomes ULONG_MAX, whose `long` reading is -1; any
      other value, negated under '-', is kept modulo 2^64. */
  function ConvertNumber(t: seq<bv8>): (r: Option<int>)
    ensures r.Some? <==> SignLength(t) < |t| && IsDigit(t[SignLength(t)])
    ensures r.Some? ==> LongMin <= r.value <= LongMax
    ensures r.Some? && ValueOf(NumberDigits(t)) > ULongMax ==> r.value == -1
    ensures r.Some? && ValueOf(NumberDigits(t)) <= ULongMax ==>
              var v: int := ValueOf(NumberDigits(t));
              (r.value - (if t[0] == Minus then -v else v)) % (ULongMax + 1) == 0
    ensures r.Some? && ValueOf(NumberDigits(t)) <= LongMax ==>
              r.value == if t[0] == Minus then -(ValueOf(NumberDigits(t)) as int) else ValueOf(NumberDigits(t))
  {
    var ds := NumberDigits(t);
    if ds == [] then None
    else
      var negative := SignLength(t) == 1 && t[0] == Minus;
      LongOfULong(negative, ValueOf(ds));
      Some(AsLong(StrToULong(negative, ValueOf(ds))))
  }

  /** strtoul followed by the `long` reinterpretation, case by case. */
  lemma LongOfULong(negative: bool, v: nat)
    ensures var x := AsLong(StrToULong(negative, v));
            && (v > ULongMax ==> x == -1)
            && (v <= ULongMax ==> (x - (if negative then -(v as int) else v)) % (ULongMax + 1) == 0)
            && (v <= LongMax ==> x == if negative then -(v as int) else v)
  {
    var x := AsLong(StrToULong(negative, v));
    if v <= ULongMax && negative {
      if v == 0 {
        assert x == 0;
      } else if ULongMax + 1 - v <= LongMax {
        assert x == ULongMax + 1 - v;
      } else {
        assert x == -(v as int);
      }
    }
  }

  /** What fscanf(fs, "%lu\n", &offset) stores in the `long` offset, or None
      when no number can be converted (fscanf does not return 1). Bytes after
      the number are never looked at. */
  function ParseOffset(s: seq<bv8>): (r: Option<int>)
    ensures var i := SkipSpace(s);
            r.Some? <==> (i < |s| && IsDigit(s[i])) ||
                         (i + 1 < |s| && (s[i] == Plus || s[i] == Minus) && IsDigit(s[i + 1]))
    ensures r.Some? ==> LongMin <= r.value <= LongMax
  {
    ConvertNumber(s[SkipSpace(s)..])
  }

  // ---------------------------------------------------------------------------
  // Properties
  // ---------------------------------------------------------------------------

  /** Reading the digits "%lu" printed gives back the printed value. */
  lemma {:induction false} ValueOfDigits(n: nat)
    ensures ValueOf(Digits(n)) == n
    decreases n
  {
    var ds := Digits(n);
    if n < 10 {
      assert ds == [DigitByte(n)];
      DigitByteValue(n);
      assert ds[..0] == [];
    } else {
      assert ds == Digits(n / 10) + [DigitByte(n % 10)];
      assert ds[..|ds| - 1] == Digits(n / 10);
      DigitByteValue(n % 10);
      ValueOfDigits(n / 10);
    }
  }

  lemma DigitByteValue(d: nat)
    requires d < 10
    ensures DigitValue(DigitByte(d)) == d
  {
    var b := DigitByte(d);
    assert b as int == 0x30 + d;
  }

  /** The digit run of a line written by write_offset is exactly its digits. */
  lemma {:induction false} DigitRunStopsAtNewline(ds: seq<bv8>, rest: seq<bv8>)
    requires AllDigits(ds)
    ensures DigitRun(ds + [Newline] + rest) == |ds|
    decreases |ds|
  {
    if ds != [] {
      assert (ds + [Newline] + rest)[1..] == ds[1..] + [Newline] + rest;
      DigitRunStopsAtNewline(ds[1..], rest);
    }
  }

  /** Round trip: write_offset followed by read_offset returns the saved
      position, whatever follows the line. */
  lemma EncodeThenParse(n: nat, rest: seq<bv8>)
    requires n <= LongMax
    ensures ParseOffset(EncodeOffset(n) + rest) == Some(n)
  {
    var s := EncodeOffset(n) + rest;
    var ds := Digits(n);
    assert s == ds + [Newline] + rest;
    assert s[0] == ds[0];
    assert SkipSpace(s) == 0;
    assert s[SkipSpace(s)..] == s;
    DigitRunStopsAtNewline(ds, rest);
    assert s[..|ds|] == ds;
    ValueOfDigits(n);
  }

  /** Distinct positions are saved as distinct file contents. */
  lemma EncodeInjective(m: nat, n: nat)
    requires m <= LongMax && n <= LongMax
    ensures EncodeOffset(m) == EncodeOffset(n) ==> m == n
  {
    EncodeThenParse(m, []);
    EncodeThenParse(n, []);
    assert EncodeOffset(m) + [] == EncodeOffset(m);
    assert EncodeOffset(n) + [] == EncodeOffset(n);
  }

  /** Leading white space in the offset file does not change what is read. */
  lemma {:induction false} ParseSkipsLeadingSpace(ws: seq<bv8>, s: seq<bv8>)
    requires forall i :: 0 <= i < |ws| ==> IsSpace(ws[i])
    ensures ParseOffset(ws + s) == ParseOffset(s)
  {
    SkipSpaceOfPrefix(ws, s);
    var k := SkipSpace(s);
    assert SkipSpace(ws + s) == |ws| + k;
    assert (ws + s)[|ws| + k..] == s[k..];
  }

  lemma {:induction false} SkipSpaceOfPrefix(ws: seq<bv8>, s: seq<bv8>)
    requires forall i :: 0 <= i < |ws| ==> IsSpace(ws[i])
    ensures SkipSpace(ws + s) == |ws| + SkipSpace(s)
    decreases |ws|
  {
    if ws != [] {
      assert (ws + s)[1..] == ws[1..] + s;
      SkipSpaceOfPrefix(ws[1..], s);
    } else {
      assert ws + s == s;
    }
  }

  /** An empty or blank offset file holds no number: fscanf fails. */
  lemma BlankIsNotAnOffset(s: seq<bv8>)
    requires forall i :: 0 <= i < |s| ==> IsSpace(s[i])
    ensures ParseOffset(s) == None
  {
    assert SkipSpace(s) == |s|;
  }

  /** A leading '-' is accepted by "%lu" and, once stored in a `long`,
      yields a negative position: "-1\n" reads as -1. */
  lemma MinusOneReadsNegative()
    ensures ParseOffset([Minus, 0x31, Newline]) == Some(-1)
  {
    var s: seq<bv8> := [Minus, 0x31, Newline];
    assert SkipSpace(s) == 0;
    assert s[0..] == s;
    var u := s[1..];
    assert DigitRun(u[1..]) == 0;
    assert DigitRun(u) == 1;
    assert u[..1] == [0x31 as bv8];
    assert ValueOf(u[..1]) == 1;
  }
}
