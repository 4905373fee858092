/** The parts of Go's standard library that the path codec relies on,
    stated by their documented behaviour: `strconv.ParseInt(s, 10, 64)`,
    decimal printing of an unsigned value (`%d`), and `strings.TrimPrefix`,
    `TrimSuffix`, `HasSuffix` and `Split` with a one-character separator.
    Go strings are bytes; every character these functions test for is
    ASCII, and UTF-8 never uses an ASCII byte inside a longer character,
    so working on characters gives the same answers. */
module GoStrings {

  const MaxInt64: int := 0x7FFF_FFFF_FFFF_FFFF
  const MinInt64: int := -0x8000_0000_0000_0000
  const MaxUint64: int := 0xFFFF_FFFF_FFFF_FFFF

  // ---------------------------------------------------------------------
  // Decimal digits
  // ---------------------------------------------------------------------

  predicate IsDigit(c: char)
  {
    '0' <= c <= '9'
  }

  predicate AllDigits(s: string)
  {
    forall i :: 0 <= i < |s| ==> IsDigit(s[i])
  }

  function DigitValue(c: char): (d: nat)
    requires IsDigit(c)
    ensures d < 10
  {
    c as int - '0' as int
  }

  function DigitChar(d: nat): (c: char)
    requires d < 10
    ensures IsDigit(c) && DigitValue(c) == d
  {
    ('0' as int + d) as char
  }

  /** The value of a string of decimal digits, most significant first:
      the reference meaning against which parsing and printing are proved. */
  function DecimalValue(s: string): nat
    requires AllDigits(s)
    decreases |s|
  {
    if s == [] then 0
    else DecimalValue(s[..|s| - 1]) * 10 + DigitValue(s[|s| - 1])
  }

  lemma DecimalValueSnoc(s: string, c: char)
    requires AllDigits(s) && IsDigit(c)
    ensures AllDigits(s + [c])
    ensures DecimalValue(s + [c]) == DecimalValue(s) * 10 + DigitValue(c)
  {
    assert (s + [c])[..|s|] == s;
  }

  /** A longer digit string is worth at least as much as its prefix. */
  lemma {:induction false} DecimalValuePrefix(s: string, k: nat)
    requires AllDigits(s) && k <= |s|
    ensures AllDigits(s[..k])
    ensures DecimalValue(s[..k]) <= DecimalValue(s)
    decreases |s| - k
  {
    if k < |s| {
      DecimalValuePrefix(s, k + 1);
      assert s[..k + 1][..k] == s[..k];
    } else {
      assert s[..k] == s;
    }
  }

  // ---------------------------------------------------------------------
  // strconv.ParseUint(s, 10, 64) and strconv.ParseInt(s, 10, 64)
  // ---------------------------------------------------------------------

  datatype UintParse = Parsed(n: nat) | SyntaxError | RangeError

  /** Go's digit loop: left to right, a character that is not a decimal
      digit is a syntax error, and a digit that would take the accumulated
      value past 2^64 - 1 is a range error at once (later characters are
      not looked at). */
  function ScanDigits(s: string, acc: nat): UintParse
    decreases |s|
  {
    if s == [] then Parsed(acc)
    else if !IsDigit(s[0]) then SyntaxError
    else if acc * 10 + DigitValue(s[0]) > MaxUint64 then RangeError
    else ScanDigits(s[1..], acc * 10 + DigitValue(s[0]))
  }

  /** `strconv.ParseUint(s, 10, 64)`: the empty string is a syntax error. */
  function ParseUint(s: string): UintParse
  {
    if s == [] then SyntaxError else ScanDigits(s, 0)
  }

  /** `strconv.ParseInt(s, 10, 64)` with its error dropped, as the path codec
      uses it: one optional `+` or `-`, then `ParseUint` of the rest; a
      syntax error gives 0, and a value outside int64 gives the bound on its
      side. */
  function ParseInt(s: string): (r: int)
    ensures MinInt64 <= r <= MaxInt64
  {
    if s == [] then 0
    else
      var neg := s[0] == '-';
      var body := if s[0] == '+' || s[0] == '-' then s[1..] else s;
      match ParseUint(body)
      case SyntaxError => 0
      case RangeError => if neg then MinInt64 else MaxInt64
      case Parsed(un) =>
        if !neg && un > MaxInt64 then MaxInt64
        else if neg && un > -MinInt64 then MinInt64
        else if neg then -(un as int)
        else un
  }

  /** The value an int64 takes when a mathematical value is clamped to the
      int64 range. */
  function ClampInt64(v: int): int
  {
    if v > MaxInt64 then MaxInt64 else if v < MinInt64 then MinInt64 else v
  }

  /** The digit loop computes the decimal value of a digit string, or reports
      a range error exactly when that value does not fit in 64 bits. */
  lemma {:induction false} ScanDigitsFrom(s: string, k: nat)
    requires AllDigits(s) && k <= |s|
    requires DecimalValue(s[..k]) <= MaxUint64
    ensures ScanDigits(s[k..], DecimalValue(s[..k])) ==
            if DecimalValue(s) <= MaxUint64 then Parsed(DecimalValue(s)) else RangeError
    decreases |s| - k
  {
    if k == |s| {
      assert s[..k] == s;
      assert s[k..] == [];
    } else {
      var acc := DecimalValue(s[..k]);
      assert s[k..][0] == s[k];
      assert s[k..][1..] == s[k + 1..];
      DecimalValueSnoc(s[..k], s[k]);
      assert s[..k] + [s[k]] == s[..k + 1];
      assert acc * 10 + DigitValue(s[k]) == DecimalValue(s[..k + 1]);
      DecimalValuePrefix(s, k + 1);
      if DecimalValue(s[..k + 1]) <= MaxUint64 {
        ScanDigitsFrom(s, k + 1);
      }
    }
  }

  /** ParseUint of a non-empty digit string: its value, or a range error
      exactly when the value exceeds 2^64 - 1. */
  lemma ParseUintDigits(s: string)
    requires AllDigits(s) && s != []
    ensures ParseUint(s) == if DecimalValue(s) <= MaxUint64 then Parsed(DecimalValue(s)) else RangeError
  {
    assert s[..0] == [];
    assert s[0..] == s;
    ScanDigitsFrom(s, 0);
  }

  /** The digit loop, resumed after a digit prefix that has not overflowed,
      stops with a syntax error at the first non-digit. */
  lemma {:induction false} ScanDigitsStopsAtNonDigit(s: string, j: nat, k: nat)
    requires j <= k < |s| && !IsDigit(s[k]) && AllDigits(s[..k])
    requires DecimalValue(s[..k]) <= MaxUint64
    ensures AllDigits(s[..j])
    ensures ScanDigits(s[j..], DecimalValue(s[..j])) == SyntaxError
    decreases k - j
  {
    assert s[..k][..j] == s[..j];
    DecimalValuePrefix(s[..k], j);
    assert s[j..][0] == s[j];
    if j < k {
      assert s[..k][j] == s[j];
      DecimalValueSnoc(s[..j], s[j]);
      assert s[..j] + [s[j]] == s[..j + 1];
      assert s[..k][..j + 1] == s[..j + 1];
      DecimalValuePrefix(s[..k], j + 1);
      assert s[j..][1..] == s[j + 1..];
      ScanDigitsStopsAtNonDigit(s, j + 1, k);
    }
  }

  /** ParseUint reports a syntax error for the empty string and for a string
      whose first non-digit is reached before the digits before it overflow. */
  lemma ParseUintSyntaxError(s: string, k: nat)
    requires k <= |s|
    requires k < |s| ==> !IsDigit(s[k])
    requires s == [] || k < |s|
    requires AllDigits(s[..k]) && DecimalValue(s[..k]) <= MaxUint64
    ensures ParseUint(s) == SyntaxError
  {
    if s != [] {
      assert s[..0] == [] && s[0..] == s;
      ScanDigitsStopsAtNonDigit(s, 0, k);
    }
  }

  /** ParseInt of an optional sign followed by a non-empty digit string: the
      signed value, clamped to the int64 range. */
  lemma ParseIntDecimal(sign: string, digits: string)
    requires sign == "" || sign == "+" || sign == "-"
    requires AllDigits(digits) && digits != []
    ensures ParseInt(sign + digits) ==
            ClampInt64(if sign == "-" then -(DecimalValue(digits) as int) else DecimalValue(digits))
  {
    var s := sign + digits;
    if sign == "" {
      assert s == digits;
      assert !(s[0] == '+' || s[0] == '-');
    } else {
      assert s[1..] == digits;
    }
    ParseUintDigits(digits);
  }

  /** ParseInt gives 0 for the empty string, for a lone sign, and whenever a
      non-digit follows the optional sign before the digits overflow. */
  lemma ParseIntSyntaxError(sign: string, body: string, k: nat)
    requires sign == "" || sign == "+" || sign == "-"
    requires sign == "" ==> body == [] || (body[0] != '+' && body[0] != '-')
    requires k <= |body|
    requires k < |body| ==> !IsDigit(body[k])
    requires body == [] || k < |body|
    requires AllDigits(body[..k]) && DecimalValue(body[..k]) <= MaxUint64
    ensures ParseInt(sign + body) == 0
  {
    var s := sign + body;
    if s != [] {
      if sign == "" {
        assert s == body;
      } else {
        assert s[1..] == body;
      }
      ParseUintSyntaxError(body, k);
    }
  }

  // ---------------------------------------------------------------------
  // Decimal printing of an unsigned value (fmt's %d, strconv.FormatUint)
  // ---------------------------------------------------------------------

  /** Canonical decimal text: non-empty digits with no leading zero unless
      the whole text is "0". */
  predicate Canonical(s: string)
  {
    s != [] && AllDigits(s) && (|s| == 1 || s[0] != '0')
  }

  /** The decimal text of n, as `%d` prints an unsigned integer; it is
      canonical and denotes n. */
  function FormatUint(n: nat): (s: string)
    ensures Canonical(s)
    ensures DecimalValue(s) == n
    decreases n
  {
    if n < 10 then [DigitChar(n)]
    else
      var p := FormatUint(n / 10);
      DecimalValueSnoc(p, DigitChar(n % 10));
      p + [DigitChar(n % 10)]
  }

  /** Printing is also left inverse to reading on canonical text: the
      canonical text of a value is unique. */
  lemma {:induction false} FormatUintOfCanonical(s: string)
    requires Canonical(s)
    ensures FormatUint(DecimalValue(s)) == s
    decreases |s|
  {
    if |s| == 1 {
      assert s[..0] == [];
      assert DecimalValue(s) == DigitValue(s[0]);
      assert DigitChar(DigitValue(s[0])) == s[0];
    } else {
      var p := s[..|s| - 1];
      assert p[0] == s[0];
      assert Canonical(p);
      DecimalValuePrefix(p, 1);
      assert p[..1] == [p[0]];
      assert DecimalValue(p[..1]) == DigitValue(p[0]) by { assert p[..1][..0] == []; }
      assert DecimalValue(p) >= 1;
      var n := DecimalValue(s);
      var d := DigitValue(s[|s| - 1]);
      assert n == DecimalValue(p) * 10 + d;
      assert n / 10 == DecimalValue(p) && n % 10 == d;
      FormatUintOfCanonical(p);
      assert DigitChar(d) == s[|s| - 1];
      assert p + [s[|s| - 1]] == s;
    }
  }

  /** `%d` of a uint32 read back by ParseInt gives the value itself. */
  lemma ParseIntFormatUint(n: nat)
    requires n <= MaxInt64
    ensures ParseInt(FormatUint(n)) == n
  {
    ParseIntDecimal("", FormatUint(n));
    assert "" + FormatUint(n) == FormatUint(n);
  }

  // ---------------------------------------------------------------------
  // strings.TrimPrefix, HasSuffix, TrimSuffix
  // ---------------------------------------------------------------------

  predicate HasPrefix(s: string, prefix: string)
  {
    |prefix| <= |s| && s[..|prefix|] == prefix
  }

  predicate HasSuffix(s: string, suffix: string)
  {
    |suffix| <= |s| && s[|s| - |suffix|..] == suffix
  }

  /** `strings.TrimPrefix`: removes one leading copy of prefix, if present. */
  function TrimPrefix(s: string, prefix: string): (r: string)
    ensures HasPrefix(s, prefix) ==> s == prefix + r
    ensures !HasPrefix(s, prefix) ==> r == s
  {
    if HasPrefix(s, prefix) then s[|prefix|..] else s
  }

  /** `strings.TrimSuffix`: removes one trailing copy of suffix, if present. */
  function TrimSuffix(s: string, suffix: string): (r: string)
    ensures HasSuffix(s, suffix) ==> s == r + suffix
    ensures !HasSuffix(s, suffix) ==> r == s
  {
    if HasSuffix(s, suffix) then s[..|s| - |suffix|] else s
  }

  // ---------------------------------------------------------------------
  // strings.Split with a one-character separator, and its inverse Join
  // ---------------------------------------------------------------------

  /** `strings.Index` for one character: the first position of c, or |s|. */
  function IndexOf(s: string, c: char): (i: nat)
    ensures i <= |s|
    ensures forall j :: 0 <= j < i ==> s[j] != c
    ensures i < |s| ==> s[i] == c
    decreases |s|
  {
    if s == [] then 0
    else if s[0] == c then 0
    else 1 + IndexOf(s[1..], c)
  }

  /** `strings.Split(s, sep)`: the pieces between the separators; a string
      with n separators gives n + 1 pieces, so "" gives [""]. */
  function Split(s: string, sep: char): (r: seq<string>)
    ensures |r| >= 1
    decreases |s|
  {
    var i := IndexOf(s, sep);
    if i == |s| then [s] else [s[..i]] + Split(s[i + 1..], sep)
  }

  /** `strings.Join(parts, sep)`. */
  function Join(parts: seq<string>, sep: char): string
    requires |parts| >= 1
    decreases |parts|
  {
    if |parts| == 1 then parts[0] else parts[0] + [sep] + Join(parts[1..], sep)
  }

  /** Joining the pieces of a split restores the string. */
  lemma {:induction false} JoinSplit(s: string, sep: char)
    ensures Join(Split(s, sep), sep) == s
    decreases |s|
  {
    var i := IndexOf(s, sep);
    var r := Split(s, sep);
    if i < |s| {
      var tail := Split(s[i + 1..], sep);
      assert r == [s[..i]] + tail;
      assert r[0] == s[..i] && r[1..] == tail;
      JoinSplit(s[i + 1..], sep);
      assert Join(r, sep) == s[..i] + [sep] + Join(tail, sep);
      assert s == s[..i] + [sep] + s[i + 1..];
    } else {
      assert r == [s];
    }
  }

  /** Splitting a join of separator-free pieces gives back the pieces. */
  lemma {:induction false} SplitJoin(parts: seq<string>, sep: char)
    requires |parts| >= 1
    requires forall k :: 0 <= k < |parts| ==> sep !in parts[k]
    ensures Split(Join(parts, sep), sep) == parts
    decreases |parts|
  {
    var p := parts[0];
    assert IndexOf(p, sep) == |p|;
    if |parts| > 1 {
      var rest := Join(parts[1..], sep);
      var s := p + [sep] + rest;
      IndexOfAfterFree(p, sep, rest);
      assert s[|p| + 1..] == rest;
      assert s[..|p|] == p;
      SplitJoin(parts[1..], sep);
      assert [p] + parts[1..] == parts;
    }
  }

  lemma {:induction false} IndexOfAfterFree(p: string, sep: char, rest: string)
    requires sep !in p
    ensures IndexOf(p + [sep] + rest, sep) == |p|
    decreases |p|
  {
    var s := p + [sep] + rest;
    if p != [] {
      assert s[0] == p[0];
      assert p[0] in p;
      assert s[1..] == p[1..] + [sep] + rest;
      assert forall c :: c in p[1..] ==> c in p;
      IndexOfAfterFree(p[1..], sep, rest);
    }
  }

  /** No digit is a path separator or a quote. */
  lemma DigitsHaveNoMarks(s: string)
    requires AllDigits(s)
    ensures '/' !in s && '\'' !in s
  {
    assert forall i :: 0 <= i < |s| ==> s[i] != '/' && s[i] != '\'';
  }
}
