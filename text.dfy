/** Text primitives the trigger-configuration parsers rely on: splitting a
    stream into lines the way `std::getline` does, the whitespace trimming and
    delimiter tokenizing of the framework's string utilities, `std::string::find`,
    `std::toupper` on ASCII letters and the unsigned conversions `std::stoull`
    and `std::stoul` (64-bit `unsigned long`). */
module Text {

  datatype Option<+T> = None | Some(value: T)

  /** 2^64: every value of an `unsigned long long` is below it. */
  const U64: nat := 0x1_0000_0000_0000_0000

  /** The characters `std::isspace` accepts in the "C" locale. */
  predicate IsSpace(c: char)
  {
    c == ' ' || c == '\t' || c == '\n' || c == '\r' || c == '\U{000B}' || c == '\U{000C}'
  }

  // ---------------------------------------------------------------------------
  // Splitting and joining

  /** The pieces of `s` between occurrences of `d` (as many pieces as there are
      delimiters, plus one). */
  function Split(s: string, d: char): (r: seq<string>)
    ensures |r| >= 1
    ensures forall k :: 0 <= k < |r| ==> d !in r[k]
  {
    if s == [] then [[]]
    else
      var rest := Split(s[1..], d);
      if s[0] == d then [[]] + rest
      else [[s[0]] + rest[0]] + rest[1..]
  }

  /** Puts the pieces back together with `d` between neighbours. */
  function Join(ps: seq<string>, d: char): string
    requires |ps| >= 1
  {
    if |ps| == 1 then ps[0] else ps[0] + [d] + Join(ps[1..], d)
  }

  /** Splitting loses nothing: joining the pieces gives the text back. */
  lemma {:induction false} SplitJoin(s: string, d: char)
    ensures Join(Split(s, d), d) == s
  {
    if s != [] {
      SplitJoin(s[1..], d);
      var rest := Split(s[1..], d);
      if s[0] != d {
        if |rest| == 1 {
          assert Join(Split(s, d), d) == [s[0]] + rest[0];
        } else {
          assert Join(Split(s, d), d) == [s[0]] + rest[0] + [d] + Join(rest[1..], d);
        }
      }
    }
  }

  /** The lines `std::getline` reads from a string stream: the pieces between
      newlines, where a final newline does not open a further empty line. */
  function Lines(s: string): (r: seq<string>)
    ensures forall k :: 0 <= k < |r| ==> '\n' !in r[k]
    ensures s == [] ==> r == []
  {
    var ps := Split(s, '\n');
    if ps[|ps| - 1] == [] then ps[..|ps| - 1] else ps
  }

  // ---------------------------------------------------------------------------
  // Trimming and tokenizing

  predicate AllSpace(s: string)
  {
    forall k :: 0 <= k < |s| ==> IsSpace(s[k])
  }

  /** The number of white-space characters `s` starts with. */
  function LeadingSpaces(s: string): (n: nat)
    ensures n <= |s|
    ensures forall k :: 0 <= k < n ==> IsSpace(s[k])
    ensures n < |s| ==> !IsSpace(s[n])
  {
    if s != [] && IsSpace(s[0]) then 1 + LeadingSpaces(s[1..]) else 0
  }

  /** The position after the last character of `s` that is not white space. */
  function TrailingStart(s: string): (j: nat)
    ensures j <= |s|
    ensures forall k :: j <= k < |s| ==> IsSpace(s[k])
    ensures j > 0 ==> !IsSpace(s[j - 1])
  {
    if s != [] && IsSpace(s[|s| - 1]) then TrailingStart(s[..|s| - 1]) else |s|
  }

  /** `Str::trim`: removes leading and trailing white space. The result neither
      starts nor ends with white space and holds only characters of `s`; a text
      of white space alone trims to nothing. */
  function Trim(s: string): (r: string)
    ensures r == [] || (!IsSpace(r[0]) && !IsSpace(r[|r| - 1]))
    ensures forall k :: 0 <= k < |r| ==> r[k] in s
    ensures AllSpace(s) ==> r == []
  {
    var j := TrailingStart(s);
    var i := LeadingSpaces(s[..j]);
    assert AllSpace(s) ==> j == 0;
    s[i..j]
  }

  /** Trimming a text without surrounding white space changes nothing; so
      trimming twice is trimming once. */
  lemma TrimIdempotent(s: string)
    ensures Trim(Trim(s)) == Trim(s)
  {
    var t := Trim(s);
    assert TrailingStart(t) == |t|;
    assert t[..|t|] == t;
    assert LeadingSpaces(t) == 0;
  }

  /** The non-empty trimmed pieces, in order. */
  function NonEmptyTrimmed(ps: seq<string>, d: char): (r: seq<string>)
    requires forall k :: 0 <= k < |ps| ==> d !in ps[k]
    ensures |r| <= |ps|
    ensures forall k :: 0 <= k < |r| ==> r[k] != [] && d !in r[k] && !IsSpace(r[k][0]) && !IsSpace(r[k][|r[k]| - 1])
  {
    if ps == [] then []
    else
      var t := Trim(ps[0]);
      (if t == [] then [] else [t]) + NonEmptyTrimmed(ps[1..], d)
  }

  /** `Str::tokenize(s, d)`: split at `d`, trim every piece, skip the empty
      ones. Every token is non-empty, holds no delimiter and neither starts nor
      ends with white space. */
  function Tokenize(s: string, d: char): (r: seq<string>)
    ensures forall k :: 0 <= k < |r| ==> r[k] != [] && d !in r[k] && !IsSpace(r[k][0]) && !IsSpace(r[k][|r[k]| - 1])
  {
    NonEmptyTrimmed(Split(s, d), d)
  }

  /** A text made only of white space and delimiters has no token. */
  lemma TokenizeBlank(s: string, d: char)
    requires forall k :: 0 <= k < |s| ==> s[k] == d || IsSpace(s[k])
    ensures Tokenize(s, d) == []
  {
    SplitPiecesBlank(s, d);
    BlankPiecesTrimEmpty(Split(s, d), d);
  }

  lemma {:induction false} BlankPiecesTrimEmpty(ps: seq<string>, d: char)
    requires forall k :: 0 <= k < |ps| ==> d !in ps[k] && AllSpace(ps[k])
    ensures NonEmptyTrimmed(ps, d) == []
  {
    if ps != [] {
      BlankPiecesTrimEmpty(ps[1..], d);
    }
  }

  lemma {:induction false} SplitPiecesBlank(s: string, d: char)
    requires forall k :: 0 <= k < |s| ==> s[k] == d || IsSpace(s[k])
    ensures forall k :: 0 <= k < |Split(s, d)| ==> AllSpace(Split(s, d)[k])
  {
    if s != [] {
      SplitPiecesBlank(s[1..], d);
      var rest := Split(s[1..], d);
      if s[0] != d {
        assert AllSpace([s[0]] + rest[0]) by {
          forall k | 0 <= k < |[s[0]] + rest[0]| ensures IsSpace(([s[0]] + rest[0])[k]) {
            if k > 0 { assert ([s[0]] + rest[0])[k] == rest[0][k - 1]; }
          }
        }
        forall k | 0 <= k < |Split(s, d)| ensures AllSpace(Split(s, d)[k]) {
          if k > 0 { assert Split(s, d)[k] == rest[k]; }
        }
      } else {
        forall k | 0 <= k < |Split(s, d)| ensures AllSpace(Split(s, d)[k]) {
          if k > 0 { assert Split(s, d)[k] == rest[k - 1]; }
        }
      }
    }
  }

  // ---------------------------------------------------------------------------
  // Substring search

  predicate OccursAt(s: string, pat: string, i: nat)
  {
    i + |pat| <= |s| && s[i..i + |pat|] == pat
  }

  function FindFrom(s: string, pat: string, from: nat): (r: Option<nat>)
    requires from <= |s| + 1
    ensures r.Some? ==> from <= r.value && OccursAt(s, pat, r.value)
                        && forall i :: from <= i < r.value ==> !OccursAt(s, pat, i)
    ensures r.None? ==> forall i :: from <= i ==> !OccursAt(s, pat, i)
    decreases |s| + 1 - from
  {
    if from + |pat| > |s| then None
    else if s[from..from + |pat|] == pat then Some(from)
    else FindFrom(s, pat, from + 1)
  }

  /** `s.find(pat)`: the first position where `pat` occurs, or none. */
  function Find(s: string, pat: string): (r: Option<nat>)
    ensures r.Some? ==> OccursAt(s, pat, r.value) && forall i :: 0 <= i < r.value ==> !OccursAt(s, pat, i)
    ensures r.None? <==> forall i :: 0 <= i ==> !OccursAt(s, pat, i)
  {
    FindFrom(s, pat, 0)
  }

  /** `s.find(pat) != npos`. */
  predicate Contains(s: string, pat: string)
  {
    Find(s, pat).Some?
  }

  // ---------------------------------------------------------------------------
  // Upper-casing

  predicate IsLower(c: char)
  {
    'a' <= c <= 'z'
  }

  /** `std::toupper` in the "C" locale. */
  function ToUpper(c: char): (r: char)
    ensures !IsLower(r)
    ensures !IsLower(c) ==> r == c
    ensures IsLower(c) ==> r as int == c as int - 32
  {
    if IsLower(c) then (c as int - 32) as char else c
  }

  /** The upper-cased copy of `s`: same length, no lower-case ASCII letter left,
      every other character kept. */
  function UpperString(s: string): (r: string)
    ensures |r| == |s|
    ensures forall i :: 0 <= i < |r| ==> !IsLower(r[i]) && (!IsLower(s[i]) ==> r[i] == s[i])
  {
    if s == [] then [] else [ToUpper(s[0])] + UpperString(s[1..])
  }

  /** Upper-casing works character by character. */
  lemma {:induction false} UpperStringAt(s: string)
    ensures forall i :: 0 <= i < |s| ==> UpperString(s)[i] == ToUpper(s[i])
  {
    if s != [] {
      UpperStringAt(s[1..]);
      assert forall i :: 1 <= i < |s| ==> s[1..][i - 1] == s[i];
    }
  }

  /** Upper-casing an upper-cased string changes nothing. */
  lemma {:induction false} UpperStringIdempotent(s: string)
    ensures UpperString(UpperString(s)) == UpperString(s)
  {
    var u := UpperString(s);
    var uu := UpperString(u);
    assert forall i :: 0 <= i < |u| ==> uu[i] == u[i];
  }

  // ---------------------------------------------------------------------------
  // Unsigned integer conversion (`std::stoull`, `std::stoul`)

  /** The digit value `strtoull` gives a character; 36 for a non-digit. */
  function DigitValue(c: char): (v: nat)
    ensures v <= 36
  {
    if '0' <= c <= '9' then c as int - '0' as int
    else if 'a' <= c <= 'z' then c as int - 'a' as int + 10
    else if 'A' <= c <= 'Z' then c as int - 'A' as int + 10
    else 36
  }

  /** The length of the longest prefix of `s` made of digits of `radix`. */
  function DigitRun(s: string, radix: nat): (n: nat)
    ensures n <= |s|
    ensures forall i :: 0 <= i < n ==> DigitValue(s[i]) < radix
    ensures n < |s| ==> DigitValue(s[n]) >= radix
  {
    if s == [] || DigitValue(s[0]) >= radix then 0 else 1 + DigitRun(s[1..], radix)
  }

  /** The value of a digit string, most significant digit first. */
  function ValueOf(ds: string, radix: nat): nat
  {
    if ds == [] then 0 else ValueOf(ds[..|ds| - 1], radix) * radix + DigitValue(ds[|ds| - 1])
  }

  function SkipSpaces(s: string): (r: string)
    ensures r == [] || !IsSpace(r[0])
    ensures |r| <= |s|
  {
    if s != [] && IsSpace(s[0]) then SkipSpaces(s[1..]) else s
  }

  /** The radix and the digit text `strtoull` uses for base `base` (10, or 0 for
      the C prefix convention: "0x" hexadecimal, a leading "0" octal). */
  function Radix(u: string, base: nat): (r: (nat, string))
    requires base == 0 || base == 10
    ensures r.0 in {8, 10, 16}
    ensures base == 10 ==> r == (10, u)
  {
    if base == 10 then (10, u)
    else if |u| >= 3 && u[0] == '0' && (u[1] == 'x' || u[1] == 'X') && DigitValue(u[2]) < 16 then (16, u[2..])
    else if |u| >= 1 && u[0] == '0' then (8, u)
    else (10, u)
  }

  /** `std::stoull(s, nullptr, base)`: skips leading white space, takes an
      optional sign and the longest run of digits; no digit throws
      `invalid_argument` and a magnitude of 2^64 or more throws `out_of_range`
      (both `None` here); a minus sign negates modulo 2^64. */
  function ParseUnsigned(s: string, base: nat): (r: Option<nat>)
    requires base == 0 || base == 10
    ensures r.Some? ==> r.value < U64
  {
    Signed(SkipSpaces(s), base)
  }

  /** The value after the leading blanks: an optional sign, then the
      magnitude; a minus sign negates modulo 2^64. */
  function Signed(t: string, base: nat): (r: Option<nat>)
    requires base == 0 || base == 10
    ensures r.Some? ==> r.value < U64
  {
    var neg := t != [] && t[0] == '-';
    var u := if t != [] && (t[0] == '-' || t[0] == '+') then t[1..] else t;
    match Magnitude(u, base)
    case None => None
    case Some(v) => if neg then Some((U64 - v) % U64) else Some(v)
  }

  /** The value of the longest run of digits after the radix prefix; none
      when there is no digit or the value does not fit in 64 bits. */
  function Magnitude(u: string, base: nat): (r: Option<nat>)
    requires base == 0 || base == 10
    ensures r.Some? ==> r.value < U64
  {
    var (radix, body) := Radix(u, base);
    var n := DigitRun(body, radix);
    if n == 0 then None
    else
      var v := ValueOf(body[..n], radix);
      if v >= U64 then None else Some(v)
  }

  /** A token that starts with something other than white space, a sign or a
      decimal digit is not a number: `std::stoull` throws on it. */
  lemma ParseRejectsNonNumeric(s: string, base: nat)
    requires base == 0 || base == 10
    requires s != [] && !IsSpace(s[0]) && s[0] != '+' && s[0] != '-' && !('0' <= s[0] <= '9')
    ensures ParseUnsigned(s, base) == None
  {
    assert SkipSpaces(s) == s;
    if base == 0 {
      assert Radix(s, 0) == (10, s);
    }
    assert DigitValue(s[0]) >= 10;
    assert Magnitude(s, base) == None;
  }

  /** The decimal spelling of `n`, most significant digit first. */
  function Decimal(n: nat): (r: string)
    ensures r != [] && forall i :: 0 <= i < |r| ==> '0' <= r[i] <= '9'
  {
    if n < 10 then [('0' as int + n) as char]
    else Decimal(n / 10) + [('0' as int + n % 10) as char]
  }

  lemma {:induction false} DecimalValue(n: nat)
    ensures ValueOf(Decimal(n), 10) == n
    ensures DigitRun(Decimal(n), 10) == |Decimal(n)|
  {
    var d := Decimal(n);
    if n >= 10 {
      DecimalValue(n / 10);
      assert d[..|d| - 1] == Decimal(n / 10);
    }
    DigitRunAll(d, 10);
  }

  lemma {:induction false} DigitRunAll(s: string, radix: nat)
    requires forall i :: 0 <= i < |s| ==> DigitValue(s[i]) < radix
    ensures DigitRun(s, radix) == |s|
  {
    if s != [] { DigitRunAll(s[1..], radix); }
  }

  /** Round trip: `std::stoull` reads back the decimal spelling of every
      64-bit value. */
  lemma ParseDecimal(n: nat)
    requires n < U64
    ensures ParseUnsigned(Decimal(n), 10) == Some(n)
  {
    var d := Decimal(n);
    DecimalValue(n);
    assert d[..|d|] == d;
    ParseDigits(d);
  }

  /** A string of decimal digits alone parses to its value. */
  lemma ParseDigits(d: string)
    requires d != [] && forall i :: 0 <= i < |d| ==> '0' <= d[i] <= '9'
    requires DigitRun(d, 10) == |d| && ValueOf(d[..|d|], 10) < U64
    ensures ParseUnsigned(d, 10) == Some(ValueOf(d[..|d|], 10))
  {
    assert !IsSpace(d[0]) && SkipSpaces(d) == d;
    assert d[0] != '-' && d[0] != '+';
    assert Magnitude(d, 10) == Some(ValueOf(d[..|d|], 10));
  }
}
