/** Go strings and the string functions of Go's standard library that the code calls.
    A Go string is a sequence of bytes: every `char` below stands for one byte, so
    `|s|` is Go's `len(s)` and character order is Go's byte-wise string order. */
module Text {

  datatype Option<+T> = None | Some(value: T)

  predicate IsByteString(s: string) {
    forall i | 0 <= i < |s| :: s[i] as int < 256
  }

  // ---------------------------------------------------------------- affixes

  predicate HasPrefix(s: string, prefix: string) {
    prefix <= s
  }

  predicate HasSuffix(s: string, suffix: string) {
    |suffix| <= |s| && s[|s| - |suffix|..] == suffix
  }

  predicate OccursAt(s: string, part: string, i: int) {
    0 <= i <= |s| - |part| && s[i..i + |part|] == part
  }

  predicate Contains(s: string, part: string) {
    exists i | 0 <= i <= |s| - |part| :: OccursAt(s, part, i)
  }

  function TrimPrefix(s: string, prefix: string): string {
    if HasPrefix(s, prefix) then s[|prefix|..] else s
  }

  function TrimSuffix(s: string, suffix: string): string {
    if HasSuffix(s, suffix) then s[..|s| - |suffix|] else s
  }

  lemma AffixesOfConcat(prefix: string, middle: string, suffix: string)
    ensures HasPrefix(prefix + middle, prefix)
    ensures TrimPrefix(prefix + middle, prefix) == middle
    ensures HasSuffix(middle + suffix, suffix)
    ensures TrimSuffix(middle + suffix, suffix) == middle
  {
    assert (prefix + middle)[..|prefix|] == prefix;
    assert (middle + suffix)[|middle|..] == suffix;
  }

  // ---------------------------------------------------------------- splitting

  /** `strings.Split(s, "/")`. */
  function Split(s: string, separator: char): (parts: seq<string>)
    ensures |parts| >= 1
  {
    if s == [] then [""]
    else
      var rest := Split(s[1..], separator);
      if s[0] == separator then [""] + rest else [[s[0]] + rest[0]] + rest[1..]
  }

  function Join(parts: seq<string>, separator: char): string {
    if |parts| == 0 then ""
    else if |parts| == 1 then parts[0]
    else parts[0] + [separator] + Join(parts[1..], separator)
  }

  lemma {:induction false} SplitWord(word: string, separator: char)
    requires separator !in word
    ensures Split(word, separator) == [word]
  {
    if word != [] {
      SplitWord(word[1..], separator);
      assert [word[0]] + word[1..] == word;
    }
  }

  lemma {:induction false} SplitHead(word: string, rest: string, separator: char)
    requires separator !in word
    ensures Split(word + [separator] + rest, separator) == [word] + Split(rest, separator)
  {
    var whole := word + [separator] + rest;
    if word == [] {
      assert whole[1..] == rest;
    } else {
      SplitHead(word[1..], rest, separator);
      assert whole[1..] == word[1..] + [separator] + rest;
      assert [word[0]] + word[1..] == word;
    }
  }

  /** Splitting undoes joining when no part contains the separator. */
  lemma {:induction false} SplitJoin(parts: seq<string>, separator: char)
    requires |parts| >= 1
    requires forall i | 0 <= i < |parts| :: separator !in parts[i]
    ensures Split(Join(parts, separator), separator) == parts
  {
    if |parts| == 1 {
      SplitWord(parts[0], separator);
    } else {
      SplitJoin(parts[1..], separator);
      SplitHead(parts[0], Join(parts[1..], separator), separator);
    }
  }

  function TrimLeft(s: string, c: char): string {
    if s != [] && s[0] == c then TrimLeft(s[1..], c) else s
  }

  function TrimRight(s: string, c: char): string {
    if s != [] && s[|s| - 1] == c then TrimRight(s[..|s| - 1], c) else s
  }

  /** `strings.Trim(s, "/")`. */
  function Trim(s: string, c: char): string {
    TrimRight(TrimLeft(s, c), c)
  }

  // ---------------------------------------------------------------- order

  /** `a` comes before `b` because they agree on `n` bytes and then `a` ends or has the smaller
      byte. */
  predicate PrecedesAt(a: string, b: string, n: int) {
    0 <= n <= |a| && n < |b| && a[..n] == b[..n] && (n == |a| || a[n] < b[n])
  }

  /** Go's `<` on strings. */
  predicate Less(a: string, b: string) {
    exists n | 0 <= n <= |a| :: PrecedesAt(a, b, n)
  }

  /** The first bytes decide, and the rest only where they are equal; the empty text comes first. */
  lemma LessByBytes(a: string, b: string)
    ensures Less(a, b) <==> b != "" && (a == "" || a[0] < b[0] || (a[0] == b[0] && Less(a[1..], b[1..])))
  {
    if n :| 0 <= n <= |a| && PrecedesAt(a, b, n) {
      if n > 0 {
        assert a[0] == a[..n][0] == b[..n][0] == b[0];
        assert a[1..][..n - 1] == a[..n][1..] && b[1..][..n - 1] == b[..n][1..];
        assert PrecedesAt(a[1..], b[1..], n - 1);
      }
    }
    if b != "" {
      if a == "" || a[0] < b[0] {
        assert PrecedesAt(a, b, 0);
      } else if a[0] == b[0] && Less(a[1..], b[1..]) {
        LessTail(a, b);
      }
    }
  }

  lemma LessIrreflexive(a: string)
    ensures !Less(a, a)
  {
  }

  lemma LessTransitive(a: string, b: string, c: string)
    requires Less(a, b) && Less(b, c)
    ensures Less(a, c)
  {
    var m :| 0 <= m <= |a| && PrecedesAt(a, b, m);
    var n :| 0 <= n <= |b| && PrecedesAt(b, c, n);
    var k := if m < n then m else n;
    assert 0 <= k <= m <= |a| && k <= n <= |b| && m < |b| && n < |c|;
    forall i | 0 <= i < k ensures a[i] == c[i] {
      assert a[i] == a[..m][i] && b[i] == b[..n][i];
    }
    if m < n {
      assert b[m] == b[..n][m];
    } else if n < m {
      assert a[n] == a[..m][n];
    }
    assert PrecedesAt(a, c, k);
  }

  lemma {:induction false} LessTotal(a: string, b: string)
    ensures Less(a, b) || a == b || Less(b, a)
  {
    if a == [] || b == [] || a[0] != b[0] {
      assert PrecedesAt(a, b, 0) || PrecedesAt(b, a, 0) || a == b;
    } else {
      LessTotal(a[1..], b[1..]);
      if Less(a[1..], b[1..]) {
        LessTail(a, b);
      } else if Less(b[1..], a[1..]) {
        LessTail(b, a);
      } else {
        assert a == [a[0]] + a[1..] && b == [b[0]] + b[1..];
      }
    }
  }

  lemma LessTail(a: string, b: string)
    requires a != [] && b != [] && a[0] == b[0] && Less(a[1..], b[1..])
    ensures Less(a, b)
  {
    var n :| 0 <= n <= |a| - 1 && PrecedesAt(a[1..], b[1..], n);
    assert a[..n + 1] == [a[0]] + a[1..][..n] && b[..n + 1] == [b[0]] + b[1..][..n];
    assert PrecedesAt(a, b, n + 1);
  }

  // ---------------------------------------------------------------- decimal numbers

  predicate IsDigit(c: char) {
    '0' <= c <= '9'
  }

  predicate AllDigits(s: string) {
    forall i | 0 <= i < |s| :: IsDigit(s[i])
  }

  function DigitValue(c: char): nat
    requires IsDigit(c)
  {
    c as int - '0' as int
  }

  function DigitChar(d: nat): (c: char)
    requires d < 10
    ensures IsDigit(c) && DigitValue(c) == d
  {
    ('0' as int + d) as char
  }

  /** `strconv.Itoa` and `strconv.FormatInt(n, 10)` of a number that is not negative. */
  function Decimal(n: nat): (s: string)
    ensures |s| >= 1 && AllDigits(s)
  {
    if n < 10 then [DigitChar(n)] else Decimal(n / 10) + [DigitChar(n % 10)]
  }

  function DigitsValue(s: string): nat
    requires AllDigits(s)
  {
    if s == [] then 0 else 10 * DigitsValue(s[..|s| - 1]) + DigitValue(s[|s| - 1])
  }

  lemma {:induction false} DecimalValue(n: nat)
    ensures DigitsValue(Decimal(n)) == n
  {
    if n < 10 {
      assert Decimal(n)[..0] == [];
    } else {
      DecimalValue(n / 10);
      assert Decimal(n)[..|Decimal(n)| - 1] == Decimal(n / 10);
    }
  }

  lemma DecimalInjective(m: nat, n: nat)
    requires Decimal(m) == Decimal(n)
    ensures m == n
  {
    DecimalValue(m);
    DecimalValue(n);
  }

  const MAX_INT64: int := 0x7FFF_FFFF_FFFF_FFFF

  datatype Parsed = Number(value: int) | NotANumber

  /** `strconv.ParseInt(s, 10, 64)`: an optional sign, then digits, within int64. */
  function ParseInt(s: string): Parsed {
    var negative := s != [] && s[0] == '-';
    var digits := if s != [] && (s[0] == '-' || s[0] == '+') then s[1..] else s;
    if digits == [] || !AllDigits(digits) then NotANumber
    else
      var magnitude: int := DigitsValue(digits);
      if negative then (if magnitude <= MAX_INT64 + 1 then Number(-magnitude) else NotANumber)
      else if magnitude <= MAX_INT64 then Number(magnitude) else NotANumber
  }

  lemma ParseDecimal(n: nat)
    ensures ParseInt(Decimal(n)) == if n <= MAX_INT64 then Number(n) else NotANumber
  {
    DecimalValue(n);
    assert IsDigit(Decimal(n)[0]);
  }

  // ---------------------------------------------------------------- safe values

  /** `strings.IndexFunc(value, unicode.IsControl) >= 0` on bytes: an ASCII control, DEL,
      or the two-byte encoding C2 80 .. C2 9F of a C1 control. */
  predicate HasControl(value: string) {
    || (exists i | 0 <= i < |value| :: value[i] as int < 0x20 || value[i] as int == 0x7F)
    || (exists i | 0 <= i < |value| - 1 ::
          value[i] as int == 0xC2 && 0x80 <= value[i + 1] as int <= 0x9F)
  }

  /** Byte by byte: no ASCII control, no DEL and no two-byte C1 control. */
  predicate Plain(text: string) {
    forall i | 0 <= i < |text| ::
      && 0x20 <= text[i] as int != 0x7F
      && (text[i] as int == 0xC2 && i + 1 < |text| ==> !(0x80 <= text[i + 1] as int <= 0x9F))
  }

  lemma PlainIsUncontrolled(text: string)
    ensures Plain(text) <==> !HasControl(text)
  {
  }

  predicate SafePathValue(value: string, limit: nat) {
    value != "" && |value| <= limit && !HasControl(value)
    && '/' !in value && '\\' !in value && '?' !in value && '#' !in value
  }

  predicate BoundedText(value: string, limit: nat) {
    value != "" && |value| <= limit && !HasControl(value)
  }

  /** The full hexadecimal name of a commit. */
  predicate FullCommit(text: string) {
    |text| == 40 && forall i | 0 <= i < 40 :: IsDigit(text[i]) || 'a' <= text[i] <= 'f'
  }
}
