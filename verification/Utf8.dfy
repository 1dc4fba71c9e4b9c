/** What `encoding/json` makes of a Go string: text that is not UTF-8 (section 4 of RFC 3629) loses each
    broken byte to U+FFFD, which is three bytes long. */
module Utf8 {
  import opened Text

  predicate Between(c: char, low: int, high: int) {
    low <= c as int <= high
  }

  /** A continuation byte. */
  predicate Tail(c: char) {
    Between(c, 0x80, 0xBF)
  }

  /** The length of the well-formed sequence that a text starts with; 0 if it starts with none. */
  function Width(s: string): (n: nat)
    ensures n <= |s|
  {
    if s == [] then 0
    else if Between(s[0], 0, 0x7F) then 1
    else if |s| >= 2 && Between(s[0], 0xC2, 0xDF) && Tail(s[1]) then 2
    else if |s| >= 3 && Starts3(s[0], s[1]) && Tail(s[2]) then 3
    else if |s| >= 4 && Starts4(s[0], s[1]) && Tail(s[2]) && Tail(s[3]) then 4
    else 0
  }

  predicate Starts3(a: char, b: char) {
    || (a as int == 0xE0 && Between(b, 0xA0, 0xBF))
    || ((Between(a, 0xE1, 0xEC) || Between(a, 0xEE, 0xEF)) && Tail(b))
    || (a as int == 0xED && Between(b, 0x80, 0x9F))
  }

  predicate Starts4(a: char, b: char) {
    || (a as int == 0xF0 && Between(b, 0x90, 0xBF))
    || (Between(a, 0xF1, 0xF3) && Tail(b))
    || (a as int == 0xF4 && Between(b, 0x80, 0x8F))
  }

  /** The three bytes of U+FFFD. */
  const REPLACEMENT: string := [0xEF as char, 0xBF as char, 0xBD as char]

  /** The text after it went through JSON: every byte that starts no well-formed sequence is replaced. */
  function Coerced(s: string): string {
    if s == [] then []
    else if Width(s) == 0 then REPLACEMENT + Coerced(s[1..])
    else s[..Width(s)] + Coerced(s[Width(s)..])
  }

  /** The number of bytes that are replaced. */
  function Broken(s: string): nat {
    if s == [] then 0
    else if Width(s) == 0 then 1 + Broken(s[1..])
    else Broken(s[Width(s)..])
  }

  /** No byte is replaced. The bound variable keeps the definition folded on string literals. */
  ghost predicate IsUtf8(s: string) {
    forall text | text == s :: Broken(text) == 0
  }

  // ---------------------------------------------------------------- code points

  /** A Unicode scalar value: a code point that is no surrogate. */
  predicate Scalar(r: int) {
    0 <= r < 0xD800 || 0xE000 <= r <= 0x10FFFF
  }

  function Continuation(r: int): char {
    (0x80 + r % 64) as char
  }

  /** The encoding of a scalar value (section 3 of RFC 3629). */
  function Encoding(r: int): string
    requires Scalar(r)
  {
    if r < 0x80 then [r as char]
    else if r < 0x800 then [(0xC0 + r / 64) as char, Continuation(r)]
    else if r < 0x10000 then [(0xE0 + r / 4096) as char, Continuation(r / 64), Continuation(r)]
    else [(0xF0 + r / 262144) as char, Continuation(r / 4096), Continuation(r / 64), Continuation(r)]
  }

  lemma EncodingIsWellFormed(r: int, rest: string)
    requires Scalar(r)
    ensures Width(Encoding(r) + rest) == |Encoding(r)|
  {
  }

  lemma Digit(high: int, low: int)
    requires 0 <= low < 64
    ensures (64 * high + low) / 64 == high && (64 * high + low) % 64 == low
  {
  }

  lemma Digits(a: int, b: int, c: int, d: int)
    requires 0 <= b < 64 && 0 <= c < 64 && 0 <= d < 64
    ensures var r := 64 * (64 * (64 * a + b) + c) + d;
            && r / 262144 == a && r / 4096 == 64 * a + b && r / 4096 % 64 == b
            && r / 64 == 64 * (64 * a + b) + c && r / 64 % 64 == c && r % 64 == d
  {
    Digit(64 * (64 * a + b) + c, d);
    Digit(64 * a + b, c);
    Digit(a, b);
    var r := 64 * (64 * (64 * a + b) + c) + d;
    assert r / 4096 == r / 64 / 64;
    assert r / 262144 == r / 64 / 64 / 64;
  }

  function Payload(c: char): int {
    c as int - 0x80
  }

  lemma DecodesTwo(s: string) returns (r: int)
    requires Width(s) == 2
    ensures Scalar(r) && Encoding(r) == s[..2]
  {
    r := 64 * (s[0] as int - 0xC0) + Payload(s[1]);
    Digit(s[0] as int - 0xC0, Payload(s[1]));
  }

  lemma DecodesThree(s: string) returns (r: int)
    requires Width(s) == 3
    ensures Scalar(r) && Encoding(r) == s[..3]
  {
    var a, b, c := s[0] as int - 0xE0, Payload(s[1]), Payload(s[2]);
    r := 64 * (64 * a + b) + c;
    Digits(0, a, b, c);
    assert 0x800 <= r < 0x10000;
  }

  lemma DecodesFour(s: string) returns (r: int)
    requires Width(s) == 4
    ensures Scalar(r) && Encoding(r) == s[..4]
  {
    var a, b, c, d := s[0] as int - 0xF0, Payload(s[1]), Payload(s[2]), Payload(s[3]);
    r := 64 * (64 * (64 * a + b) + c) + d;
    Digits(a, b, c, d);
    assert 0x10000 <= r <= 0x10FFFF;
  }

  /** Whatever well-formed sequence a text starts with encodes a scalar value. */
  lemma WellFormedDecodes(s: string) returns (r: int)
    requires Width(s) > 0
    ensures Scalar(r) && Encoding(r) == s[..Width(s)]
  {
    if Width(s) == 1 {
      r := s[0] as int;
    } else if Width(s) == 2 {
      r := DecodesTwo(s);
    } else if Width(s) == 3 {
      r := DecodesThree(s);
    } else {
      r := DecodesFour(s);
    }
  }

  predicate Scalars(runes: seq<int>) {
    forall i | 0 <= i < |runes| :: Scalar(runes[i])
  }

  function EncodingOf(runes: seq<int>): string
    requires Scalars(runes)
  {
    if runes == [] then [] else Encoding(runes[0]) + EncodingOf(runes[1..])
  }

  lemma {:induction false} EncodedIsUnbroken(runes: seq<int>)
    requires Scalars(runes)
    ensures Broken(EncodingOf(runes)) == 0
  {
    if runes != [] {
      var rest := EncodingOf(runes[1..]);
      EncodedIsUnbroken(runes[1..]);
      EncodingIsWellFormed(runes[0], rest);
      assert (Encoding(runes[0]) + rest)[|Encoding(runes[0])|..] == rest;
    }
  }

  lemma {:induction false} UnbrokenDecodes(s: string) returns (runes: seq<int>)
    requires Broken(s) == 0
    ensures Scalars(runes) && EncodingOf(runes) == s
  {
    if s == [] {
      runes := [];
    } else {
      var rest := UnbrokenDecodes(s[Width(s)..]);
      var first := WellFormedDecodes(s);
      runes := [first] + rest;
      assert runes[1..] == rest && s == s[..Width(s)] + s[Width(s)..];
    }
  }

  /** UTF-8 are exactly the texts that encode scalar values one after the other. */
  lemma Utf8Exactly(s: string)
    ensures IsUtf8(s) <==> exists runes :: Scalars(runes) && EncodingOf(runes) == s
  {
    if IsUtf8(s) {
      var runes := UnbrokenDecodes(s);
    }
    if runes :| Scalars(runes) && EncodingOf(runes) == s {
      EncodedIsUnbroken(runes);
    }
  }

  // ---------------------------------------------------------------- length

  /** Each replaced byte adds two. */
  lemma {:induction false} CoercedLength(s: string)
    ensures |Coerced(s)| == |s| + 2 * Broken(s)
  {
    if s != [] {
      CoercedLength(if Width(s) == 0 then s[1..] else s[Width(s)..]);
    }
  }

  /** Exactly the texts in UTF-8 come through unchanged. */
  lemma {:induction false} UnchangedExactly(s: string)
    ensures Coerced(s) == s <==> IsUtf8(s)
  {
    CoercedLength(s);
    if IsUtf8(s) && s != [] {
      UnchangedExactly(s[Width(s)..]);
      assert s == s[..Width(s)] + s[Width(s)..];
    }
  }

  lemma {:induction false} AsciiIsUtf8(s: string)
    requires forall i | 0 <= i < |s| :: s[i] as int < 0x80
    ensures IsUtf8(s) && Coerced(s) == s
  {
    if s != [] {
      assert Width(s) == 1;
      AsciiIsUtf8(s[1..]);
    }
    UnchangedExactly(s);
  }

  /** Bytes that never occur in UTF-8 are all replaced. */
  lemma {:induction false} AllBroken(s: string)
    requires forall i | 0 <= i < |s| :: Between(s[i], 0xF5, 0xFF)
    ensures Broken(s) == |s|
  {
    if s != [] {
      assert Width(s) == 0;
      AllBroken(s[1..]);
    }
  }

  // ---------------------------------------------------------------- what comes out

  lemma WidthOfPrefix(s: string, rest: string)
    requires Width(s) > 0
    ensures Width(s[..Width(s)] + rest) == Width(s)
  {
    var n := Width(s);
    assert forall i | 0 <= i < n :: (s[..n] + rest)[i] == s[i];
  }

  lemma PrefixDropped(prefix: string, rest: string)
    ensures (prefix + rest)[|prefix|..] == rest && (prefix + rest)[..|prefix|] == prefix
  {
  }

  /** What comes out is UTF-8, so it goes through JSON again as it is. */
  lemma {:induction false} CoercedIsUtf8(s: string)
    ensures IsUtf8(Coerced(s))
  {
    if s != [] {
      var n := Width(s);
      var head := if n == 0 then REPLACEMENT else s[..n];
      var rest := Coerced(if n == 0 then s[1..] else s[n..]);
      CoercedIsUtf8(if n == 0 then s[1..] else s[n..]);
      if n == 0 {
        assert Width(REPLACEMENT) == 3 && REPLACEMENT[..3] == REPLACEMENT;
        WidthOfPrefix(REPLACEMENT, rest);
      } else {
        WidthOfPrefix(s, rest);
      }
      PrefixDropped(head, rest);
      assert Coerced(s) == head + rest;
    }
  }

  lemma {:induction false} CoercedIsBytes(s: string)
    ensures IsByteString(Coerced(s))
  {
    if s != [] {
      var n := Width(s);
      CoercedIsBytes(if n == 0 then s[1..] else s[n..]);
      assert n > 0 ==> forall i | 0 <= i < n :: s[i] as int < 256;
    }
  }

  /** ASCII bytes are neither lost nor added. */
  lemma {:induction false} CoercedAscii(s: string, c: char)
    requires c as int < 0x80
    ensures c in Coerced(s) <==> c in s
  {
    if s != [] {
      var n := Width(s);
      var tail := if n == 0 then s[1..] else s[n..];
      CoercedAscii(tail, c);
      if n == 0 {
        assert s == [s[0]] + tail && c !in REPLACEMENT && s[0] != c;
      } else {
        assert s == s[..n] + tail;
      }
    }
  }

  // ---------------------------------------------------------------- control characters

  predicate ControlAt(s: string, i: nat)
    requires i < |s|
  {
    || s[i] as int < 0x20 || s[i] as int == 0x7F
    || (i + 1 < |s| && s[i] as int == 0xC2 && 0x80 <= s[i + 1] as int <= 0x9F)
  }

  lemma ControlSomewhere(s: string)
    ensures HasControl(s) <==> exists i | 0 <= i < |s| :: ControlAt(s, i)
  {
    if i :| 0 <= i < |s| && ControlAt(s, i) {
      assert HasControl(s);
    }
    if HasControl(s) {
      var i :| 0 <= i < |s| && (s[i] as int < 0x20 || s[i] as int == 0x7F
               || (i < |s| - 1 && s[i] as int == 0xC2 && 0x80 <= s[i + 1] as int <= 0x9F));
      assert ControlAt(s, i);
    }
  }

  /** No control character crosses a seam after a byte other than C2. */
  lemma ControlOfConcat(a: string, b: string)
    requires a != [] && a[|a| - 1] as int != 0xC2
    ensures HasControl(a + b) <==> HasControl(a) || HasControl(b)
  {
    ControlSomewhere(a);
    ControlSomewhere(b);
    ControlSomewhere(a + b);
    forall i | 0 <= i < |a| ensures ControlAt(a + b, i) <==> ControlAt(a, i) {
    }
    forall i | 0 <= i < |b| ensures ControlAt(a + b, |a| + i) <==> ControlAt(b, i) {
    }
    if i :| 0 <= i < |a + b| && ControlAt(a + b, i) {
      assert i >= |a| ==> ControlAt(b, i - |a|);
    }
  }

  /** A broken byte is no part of a control character. */
  lemma BrokenIsNoControl(s: string)
    requires s != [] && Width(s) == 0
    ensures HasControl(s) <==> HasControl(s[1..])
  {
    ControlSomewhere(s);
    ControlSomewhere(s[1..]);
    assert !ControlAt(s, 0);
    forall i | 1 <= i < |s| ensures ControlAt(s, i) <==> ControlAt(s[1..], i - 1) {
    }
    if i :| 0 <= i < |s| && ControlAt(s, i) {
      assert ControlAt(s[1..], i - 1);
    }
    if i :| 0 <= i < |s[1..]| && ControlAt(s[1..], i) {
      assert ControlAt(s, i + 1);
    }
  }

  /** Control characters are neither lost nor added. */
  lemma {:induction false} CoercedControl(s: string)
    ensures HasControl(Coerced(s)) <==> HasControl(s)
  {
    if s != [] {
      var n := Width(s);
      if n == 0 {
        CoercedControl(s[1..]);
        BrokenIsNoControl(s);
        ControlOfConcat(REPLACEMENT, Coerced(s[1..]));
        assert !HasControl(REPLACEMENT);
      } else {
        CoercedControl(s[n..]);
        ControlOfConcat(s[..n], Coerced(s[n..]));
        ControlOfConcat(s[..n], s[n..]);
        assert s == s[..n] + s[n..];
      }
    }
  }

  // ---------------------------------------------------------------- bounds

  /** The text is within a bound after it went through JSON. */
  predicate Fits(s: string, limit: nat) {
    |s| + 2 * Broken(s) <= limit
  }

  lemma BoundedWhenSent(s: string, limit: nat)
    requires BoundedText(s, limit)
    ensures BoundedText(Coerced(s), limit) <==> Fits(s, limit)
  {
    CoercedLength(s);
    CoercedControl(s);
  }

  lemma SafeWhenSent(s: string, limit: nat)
    requires SafePathValue(s, limit)
    ensures SafePathValue(Coerced(s), limit) <==> Fits(s, limit)
  {
    CoercedLength(s);
    CoercedControl(s);
    CoercedAscii(s, '/');
    CoercedAscii(s, '\\');
    CoercedAscii(s, '?');
    CoercedAscii(s, '#');
  }
}
