/** Path segments on the wire: `url.PathEscape`, the decoding that `net/http` applies to a
    request path, and the removal of dot segments by `URL.ResolveReference`
    (sections 2.1 and 5.2.4 of RFC 3986). */
module Escaping {
  import opened Text

  /** The bytes `url.PathEscape` leaves alone. */
  predicate Unescaped(c: char) {
    || 'a' <= c <= 'z' || 'A' <= c <= 'Z' || '0' <= c <= '9'
    || c == '-' || c == '_' || c == '.' || c == '~'
    || c == '$' || c == '&' || c == '+' || c == '=' || c == ':' || c == '@'
  }

  function HexChar(d: nat): (c: char)
    requires d < 16
    ensures HexValue(c) == Some(d)
    ensures c != '/' && c != '%' && c != '.'
  {
    if d < 10 then ('0' as int + d) as char else ('A' as int + (d - 10)) as char
  }

  function HexValue(c: char): Option<nat> {
    if '0' <= c <= '9' then Some(c as int - '0' as int)
    else if 'a' <= c <= 'f' then Some(c as int - 'a' as int + 10)
    else if 'A' <= c <= 'F' then Some(c as int - 'A' as int + 10)
    else None
  }

  function EscapeByte(c: char): (s: string)
    requires c as int < 256
    ensures |s| >= 1 && '/' !in s && (c != '.' ==> '.' !in s)
  {
    if Unescaped(c) then [c]
    else ['%', HexChar(c as int / 16), HexChar(c as int % 16)]
  }

  /** `url.PathEscape`. */
  function Escape(s: string): (e: string)
    requires IsByteString(s)
    ensures '/' !in e && |e| >= |s|
  {
    if s == [] then "" else EscapeByte(s[0]) + Escape(s[1..])
  }

  /** Percent-decoding of a request path; a malformed escape makes the request invalid. */
  function Unescape(s: string): Option<string> {
    if s == [] then Some("")
    else if s[0] != '%' then
      var rest := Unescape(s[1..]);
      if rest.Some? then Some([s[0]] + rest.value) else None
    else if |s| < 3 || HexValue(s[1]).None? || HexValue(s[2]).None? then None
    else
      var rest := Unescape(s[3..]);
      if rest.Some?
      then Some([(16 * HexValue(s[1]).value + HexValue(s[2]).value) as char] + rest.value)
      else None
  }

  lemma {:induction false} UnescapePlain(plain: string, rest: string)
    requires '%' !in plain
    ensures Unescape(plain + rest)
         == if Unescape(rest).Some? then Some(plain + Unescape(rest).value) else None
  {
    if plain == [] {
      assert plain + rest == rest;
      if Unescape(rest).Some? {
        assert plain + Unescape(rest).value == Unescape(rest).value;
      }
    } else {
      UnescapePlain(plain[1..], rest);
      assert (plain + rest)[1..] == plain[1..] + rest;
      if Unescape(rest).Some? {
        assert [plain[0]] + (plain[1..] + Unescape(rest).value) == plain + Unescape(rest).value;
      }
    }
  }

  lemma UnescapeByte(c: char, rest: string)
    requires c as int < 256
    ensures Unescape(EscapeByte(c) + rest)
         == if Unescape(rest).Some? then Some([c] + Unescape(rest).value) else None
  {
    var s := EscapeByte(c) + rest;
    if Unescaped(c) {
      assert s[1..] == rest;
    } else {
      assert s[0] == '%' && s[3..] == rest;
      assert (16 * (c as int / 16) + c as int % 16) as char == c;
    }
  }

  /** Decoding undoes escaping, whatever follows. */
  lemma {:induction false} UnescapeEscape(s: string, rest: string)
    requires IsByteString(s)
    ensures Unescape(Escape(s) + rest)
         == if Unescape(rest).Some? then Some(s + Unescape(rest).value) else None
  {
    if s == [] {
      assert Escape(s) + rest == rest;
      if Unescape(rest).Some? {
        assert s + Unescape(rest).value == Unescape(rest).value;
      }
    } else {
      UnescapeEscape(s[1..], rest);
      UnescapeFirst(s[0], Escape(s[1..]), rest);
      if Unescape(rest).Some? {
        FirstBack(s, Unescape(rest).value);
      }
    }
  }

  lemma FirstBack(s: string, rest: string)
    requires s != []
    ensures [s[0]] + (s[1..] + rest) == s + rest
  {
  }

  lemma UnescapeFirst(c: char, escaped: string, rest: string)
    requires c as int < 256
    ensures Unescape(EscapeByte(c) + escaped + rest)
         == if Unescape(escaped + rest).Some? then Some([c] + Unescape(escaped + rest).value) else None
  {
    UnescapeByte(c, escaped + rest);
    assert EscapeByte(c) + escaped + rest == EscapeByte(c) + (escaped + rest);
  }

  lemma EscapeInjective(a: string, b: string)
    requires IsByteString(a) && IsByteString(b)
    requires Escape(a) == Escape(b)
    ensures a == b
  {
    UnescapeEscape(a, "");
    UnescapeEscape(b, "");
    assert a + "" == a && b + "" == b;
  }

  // ---------------------------------------------------------------- dot segments

  predicate IsDotSegment(segment: string) {
    segment == "." || segment == ".."
  }

  /** Escaping neither makes nor hides a dot segment. */
  lemma EscapeDotSegment(s: string)
    requires IsByteString(s)
    ensures IsDotSegment(Escape(s)) <==> IsDotSegment(s)
    ensures IsDotSegment(s) ==> Escape(s) == s
    ensures Escape(s) == "" <==> s == ""
  {
    assert Escape(".") == EscapeByte('.') + Escape("");
    assert Escape("..") == EscapeByte('.') + Escape(".");
    if Escape(s) == "." {
      EscapeInjective(s, ".");
    }
    if Escape(s) == ".." {
      EscapeInjective(s, "..");
    }
  }

  /** The segments kept so far, after reading all of `segments`: `.` is skipped and `..`
      removes the last kept segment. */
  function Keep(kept: seq<string>, segments: seq<string>): seq<string>
    decreases |segments|
  {
    if segments == [] then kept
    else if segments[0] == "." then Keep(kept, segments[1..])
    else if segments[0] == ".." then
      Keep(if kept == [] then [] else kept[..|kept| - 1], segments[1..])
    else Keep(kept + [segments[0]], segments[1..])
  }

  /** A final dot segment leaves a trailing slash. */
  function Tail(segments: seq<string>): string {
    if segments != [] && IsDotSegment(segments[|segments| - 1]) && Keep([], segments) != [] then "/" else ""
  }

  /** The path that is sent for a reference made of `segments`. */
  function Resolve(segments: seq<string>): string {
    "/" + (Join(Keep([], segments), '/') + Tail(segments))
  }

  lemma {:induction false} KeepAll(kept: seq<string>, segments: seq<string>)
    requires forall i | 0 <= i < |segments| :: !IsDotSegment(segments[i])
    ensures Keep(kept, segments) == kept + segments
    decreases |segments|
  {
    if segments != [] {
      KeepAll(kept + [segments[0]], segments[1..]);
      assert kept + [segments[0]] + segments[1..] == kept + segments;
    }
  }

  lemma ResolveWithoutDots(segments: seq<string>)
    requires forall i | 0 <= i < |segments| :: !IsDotSegment(segments[i])
    ensures Resolve(segments) == "/" + Join(segments, '/')
  {
    KeepAll([], segments);
    assert [] + segments == segments;
    assert Join(segments, '/') + "" == Join(segments, '/');
  }
}
