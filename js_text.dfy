/**
 * The JavaScript string built-ins the application calls: `trim`, `toLowerCase`, `includes`,
 * `substring(0, n)`, `split` on a one-character separator, `String(n)` for an integer and
 * `encodeURIComponent`. A string is a sequence of Unicode scalar values, so positions count
 * scalar values where JavaScript counts UTF-16 code units.
 */
module JsText {

  import opened Wrappers

  /** JavaScript truthiness of a string that may be `undefined`: absent and `""` are falsy. */
  predicate StringTruthy(s: Option<string>)
  {
    s.Some? && s.value != []
  }

  /** JavaScript truthiness of an integer that may be `undefined`: absent and `0` are falsy. */
  predicate NumberTruthy(n: Option<int>)
  {
    n.Some? && n.value != 0
  }

  // ----- trim -----

  /** The WhiteSpace and LineTerminator code points of ECMA-262 (sections 12.2 and 12.3): what `trim` strips. */
  predicate IsJsWhitespace(c: char)
  {
    || c == '\t' || c == '\U{000B}' || c == '\U{000C}' || c == ' ' || c == '\U{00A0}' || c == '\U{FEFF}'
    || c == '\U{1680}' || ('\U{2000}' <= c <= '\U{200A}') || c == '\U{202F}' || c == '\U{205F}'
    || c == '\U{3000}' || c == '\n' || c == '\r' || c == '\U{2028}' || c == '\U{2029}'
  }

  predicate AllWhitespace(s: string)
  {
    forall i :: 0 <= i < |s| ==> IsJsWhitespace(s[i])
  }

  /** `s.trimStart()`: the suffix left after dropping the leading whitespace. */
  function TrimStart(s: string): (r: string)
    ensures |r| <= |s| && r == s[|s| - |r|..]
    ensures AllWhitespace(s[..|s| - |r|])
    ensures r != [] ==> !IsJsWhitespace(r[0])
  {
    if s != [] && IsJsWhitespace(s[0]) then
      var r := TrimStart(s[1..]);
      assert s[..|s| - |r|] == [s[0]] + s[1..][..|s| - 1 - |r|];
      r
    else
      s
  }

  /** `s.trimEnd()`: the prefix left after dropping the trailing whitespace. */
  function TrimEnd(s: string): (r: string)
    ensures |r| <= |s| && r == s[..|r|]
    ensures AllWhitespace(s[|r|..])
    ensures r != [] ==> !IsJsWhitespace(r[|r| - 1])
  {
    if s != [] && IsJsWhitespace(s[|s| - 1]) then
      var r := TrimEnd(s[..|s| - 1]);
      assert s[|r|..] == s[..|s| - 1][|r|..] + [s[|s| - 1]];
      r
    else
      s
  }

  /** `s.trim()`. */
  function Trim(s: string): string
  {
    TrimEnd(TrimStart(s))
  }

  /** A string trims to the empty string exactly when every character of it is whitespace. */
  lemma TrimEmptyIffAllWhitespace(s: string)
    ensures Trim(s) == [] <==> AllWhitespace(s)
  {
    var a := TrimStart(s);
    if a == [] {
      assert s[..|s|] == s;
    } else {
      assert a[0] == s[|s| - |a|];
      assert a[0..] == a;
    }
  }

  // ----- toLowerCase, includes, substring -----

  /** `toLowerCase` on one character, for the ASCII letters. */
  function LowerChar(c: char): char
  {
    if 'A' <= c <= 'Z' then (c as int + 32) as char else c
  }

  /** `s.toLowerCase()` restricted to ASCII: every upper-case ASCII letter is lowered, nothing else moves. */
  function ToLower(s: string): (r: string)
    ensures |r| == |s|
    ensures forall i :: 0 <= i < |s| ==> r[i] == LowerChar(s[i])
  {
    if s == [] then [] else [LowerChar(s[0])] + ToLower(s[1..])
  }

  /** Lowering twice is lowering once. */
  lemma ToLowerIdempotent(s: string)
    ensures ToLower(ToLower(s)) == ToLower(s)
  {
    assert forall i :: 0 <= i < |s| ==> LowerChar(LowerChar(s[i])) == LowerChar(s[i]);
  }

  /** `s.includes(sub)`: `sub` occurs in `s` at some position. */
  predicate Includes(s: string, sub: string)
    decreases |s|
  {
    sub <= s || (s != [] && Includes(s[1..], sub))
  }

  /** An occurrence of `sub` at any position of `s` makes `Includes` hold. */
  lemma {:induction false} OccurrenceIncluded(s: string, sub: string, i: nat)
    requires i <= |s| && sub <= s[i..]
    ensures Includes(s, sub)
  {
    if i > 0 {
      assert s[1..][i - 1..] == s[i..];
      OccurrenceIncluded(s[1..], sub, i - 1);
    }
  }

  /** When `Includes` holds, `sub` starts at some position of `s`. */
  lemma {:induction false} IncludedOccurs(s: string, sub: string)
    requires Includes(s, sub)
    ensures exists i :: 0 <= i <= |s| && sub <= s[i..]
  {
    if sub <= s {
      assert s[0..] == s;
    } else {
      IncludedOccurs(s[1..], sub);
      var i :| 0 <= i <= |s[1..]| && sub <= s[1..][i..];
      assert s[1..][i..] == s[i + 1..];
    }
  }

  /** `s.substring(0, n)`: the first `n` characters, or all of `s` when it is shorter. */
  function Prefix(s: string, n: nat): (r: string)
    ensures |r| <= n && r <= s
    ensures |r| == if |s| <= n then |s| else n
    ensures |s| <= n ==> r == s
  {
    if |s| <= n then s else s[..n]
  }

  // ----- split -----

  /** `s.split(sep)` for a one-character separator: the runs of `s` between occurrences of `sep`. */
  function Split(s: string, sep: char): (r: seq<string>)
    ensures |r| >= 1
    ensures forall k :: 0 <= k < |r| ==> sep !in r[k]
  {
    if s == [] then
      [[]]
    else
      var rest := Split(s[1..], sep);
      if s[0] == sep then [[]] + rest else [[s[0]] + rest[0]] + rest[1..]
  }

  /** `pieces.join(sep)`. */
  function Join(pieces: seq<string>, sep: char): string
    requires |pieces| >= 1
  {
    if |pieces| == 1 then pieces[0] else pieces[0] + [sep] + Join(pieces[1..], sep)
  }

  /** `s.split(sep)[k]`: the `k`-th field, or `undefined` past the last one. */
  function Field(s: string, sep: char, k: nat): Option<string>
  {
    var pieces := Split(s, sep);
    if k < |pieces| then Some(pieces[k]) else None
  }

  /** Joining the fields of `s` with the separator gives back `s`. */
  lemma {:induction false} JoinSplit(s: string, sep: char)
    ensures Join(Split(s, sep), sep) == s
  {
    if s != [] {
      var rest := Split(s[1..], sep);
      JoinSplit(s[1..], sep);
      if s[0] == sep {
        assert Split(s, sep) == [[]] + rest;
      } else if |rest| == 1 {
        assert Split(s, sep) == [[s[0]] + rest[0]];
      } else {
        assert Split(s, sep) == [[s[0]] + rest[0]] + rest[1..];
        assert Join(rest, sep) == rest[0] + [sep] + Join(rest[1..], sep);
        assert s == [s[0]] + s[1..];
      }
    }
  }

  /** A string without the separator is a single field. */
  lemma {:induction false} SplitWithoutSeparator(s: string, sep: char)
    requires sep !in s
    ensures Split(s, sep) == [s]
  {
    if s != [] {
      SplitWithoutSeparator(s[1..], sep);
      assert s == [s[0]] + s[1..];
    }
  }

  /** Text without the separator in front of `b` joins the first field of `b`; the later fields stay. */
  lemma {:induction false} SplitPrepend(a: string, b: string, sep: char)
    requires sep !in a
    ensures Split(a + b, sep) == [a + Split(b, sep)[0]] + Split(b, sep)[1..]
  {
    var fields := Split(b, sep);
    if a == [] {
      assert a + b == b && a + fields[0] == fields[0];
      assert fields == [fields[0]] + fields[1..];
    } else {
      var s := a + b;
      assert s[0] == a[0] && s[1..] == a[1..] + b;
      SplitPrepend(a[1..], b, sep);
      var rest := Split(s[1..], sep);
      assert rest[0] == a[1..] + fields[0] && rest[1..] == fields[1..];
      assert a[0] != sep;
      assert Split(s, sep) == [[a[0]] + rest[0]] + rest[1..];
      assert [a[0]] + (a[1..] + fields[0]) == a + fields[0];
    }
  }

  /** The text before the first separator is the first field; the rest is split on its own. */
  lemma SplitAtFirstSeparator(a: string, b: string, sep: char)
    requires sep !in a
    ensures Split(a + [sep] + b, sep) == [a] + Split(b, sep)
  {
    var t := [sep] + b;
    assert t[0] == sep && t[1..] == b;
    assert Split(t, sep) == [[]] + Split(b, sep);
    SplitPrepend(a, t, sep);
    assert a + [sep] + b == a + t;
    assert Split(t, sep)[0] == [] && Split(t, sep)[1..] == Split(b, sep);
    assert a + [] == a;
  }

  /** Splitting a join of separator-free pieces gives back the pieces. */
  lemma {:induction false} SplitJoin(pieces: seq<string>, sep: char)
    requires |pieces| >= 1
    requires forall k :: 0 <= k < |pieces| ==> sep !in pieces[k]
    ensures Split(Join(pieces, sep), sep) == pieces
  {
    if |pieces| == 1 {
      SplitWithoutSeparator(pieces[0], sep);
    } else {
      SplitJoin(pieces[1..], sep);
      SplitAtFirstSeparator(pieces[0], Join(pieces[1..], sep), sep);
    }
  }

  // ----- String(n) for integers -----

  function DigitChar(d: nat): char
    requires d < 10
  {
    ('0' as int + d) as char
  }

  /** `String(n)` for a non-negative integer (below 10^21, where JavaScript switches to exponent form). */
  function NatToDecimal(n: nat): (r: string)
    ensures r != []
    ensures forall i :: 0 <= i < |r| ==> '0' <= r[i] <= '9'
    ensures r[0] == '0' ==> n == 0
  {
    if n < 10 then [DigitChar(n)] else NatToDecimal(n / 10) + [DigitChar(n % 10)]
  }

  /** The value of a string of decimal digits. */
  function DecimalValue(s: string): nat
    requires forall i :: 0 <= i < |s| ==> '0' <= s[i] <= '9'
  {
    if s == [] then 0 else DecimalValue(s[..|s| - 1]) * 10 + (s[|s| - 1] as int - '0' as int)
  }

  /** Reading back the decimal rendering of `n` gives `n`: the rendering loses nothing. */
  lemma {:induction false} DecimalRoundTrip(n: nat)
    ensures DecimalValue(NatToDecimal(n)) == n
  {
    if n >= 10 {
      DecimalRoundTrip(n / 10);
      var r := NatToDecimal(n);
      assert r[..|r| - 1] == NatToDecimal(n / 10);
    }
  }

  /** `String(i)` for an integer. */
  function IntToDecimal(i: int): string
  {
    if i < 0 then "-" + NatToDecimal(-i) else NatToDecimal(i)
  }

  // ----- encodeURIComponent -----

  /** The characters `encodeURIComponent` keeps (the uriUnreserved set of ECMA-262, section 19.2.6). */
  predicate IsUriUnreserved(c: char)
  {
    || ('A' <= c <= 'Z') || ('a' <= c <= 'z') || ('0' <= c <= '9')
    || c == '-' || c == '_' || c == '.' || c == '!' || c == '~' || c == '*' || c == '\'' || c == '(' || c == ')'
  }

  /** What may appear in the output of `encodeURIComponent`: no `&`, `#`, `=`, `?`, `/` or space. */
  predicate IsUriSafe(c: char)
  {
    IsUriUnreserved(c) || c == '%'
  }

  function HexDigit(d: nat): char
    requires d < 16
  {
    if d < 10 then ('0' as int + d) as char else ('A' as int + d - 10) as char
  }

  /** The UTF-8 encoding of one Unicode scalar value (RFC 3629, section 3). */
  function Utf8(c: char): (bytes: seq<nat>)
    ensures 1 <= |bytes| <= 4
    ensures forall i :: 0 <= i < |bytes| ==> bytes[i] < 256
  {
    var v := c as int;
    if v < 0x80 then [v]
    else if v < 0x800 then [0xC0 + v / 64, 0x80 + v % 64]
    else if v < 0x10000 then [0xE0 + v / 4096, 0x80 + (v / 64) % 64, 0x80 + v % 64]
    else [0xF0 + v / 0x40000, 0x80 + (v / 4096) % 64, 0x80 + (v / 64) % 64, 0x80 + v % 64]
  }

  /** `%XY` for every byte, with upper-case hexadecimal digits. */
  function PercentEscapes(bytes: seq<nat>): (r: string)
    requires forall i :: 0 <= i < |bytes| ==> bytes[i] < 256
    ensures |r| == 3 * |bytes|
    ensures forall i :: 0 <= i < |r| ==> IsUriSafe(r[i])
  {
    if bytes == [] then []
    else ['%', HexDigit(bytes[0] / 16), HexDigit(bytes[0] % 16)] + PercentEscapes(bytes[1..])
  }

  /** What `encodeURIComponent` makes of one character. */
  function EncodeChar(c: char): (r: string)
    ensures |r| >= 1
    ensures forall i :: 0 <= i < |r| ==> IsUriSafe(r[i])
    ensures IsUriUnreserved(c) ==> r == [c]
  {
    if IsUriUnreserved(c) then [c] else PercentEscapes(Utf8(c))
  }

  /** The pieces, concatenated in order. */
  function Concat(pieces: seq<string>): string
  {
    if pieces == [] then [] else pieces[0] + Concat(pieces[1..])
  }

  /** Non-empty safe pieces concatenate to safe text at least as long as the number of pieces. */
  lemma {:induction false} ConcatSafe(pieces: seq<string>)
    requires forall i :: 0 <= i < |pieces| ==> |pieces[i]| >= 1
    requires forall i, j :: 0 <= i < |pieces| && 0 <= j < |pieces[i]| ==> IsUriSafe(pieces[i][j])
    ensures |Concat(pieces)| >= |pieces|
    ensures forall k :: 0 <= k < |Concat(pieces)| ==> IsUriSafe(Concat(pieces)[k])
  {
    if pieces != [] {
      ConcatSafe(pieces[1..]);
      var head, rest := pieces[0], Concat(pieces[1..]);
      assert forall k :: 0 <= k < |head + rest| ==> (head + rest)[k] == if k < |head| then head[k] else rest[k - |head|];
    }
  }

  /** The escape of every character of `s`, in order. */
  function Escapes(s: string): seq<string>
  {
    seq(|s|, i requires 0 <= i < |s| => EncodeChar(s[i]))
  }

  /**
   * `encodeURIComponent(s)`: an unreserved character stays as it is, any other becomes the
   * percent-escapes of its UTF-8 bytes, so the result can stand as one query-parameter value.
   */
  function EncodeUriComponent(s: string): (r: string)
    ensures |r| >= |s|
    ensures forall i :: 0 <= i < |r| ==> IsUriSafe(r[i])
  {
    ConcatSafe(Escapes(s));
    Concat(Escapes(s))
  }

  /** Encoding goes character by character, from the front. */
  lemma EncodeFirstChar(s: string)
    requires s != []
    ensures EncodeUriComponent(s) == EncodeChar(s[0]) + EncodeUriComponent(s[1..])
  {
    assert Escapes(s)[1..] == Escapes(s[1..]);
  }

  /** Text made of unreserved characters only passes through `encodeURIComponent` unchanged. */
  lemma {:induction false} EncodeKeepsUnreserved(s: string)
    requires forall i :: 0 <= i < |s| ==> IsUriUnreserved(s[i])
    ensures EncodeUriComponent(s) == s
  {
    if s != [] {
      EncodeFirstChar(s);
      EncodeKeepsUnreserved(s[1..]);
      assert s == [s[0]] + s[1..];
    }
  }
}
