/**
  The few Python string and integer primitives the backend relies on,
  written out with the semantics CPython gives them: `str.lstrip`,
  slicing with clamped bounds, `''.join(c * 2 for c in s)`,
  `s.split(sep, 1)[1]`, `int(s, 16)` and the decimal rendering of a
  natural number inside an f-string.
*/
module PyStr {
  import opened Optional

  /** `s.lstrip(c)` for a one-character argument: every leading `c` goes, not just one. */
  function LStrip(s: string, c: char): (r: string)
    ensures |r| <= |s| && r == s[|s| - |r|..]
    ensures r == [] || r[0] != c
    ensures forall i :: 0 <= i < |s| - |r| ==> s[i] == c
  {
    if |s| > 0 && s[0] == c then
      var r := LStrip(s[1..], c);
      assert s[1..][|s| - 1 - |r|..] == s[|s| - |r|..];
      r
    else s
  }

  /** `''.join([c * 2 for c in s])`: every character written twice, in order. */
  function Doubled(s: string): (r: string)
    ensures |r| == 2 * |s|
    ensures forall i :: 0 <= i < |s| ==> r[2 * i] == s[i] && r[2 * i + 1] == s[i]
  {
    if s == [] then []
    else
      var rest := Doubled(s[1..]);
      assert forall i :: 1 <= i < |s| ==> s[i] == s[1..][i - 1];
      [s[0], s[0]] + rest
  }

  function Min(a: int, b: int): int { if a <= b then a else b }

  /** `s[i:j]` for non-negative bounds: both bounds are clamped to `len(s)`, and a reversed range is empty. */
  function Slice(s: string, i: nat, j: nat): (r: string)
    ensures |r| == (if Min(i, |s|) <= Min(j, |s|) then Min(j, |s|) - Min(i, |s|) else 0)
    ensures forall k :: 0 <= k < |r| ==> r[k] == s[i + k]
  {
    var lo, hi := Min(i, |s|), Min(j, |s|);
    if lo <= hi then s[lo..hi] else []
  }

  /**
    `s.split(sep, 1)[1]` when `sep in s`: the text after the FIRST separator.
    The result `r` is characterised by `s == head + [sep] + r` with no separator in `head`.
  */
  function SplitTail(s: string, sep: char): (r: string)
    requires sep in s
    ensures |r| < |s|
    ensures s == s[..|s| - |r| - 1] + [sep] + r
    ensures sep !in s[..|s| - |r| - 1]
  {
    if s[0] == sep then s[1..]
    else
      var r := SplitTail(s[1..], sep);
      assert s[1..][..|s| - 1 - |r| - 1] == s[1..|s| - |r| - 1];
      assert s[..|s| - |r| - 1] == [s[0]] + s[1..|s| - |r| - 1];
      r
  }

  /** Behind a head without the separator, the text after the first separator is the rest. */
  lemma {:induction false} SplitAfterFirst(head: string, sep: char, tail: string)
    requires sep !in head
    ensures sep in head + [sep] + tail
    ensures SplitTail(head + [sep] + tail, sep) == tail
  {
    var s := head + [sep] + tail;
    assert s[|head|] == sep;
    var r := SplitTail(s, sep);
    var k := |s| - |r| - 1;
    assert s[k] == sep;
    assert forall j :: 0 <= j < |head| ==> s[j] == head[j] != sep;
    assert forall j :: 0 <= j < k ==> s[j] == s[..k][j] != sep;
    assert r == s[|head| + 1..];
  }

  /**
    The characters `int()` ignores around the literal: ASCII `\t`..`\r` and
    space, plus the non-ASCII characters `str.isspace()` accepts, which are
    turned into spaces first. The ASCII separators `\x1c`..`\x1f` are not
    among them, although `str.isspace()` accepts them.
  */
  predicate IsSpace(c: char) {
    '\t' <= c <= '\r' || c == ' ' || c == '\U{85}' || c == '\U{A0}' || c == '\U{1680}' ||
    '\U{2000}' <= c <= '\U{200A}' || c == '\U{2028}' || c == '\U{2029}' || c == '\U{202F}' ||
    c == '\U{205F}' || c == '\U{3000}'
  }

  predicate IsHexDigit(c: char) {
    '0' <= c <= '9' || 'a' <= c <= 'f' || 'A' <= c <= 'F'
  }

  predicate AllHex(s: string) {
    forall i :: 0 <= i < |s| ==> IsHexDigit(s[i])
  }

  function DigitValue(c: char): (v: nat)
    requires IsHexDigit(c)
    ensures v < 16
    ensures '0' <= c <= '9' ==> v == c as int - '0' as int
    ensures 'a' <= c <= 'f' ==> v == c as int - 'a' as int + 10
    ensures 'A' <= c <= 'F' ==> v == c as int - 'A' as int + 10
  {
    if c <= '9' then c as int - '0' as int
    else if c <= 'F' then c as int - 'A' as int + 10
    else c as int - 'a' as int + 10
  }

  function Pow16(n: nat): (p: nat)
    ensures p > 0
  {
    if n == 0 then 1 else 16 * Pow16(n - 1)
  }

  /** The value of a string of hex digits, most significant digit first. */
  function HexValue(s: string): (v: nat)
    requires AllHex(s)
    ensures v < Pow16(|s|)
  {
    if s == [] then 0 else 16 * HexValue(s[..|s| - 1]) + DigitValue(s[|s| - 1])
  }

  /**
    The digits of a run as CPython's `int` accepts it, underscores dropped:
    a digit, then digits each optionally preceded by ONE underscore.
    `None` for anything else (a leading, trailing or doubled underscore,
    a non-digit, the empty string).
  */
  function DigitRun(w: string): (r: Option<string>)
    ensures r.Some? ==> AllHex(r.value) && 0 < |r.value| <= |w|
    ensures AllHex(w) && w != [] ==> r == Some(w)
  {
    if w == [] || !IsHexDigit(w[0]) then None
    else if |w| == 1 then Some(w)
    else
      var rest := if w[1] == '_' then w[2..] else w[1..];
      match DigitRun(rest)
      case Some(digits) =>
        assert AllHex(w) ==> rest == w[1..] && w == [w[0]] + w[1..];
        Some([w[0]] + digits)
      case None => None
  }

  /** `s` without its leading whitespace. */
  function TrimStart(s: string): (r: string)
    ensures |r| <= |s|
    ensures r == [] || !IsSpace(r[0])
  {
    if |s| > 0 && IsSpace(s[0]) then TrimStart(s[1..]) else s
  }

  /** `s` without its trailing whitespace. */
  function TrimEnd(s: string): (r: string)
    ensures |r| <= |s|
    ensures r == [] || !IsSpace(r[|r| - 1])
  {
    if |s| > 0 && IsSpace(s[|s| - 1]) then TrimEnd(s[..|s| - 1]) else s
  }

  /** `s` with surrounding whitespace removed, as `int()` does before parsing. */
  function Trim(s: string): (r: string)
    ensures |r| <= |s|
  {
    TrimEnd(TrimStart(s))
  }

  /** `s` without a leading `0x`/`0X` and the one underscore allowed right after it. */
  function DropHexPrefix(u: string): (w: string)
    ensures |w| <= |u|
  {
    if |u| >= 2 && u[0] == '0' && (u[1] == 'x' || u[1] == 'X') then
      if |u| >= 3 && u[2] == '_' then u[3..] else u[2..]
    else u
  }

  /**
    `int(s, 16)`: `None` where Python raises `ValueError`. Surrounding
    whitespace, one sign, an optional `0x` prefix and single underscores
    between digits are accepted; the empty string is not.
  */
  function PyIntBase16(s: string): (r: Option<int>)
    ensures r.Some? ==> |s| > 0
  {
    var t := Trim(s);
    var negative := |t| > 0 && t[0] == '-';
    var u := if |t| > 0 && (t[0] == '-' || t[0] == '+') then t[1..] else t;
    match DigitRun(DropHexPrefix(u))
    case Some(digits) =>
      var n: int := HexValue(digits);
      Some(if negative then -n else n)
    case None => None
  }

  /** A run of hex digits has no surrounding whitespace, sign or `0x` prefix to remove. */
  lemma HexDigitsAreBare(s: string)
    requires s != [] && AllHex(s)
    ensures Trim(s) == s && DropHexPrefix(s) == s
  {
    assert !IsSpace(s[0]) && TrimStart(s) == s;
    assert !IsSpace(s[|s| - 1]) && TrimEnd(s) == s;
    assert |s| >= 2 ==> IsHexDigit(s[1]);
  }

  lemma PyIntOfHexDigits(s: string)
    requires s != [] && AllHex(s)
    ensures PyIntBase16(s) == Some(HexValue(s))
  {
    HexDigitsAreBare(s);
  }

  /** An ASCII separator such as `\x1c` is not skipped around the digits: `int('\x1c1', 16)` fails. */
  lemma ControlCharactersNotSkipped()
    ensures PyIntBase16("\U{1C}1") == None
    ensures PyIntBase16("1\U{1F}") == None
  {
    assert !IsSpace('\U{1C}') && !IsSpace('\U{1F}') && !IsSpace('1');
  }

  /** Text of at most two characters parses, if at all, to a value in -15..255 ("-f" .. "ff"). */
  lemma PyIntShortRange(s: string)
    requires |s| <= 2 && PyIntBase16(s).Some?
    ensures -15 <= PyIntBase16(s).value <= 255
  {
    var t := Trim(s);
    var u := if |t| > 0 && (t[0] == '-' || t[0] == '+') then t[1..] else t;
    var digits := DigitRun(DropHexPrefix(u)).value;
    assert Pow16(2) == 256 && Pow16(1) == 16;
    assert HexValue(digits) < Pow16(|digits|);
  }

  /** The digit `0 <= d <= 9` as a character. */
  function DecimalDigit(d: nat): (c: char)
    requires d < 10
    ensures '0' <= c <= '9'
  {
    ('0' as int + d) as char
  }

  /** `str(n)` for a natural number: its decimal digits, without leading zeros. */
  function Decimal(n: nat): (r: string)
    ensures |r| > 0
    ensures forall i :: 0 <= i < |r| ==> '0' <= r[i] <= '9'
  {
    if n < 10 then [DecimalDigit(n)] else Decimal(n / 10) + [DecimalDigit(n % 10)]
  }
}
