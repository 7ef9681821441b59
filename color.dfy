/**
  The solid-color branch of `add_background`: the `#RGB` / `#RRGGBB`
  format check, the stripping of leading `#`, the expansion of three
  digits to six and the conversion of three two-character slices with
  `int(_, 16)`.
*/
module Color {
  import opened Optional
  import opened PyStr

  /** What the color text turns into: one of the two 400 answers, or the three components. */
  datatype Parsed = BadFormat | BadHex | Rgb(red: int, green: int, blue: int)

  /** `bg_color.startswith('#') and len(bg_color) in [4, 7]`. */
  predicate WellFormed(c: string) {
    |c| > 0 && c[0] == '#' && (|c| == 4 || |c| == 7)
  }

  /** `bg_color.lstrip('#')`, then doubled when exactly three characters remain. */
  function Expand(c: string): (d: string)
    ensures |LStrip(c, '#')| == 3 ==> |d| == 6
    ensures |LStrip(c, '#')| != 3 ==> d == LStrip(c, '#')
  {
    var stripped := LStrip(c, '#');
    if |stripped| == 3 then Doubled(stripped) else stripped
  }

  /**
    The color text as the handler reads it. The format check comes first;
    any of the three slices `[0:2]`, `[2:4]`, `[4:6]` that `int(_, 16)`
    refuses turns the whole color into `BadHex`.
  */
  function ParseColor(c: string): (p: Parsed)
    ensures p.BadFormat? <==> !WellFormed(c)
    ensures p.Rgb? <==> WellFormed(c) && Components(Expand(c)).Some?
  {
    if !WellFormed(c) then BadFormat
    else
      match Components(Expand(c))
      case Some((red, green, blue)) => Rgb(red, green, blue)
      case None => BadHex
  }

  /** `tuple(int(d[i:i+2], 16) for i in (0, 2, 4))`, or `None` where that raises. */
  function Components(d: string): (r: Option<(int, int, int)>)
    ensures r.Some? ==> PyIntBase16(Slice(d, 0, 2)) == Some(r.value.0)
    ensures r.Some? ==> PyIntBase16(Slice(d, 2, 4)) == Some(r.value.1)
    ensures r.Some? ==> PyIntBase16(Slice(d, 4, 6)) == Some(r.value.2)
    ensures r.None? <==> PyIntBase16(Slice(d, 0, 2)).None? || PyIntBase16(Slice(d, 2, 4)).None? || PyIntBase16(Slice(d, 4, 6)).None?
  {
    match (PyIntBase16(Slice(d, 0, 2)), PyIntBase16(Slice(d, 2, 4)), PyIntBase16(Slice(d, 4, 6)))
    case (Some(red), Some(green), Some(blue)) => Some((red, green, blue))
    case _ => None
  }

  /** Every component that parses lies in -15..255: a signed single digit at worst, `ff` at best. */
  lemma {:induction false} ComponentsInRange(c: string)
    requires ParseColor(c).Rgb?
    ensures -15 <= ParseColor(c).red <= 255
    ensures -15 <= ParseColor(c).green <= 255
    ensures -15 <= ParseColor(c).blue <= 255
  {
    var d := Expand(c);
    PyIntShortRange(Slice(d, 0, 2));
    PyIntShortRange(Slice(d, 2, 4));
    PyIntShortRange(Slice(d, 4, 6));
  }

  /** A slice holding a non-empty run of hex digits is read as their value. */
  lemma SliceParses(d: string, i: nat, j: nat, digits: string)
    requires Slice(d, i, j) == digits && digits != [] && AllHex(digits)
    ensures PyIntBase16(Slice(d, i, j)) == Some(HexValue(digits))
  {
    PyIntOfHexDigits(digits);
  }

  /** The three slices decide the components, whatever text they come from. */
  lemma ComponentsOfSlices(d: string, red: int, green: int, blue: int)
    requires PyIntBase16(Slice(d, 0, 2)) == Some(red)
    requires PyIntBase16(Slice(d, 2, 4)) == Some(green)
    requires PyIntBase16(Slice(d, 4, 6)) == Some(blue)
    ensures Components(d) == Some((red, green, blue))
  {
  }

  /** One hex digit is worth its own value. */
  lemma SingleDigit(x: char)
    requires IsHexDigit(x)
    ensures HexValue([x]) == DigitValue(x)
  {
    assert [x][..0] == [];
  }

  /** Two hex digits are worth sixteen times the first plus the second. */
  lemma PairDigits(x: char, y: char)
    requires IsHexDigit(x) && IsHexDigit(y)
    ensures AllHex([x, y]) && HexValue([x, y]) == 16 * DigitValue(x) + DigitValue(y)
  {
    assert [x, y][..1] == [x];
  }

  /** The three slices of six characters are its three pairs. */
  lemma SlicesOfSix(d: string)
    requires |d| == 6
    ensures Slice(d, 0, 2) == [d[0], d[1]] && Slice(d, 2, 4) == [d[2], d[3]] && Slice(d, 4, 6) == [d[4], d[5]]
  {
  }

  /** The three slices of five characters are two pairs and the last character alone. */
  lemma SlicesOfFive(d: string)
    requires |d| == 5
    ensures Slice(d, 0, 2) == [d[0], d[1]] && Slice(d, 2, 4) == [d[2], d[3]] && Slice(d, 4, 6) == [d[4]]
  {
  }

  /** Six hex digits: each slice is a pair of digits and `int` reads it as such. */
  lemma {:induction false} ComponentsOfHex(d: string, red: int, green: int, blue: int)
    requires |d| == 6 && AllHex(d)
    requires red == HexValue([d[0], d[1]]) && green == HexValue([d[2], d[3]]) && blue == HexValue([d[4], d[5]])
    ensures Components(d) == Some((red, green, blue))
  {
    SlicesOfSix(d);
    SliceParses(d, 0, 2, [d[0], d[1]]);
    SliceParses(d, 2, 4, [d[2], d[3]]);
    SliceParses(d, 4, 6, [d[4], d[5]]);
    ComponentsOfSlices(d, red, green, blue);
  }

  /** The three digit pairs of six hex digits, by value. */
  lemma PairsOfSix(d: string)
    requires |d| == 6 && AllHex(d)
    ensures HexValue([d[0], d[1]]) == 16 * DigitValue(d[0]) + DigitValue(d[1])
    ensures HexValue([d[2], d[3]]) == 16 * DigitValue(d[2]) + DigitValue(d[3])
    ensures HexValue([d[4], d[5]]) == 16 * DigitValue(d[4]) + DigitValue(d[5])
  {
    PairDigits(d[0], d[1]);
    PairDigits(d[2], d[3]);
    PairDigits(d[4], d[5]);
  }

  /** Behind one `#`, the text starts with a character other than `#`: exactly one is stripped. */
  lemma StripOneHash(c: string)
    requires |c| >= 2 && c[0] == '#' && c[1] != '#'
    ensures LStrip(c, '#') == c[1..]
  {
  }

  /** Once the expanded text yields components, a well-formed color parses to them. */
  lemma ParseOfComponents(c: string, red: int, green: int, blue: int)
    requires WellFormed(c) && Components(Expand(c)) == Some((red, green, blue))
    ensures ParseColor(c) == Rgb(red, green, blue)
  {
  }

  /** A well-formed color that expands to six hex digits parses to the values of its three pairs. */
  lemma {:induction false} ParseOfHex(c: string, d: string, red: int, green: int, blue: int)
    requires WellFormed(c) && Expand(c) == d && |d| == 6 && AllHex(d)
    requires red == HexValue([d[0], d[1]]) && green == HexValue([d[2], d[3]]) && blue == HexValue([d[4], d[5]])
    ensures ParseColor(c) == Rgb(red, green, blue)
  {
    ComponentsOfHex(d, red, green, blue);
    ParseOfComponents(c, red, green, blue);
  }

  /** Three characters left by `lstrip` are each written twice. */
  lemma ExpandThree(c: string, x: char, y: char, z: char)
    requires LStrip(c, '#') == [x, y, z]
    ensures |Expand(c)| == 6
    ensures Expand(c)[0] == x && Expand(c)[1] == x && Expand(c)[2] == y
    ensures Expand(c)[3] == y && Expand(c)[4] == z && Expand(c)[5] == z
  {
    var t := [x, y, z];
    assert t[0] == x && t[1] == y && t[2] == z;
  }

  /** A well-formed color that strips to three hex digits reads each doubled digit as a pair. */
  lemma {:induction false} ParseOfDoubled(c: string, x: char, y: char, z: char, red: int, green: int, blue: int)
    requires WellFormed(c) && LStrip(c, '#') == [x, y, z]
    requires IsHexDigit(x) && IsHexDigit(y) && IsHexDigit(z)
    requires red == 16 * DigitValue(x) + DigitValue(x)
    requires green == 16 * DigitValue(y) + DigitValue(y)
    requires blue == 16 * DigitValue(z) + DigitValue(z)
    ensures ParseColor(c) == Rgb(red, green, blue)
  {
    ExpandThree(c, x, y, z);
    PairsOfSix(Expand(c));
    ParseOfHex(c, Expand(c), red, green, blue);
  }

  /** A well-formed color that strips to three hex digits: each is doubled, so each component is 17 times the digit. */
  lemma {:induction false} ThreeDigitsDoubled(c: string, x: char, y: char, z: char, red: int, green: int, blue: int)
    requires WellFormed(c) && LStrip(c, '#') == [x, y, z]
    requires IsHexDigit(x) && IsHexDigit(y) && IsHexDigit(z)
    requires red == 17 * DigitValue(x) && green == 17 * DigitValue(y) && blue == 17 * DigitValue(z)
    ensures ParseColor(c) == Rgb(red, green, blue)
  {
    ParseOfDoubled(c, x, y, z, red, green, blue);
  }

  /** `#RGB` with hex digits: each component is 17 times its digit. */
  lemma {:induction false} ShortForm(x: char, y: char, z: char, red: int, green: int, blue: int)
    requires IsHexDigit(x) && IsHexDigit(y) && IsHexDigit(z)
    requires red == 17 * DigitValue(x) && green == 17 * DigitValue(y) && blue == 17 * DigitValue(z)
    ensures ParseColor(['#', x, y, z]) == Rgb(red, green, blue)
  {
    var c := ['#', x, y, z];
    StripOneHash(c);
    assert c[1..] == [x, y, z];
    ThreeDigitsDoubled(c, x, y, z, red, green, blue);
  }

  /**
    `#RRGGBB` with hex digits: the components are the values of the three
    digit pairs, the slices `[0:2]`, `[2:4]`, `[4:6]`, each in 0..255.
  */
  lemma {:induction false} LongForm(s: string, red: int, green: int, blue: int)
    requires |s| == 6 && AllHex(s)
    requires red == 16 * DigitValue(s[0]) + DigitValue(s[1])
    requires green == 16 * DigitValue(s[2]) + DigitValue(s[3])
    requires blue == 16 * DigitValue(s[4]) + DigitValue(s[5])
    ensures ParseColor(['#'] + s) == Rgb(red, green, blue)
    ensures red <= 255 && green <= 255 && blue <= 255
  {
    var c := ['#'] + s;
    assert Expand(c) == s by {
      assert IsHexDigit(s[0]);
      StripOneHash(c);
      assert c[1..] == s;
    }
    PairsOfSix(s);
    ParseOfHex(c, s, red, green, blue);
  }

  /** `lstrip('#')` removes every leading `#`, however many there are. */
  lemma {:induction false} StripHashes(k: nat, t: string)
    requires t == [] || t[0] != '#'
    ensures LStrip(seq(k, _ => '#') + t, '#') == t
  {
    var s := seq(k, _ => '#') + t;
    if k > 0 {
      var rest := seq(k - 1, _ => '#') + t;
      assert s[0] == '#' && s[1..] == rest;
      StripHashes(k - 1, t);
      assert LStrip(s, '#') == LStrip(rest, '#');
    } else {
      assert s == t;
    }
  }

  /**
    When `lstrip('#')` leaves fewer than five characters and not exactly
    three, the slice `[4:6]` is empty and `int('', 16)` fails: `##ab`,
    `####` and `#######` all answer "Invalid hex color value".
  */
  lemma ShortRemainderIsBadHex(c: string)
    requires WellFormed(c)
    requires |LStrip(c, '#')| < 5 && |LStrip(c, '#')| != 3
    ensures ParseColor(c) == BadHex
  {
    var d := Expand(c);
    assert Slice(d, 4, 6) == [];
  }

  /** Five hex digits: two pairs, then a slice `[4:6]` holding the last digit alone. */
  lemma {:induction false} ComponentsOfFive(d: string, red: int, green: int, blue: int)
    requires |d| == 5 && AllHex(d)
    requires red == HexValue([d[0], d[1]]) && green == HexValue([d[2], d[3]]) && blue == DigitValue(d[4])
    ensures Components(d) == Some((red, green, blue))
  {
    SlicesOfFive(d);
    SliceParses(d, 0, 2, [d[0], d[1]]);
    SliceParses(d, 2, 4, [d[2], d[3]]);
    SliceParses(d, 4, 6, [d[4]]);
    SingleDigit(d[4]);
    ComponentsOfSlices(d, red, green, blue);
  }

  /** A well-formed color that expands to five hex digits parses to two pairs and a single digit. */
  lemma {:induction false} ParseOfFive(c: string, d: string, red: int, green: int, blue: int)
    requires WellFormed(c) && Expand(c) == d && |d| == 5 && AllHex(d)
    requires red == HexValue([d[0], d[1]]) && green == HexValue([d[2], d[3]]) && blue == DigitValue(d[4])
    ensures ParseColor(c) == Rgb(red, green, blue)
  {
    ComponentsOfFive(d, red, green, blue);
    ParseOfComponents(c, red, green, blue);
  }

  /** `##` and five hex digits: read as two pairs and one single digit, so `##abcde` is (0xab, 0xcd, 0xe). */
  lemma {:induction false} TwoHashesFiveDigits(s: string, red: int, green: int, blue: int)
    requires |s| == 5 && AllHex(s)
    requires red == 16 * DigitValue(s[0]) + DigitValue(s[1])
    requires green == 16 * DigitValue(s[2]) + DigitValue(s[3])
    requires blue == DigitValue(s[4])
    ensures ParseColor("##" + s) == Rgb(red, green, blue)
  {
    var c := "##" + s;
    assert Expand(c) == s by {
      assert c == seq(2, _ => '#') + s;
      StripHashes(2, s);
    }
    PairDigits(s[0], s[1]);
    PairDigits(s[2], s[3]);
    ParseOfFive(c, s, red, green, blue);
  }

  /** `####` and three hex digits has length 7, passes the format check, and the three digits are doubled. */
  lemma {:induction false} FourHashesThreeDigits(x: char, y: char, z: char, red: int, green: int, blue: int)
    requires IsHexDigit(x) && IsHexDigit(y) && IsHexDigit(z)
    requires red == 17 * DigitValue(x) && green == 17 * DigitValue(y) && blue == 17 * DigitValue(z)
    ensures ParseColor("####" + [x, y, z]) == Rgb(red, green, blue)
  {
    var c := "####" + [x, y, z];
    assert c == seq(4, _ => '#') + [x, y, z];
    StripHashes(4, [x, y, z]);
    ThreeDigitsDoubled(c, x, y, z, red, green, blue);
  }
}
