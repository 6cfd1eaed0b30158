/** The JavaScript string built-ins both bots rely on: `String.prototype.trim`,
    `toLowerCase`, `includes`, and the decimal rendering of a number inside a
    template literal. */
module JsText {

  /** The characters `trim` strips: ECMAScript WhiteSpace and LineTerminator. */
  predicate IsSpace(c: char) {
    c == '\U{0009}' || c == '\U{000A}' || c == '\U{000B}' || c == '\U{000C}' || c == '\U{000D}' ||
    c == ' ' || c == '\U{00A0}' || c == '\U{1680}' || ('\U{2000}' <= c <= '\U{200A}') ||
    c == '\U{2028}' || c == '\U{2029}' || c == '\U{202F}' || c == '\U{205F}' ||
    c == '\U{3000}' || c == '\U{FEFF}'
  }

  /** Drops leading spaces. */
  function TrimStart(s: string): (r: string)
    ensures |r| <= |s|
  {
    if s != [] && IsSpace(s[0]) then TrimStart(s[1..]) else s
  }

  /** Drops trailing spaces. */
  function TrimEnd(s: string): (r: string)
    ensures |r| <= |s|
  {
    if s != [] && IsSpace(s[|s| - 1]) then TrimEnd(s[..|s| - 1]) else s
  }

  /** `s.trim()` */
  function Trim(s: string): string {
    TrimEnd(TrimStart(s))
  }

  /** What TrimStart keeps is a suffix of `s`, everything dropped is a space,
      and the result does not start with one. */
  lemma {:induction false} TrimStartShape(s: string)
    ensures var r := TrimStart(s);
      |r| <= |s| && r == s[|s| - |r|..] &&
      (forall i :: 0 <= i < |s| - |r| ==> IsSpace(s[i])) &&
      (r == [] || !IsSpace(r[0]))
  {
    if s != [] && IsSpace(s[0]) {
      TrimStartShape(s[1..]);
      var r := TrimStart(s);
      forall i | 0 <= i < |s| - |r| ensures IsSpace(s[i]) {
        if i > 0 { assert s[i] == s[1..][i - 1]; }
      }
    }
  }

  /** What TrimEnd keeps is a prefix of `s`, everything dropped is a space, and
      the result does not end with one. */
  lemma {:induction false} TrimEndShape(s: string)
    ensures var r := TrimEnd(s);
      |r| <= |s| && r == s[..|r|] &&
      (forall i :: |r| <= i < |s| ==> IsSpace(s[i])) &&
      (r == [] || !IsSpace(r[|r| - 1]))
  {
    if s != [] && IsSpace(s[|s| - 1]) {
      var p := s[..|s| - 1];
      TrimEndShape(p);
      var r := TrimEnd(s);
      assert r == TrimEnd(p);
      assert r == p[..|r|];
      assert p[..|r|] == s[..|r|];
      forall i | |r| <= i < |s| ensures IsSpace(s[i]) {
        if i < |s| - 1 { assert s[i] == p[i]; }
      }
    }
  }

  /** The trimmed text is the infix of `s` that starts after the leading spaces,
      everything outside it is a space, and neither of its ends is one. */
  lemma TrimShape(s: string)
    ensures var k := |s| - |TrimStart(s)|; var r := Trim(s);
      k + |r| <= |s| && r == s[k..k + |r|] &&
      (forall i :: 0 <= i < k ==> IsSpace(s[i])) &&
      (forall i :: k + |r| <= i < |s| ==> IsSpace(s[i])) &&
      (r == [] || (!IsSpace(r[0]) && !IsSpace(r[|r| - 1])))
  {
    var t := TrimStart(s);
    var r := TrimEnd(t);
    var k := |s| - |t|;
    TrimStartShape(s);
    TrimEndShape(t);
    assert t == s[k..];
    assert r == t[..|r|];
    if r != [] { assert r[0] == t[0]; }
    forall i | k + |r| <= i < |s| ensures IsSpace(s[i]) {
      assert s[i] == t[i - k];
    }
  }

  /** `toLowerCase` on one character, for Basic Latin and Latin-1 letters. */
  function LowerChar(c: char): (d: char)
    ensures !IsSpace(c) ==> !IsSpace(d)
    ensures IsSpace(c) ==> d == c
    ensures '0' <= c <= '9' ==> d == c
  {
    if 'A' <= c <= 'Z' || ('\U{00C0}' <= c <= '\U{00DE}' && c != '\U{00D7}') then
      (c as int + 32) as char
    else
      c
  }

  /** `s.toLowerCase()`, character by character. */
  function ToLower(s: string): (r: string)
    ensures |r| == |s|
    ensures forall i :: 0 <= i < |s| ==> r[i] == LowerChar(s[i])
  {
    seq(|s|, i requires 0 <= i < |s| => LowerChar(s[i]))
  }

  /** `text.toLowerCase().trim()`, the token both bots dispatch on. */
  function Normalize(text: string): string {
    Trim(ToLower(text))
  }

  predicate StartsWith(s: string, prefix: string) {
    |prefix| <= |s| && s[..|prefix|] == prefix
  }

  /** `s.includes(t)`: `t` occurs somewhere in `s` as a contiguous block. */
  predicate Contains(s: string, t: string)
    decreases |s|
  {
    StartsWith(s, t) || (s != [] && Contains(s[1..], t))
  }

  function Digit(d: nat): (c: char)
    requires d < 10
    ensures '0' <= c <= '9'
  {
    "0123456789"[d]
  }

  function DigitValue(c: char): nat
    requires '0' <= c <= '9'
  {
    c as int - '0' as int
  }

  /** The decimal digits of `n`, as `${n}` renders a non-negative integer. */
  function NatToString(n: nat): (r: string)
    ensures |r| >= 1
    ensures forall i :: 0 <= i < |r| ==> '0' <= r[i] <= '9'
  {
    if n < 10 then [Digit(n)] else NatToString(n / 10) + [Digit(n % 10)]
  }

  /** `${n}` for an integer: a minus sign before the magnitude when negative. */
  function IntToString(n: int): (r: string)
    ensures r != []
    ensures n < 0 <==> r[0] == '-'
  {
    if n < 0 then "-" + NatToString(-n) else NatToString(n)
  }

  /** The number a string of decimal digits denotes. */
  function DecimalValue(s: string): nat
    requires forall i :: 0 <= i < |s| ==> '0' <= s[i] <= '9'
  {
    if s == [] then 0 else DecimalValue(s[..|s| - 1]) * 10 + DigitValue(s[|s| - 1])
  }

  /** Reading back the rendered digits gives the number again. */
  lemma {:induction false} DecimalRoundTrip(n: nat)
    ensures DecimalValue(NatToString(n)) == n
  {
    if n >= 10 {
      var r := NatToString(n);
      assert r[..|r| - 1] == NatToString(n / 10);
      DecimalRoundTrip(n / 10);
    }
  }

  /** Distinct naturals render as distinct digit strings. */
  lemma NatToStringInjective(a: nat, b: nat)
    requires NatToString(a) == NatToString(b)
    ensures a == b
  {
    DecimalRoundTrip(a);
    DecimalRoundTrip(b);
  }

  /** Distinct integers render as distinct texts. */
  lemma IntToStringInjective(m: int, n: int)
    requires IntToString(m) == IntToString(n)
    ensures m == n
  {
    var r := IntToString(m);
    if m < 0 {
      assert n < 0;
      assert NatToString(-m) == r[1..] == NatToString(-n);
      NatToStringInjective(-m, -n);
    } else {
      assert n >= 0;
      NatToStringInjective(m, n);
    }
  }

  /** Lower-casing twice changes nothing more. */
  lemma LowerCharIdempotent(c: char)
    ensures LowerChar(LowerChar(c)) == LowerChar(c)
  {
  }

  /** The capital letters `toLowerCase` changes here, each with the small letter
      it becomes, in runs: Basic Latin, then the Latin-1 capitals on either side
      of the multiplication sign U+00D7. */
  const SmallOfAToG: map<char, char> := map[
      'A' := 'a', 'B' := 'b', 'C' := 'c', 'D' := 'd', 'E' := 'e', 'F' := 'f', 'G' := 'g']
  const SmallOfHToN: map<char, char> := map[
      'H' := 'h', 'I' := 'i', 'J' := 'j', 'K' := 'k', 'L' := 'l', 'M' := 'm', 'N' := 'n']
  const SmallOfOToU: map<char, char> := map[
      'O' := 'o', 'P' := 'p', 'Q' := 'q', 'R' := 'r', 'S' := 's', 'T' := 't', 'U' := 'u']
  const SmallOfVToZ: map<char, char> := map[
      'V' := 'v', 'W' := 'w', 'X' := 'x', 'Y' := 'y', 'Z' := 'z']
  const SmallOfC0ToC7: map<char, char> := map[
      '\U{00C0}' := '\U{00E0}', '\U{00C1}' := '\U{00E1}', '\U{00C2}' := '\U{00E2}', '\U{00C3}' := '\U{00E3}',
      '\U{00C4}' := '\U{00E4}', '\U{00C5}' := '\U{00E5}', '\U{00C6}' := '\U{00E6}', '\U{00C7}' := '\U{00E7}']
  const SmallOfC8ToCF: map<char, char> := map[
      '\U{00C8}' := '\U{00E8}', '\U{00C9}' := '\U{00E9}', '\U{00CA}' := '\U{00EA}', '\U{00CB}' := '\U{00EB}',
      '\U{00CC}' := '\U{00EC}', '\U{00CD}' := '\U{00ED}', '\U{00CE}' := '\U{00EE}', '\U{00CF}' := '\U{00EF}']
  const SmallOfD0ToD6: map<char, char> := map[
      '\U{00D0}' := '\U{00F0}', '\U{00D1}' := '\U{00F1}', '\U{00D2}' := '\U{00F2}', '\U{00D3}' := '\U{00F3}',
      '\U{00D4}' := '\U{00F4}', '\U{00D5}' := '\U{00F5}', '\U{00D6}' := '\U{00F6}']
  const SmallOfD8ToDE: map<char, char> := map[
      '\U{00D8}' := '\U{00F8}', '\U{00D9}' := '\U{00F9}', '\U{00DA}' := '\U{00FA}', '\U{00DB}' := '\U{00FB}',
      '\U{00DC}' := '\U{00FC}', '\U{00DD}' := '\U{00FD}', '\U{00DE}' := '\U{00FE}']
  const BasicSmallOf: map<char, char> := SmallOfAToG + SmallOfHToN + SmallOfOToU + SmallOfVToZ
  const LatinSmallOf: map<char, char> := SmallOfC0ToC7 + SmallOfC8ToCF + SmallOfD0ToD6 + SmallOfD8ToDE

  // Each run of capitals is exactly a range of code points, lowered by `LowerChar`
  // to the small letters the table gives.

  lemma LettersAToG(c: char)
    ensures c in SmallOfAToG <==> 'A' <= c <= 'G'
    ensures c in SmallOfAToG ==> LowerChar(c) == SmallOfAToG[c]
  {
  }

  lemma LettersHToN(c: char)
    ensures c in SmallOfHToN <==> 'H' <= c <= 'N'
    ensures c in SmallOfHToN ==> LowerChar(c) == SmallOfHToN[c]
  {
  }

  lemma LettersOToU(c: char)
    ensures c in SmallOfOToU <==> 'O' <= c <= 'U'
    ensures c in SmallOfOToU ==> LowerChar(c) == SmallOfOToU[c]
  {
  }

  lemma LettersVToZ(c: char)
    ensures c in SmallOfVToZ <==> 'V' <= c <= 'Z'
    ensures c in SmallOfVToZ ==> LowerChar(c) == SmallOfVToZ[c]
  {
  }

  lemma LettersC0ToC7(c: char)
    ensures c in SmallOfC0ToC7 <==> '\U{00C0}' <= c <= '\U{00C7}'
    ensures c in SmallOfC0ToC7 ==> LowerChar(c) == SmallOfC0ToC7[c]
  {
  }

  lemma LettersC8ToCF(c: char)
    ensures c in SmallOfC8ToCF <==> '\U{00C8}' <= c <= '\U{00CF}'
    ensures c in SmallOfC8ToCF ==> LowerChar(c) == SmallOfC8ToCF[c]
  {
  }

  lemma LettersD0ToD6(c: char)
    ensures c in SmallOfD0ToD6 <==> '\U{00D0}' <= c <= '\U{00D6}'
    ensures c in SmallOfD0ToD6 ==> LowerChar(c) == SmallOfD0ToD6[c]
  {
  }

  lemma LettersD8ToDE(c: char)
    ensures c in SmallOfD8ToDE <==> '\U{00D8}' <= c <= '\U{00DE}'
    ensures c in SmallOfD8ToDE ==> LowerChar(c) == SmallOfD8ToDE[c]
  {
  }

  /** The Basic Latin capitals are the letters `A` to `Z`. */
  lemma BasicLetters(c: char)
    ensures c in BasicSmallOf <==> 'A' <= c <= 'Z'
    ensures c in BasicSmallOf ==> LowerChar(c) == BasicSmallOf[c]
  {
    LettersAToG(c);
    LettersHToN(c);
    LettersOToU(c);
    LettersVToZ(c);
  }

  /** The Latin-1 capitals are U+00C0 to U+00DE, without U+00D7. */
  lemma LatinLetters(c: char)
    ensures c in LatinSmallOf <==> '\U{00C0}' <= c <= '\U{00DE}' && c != '\U{00D7}'
    ensures c in LatinSmallOf ==> LowerChar(c) == LatinSmallOf[c]
  {
    LettersC0ToC7(c);
    LettersC8ToCF(c);
    LettersD0ToD6(c);
    LettersD8ToDE(c);
  }

  /** `LowerChar` follows the letter tables: a capital becomes its small letter
      and every other character is left unchanged. */
  lemma LowerCharFollowsTable(c: char)
    ensures c in BasicSmallOf ==> LowerChar(c) == BasicSmallOf[c]
    ensures c in LatinSmallOf ==> LowerChar(c) == LatinSmallOf[c]
    ensures c !in BasicSmallOf && c !in LatinSmallOf ==> LowerChar(c) == c
  {
    BasicLetters(c);
    LatinLetters(c);
  }

  /** `s.toLowerCase()` keeps the length, leaves nothing a further lower-casing
      would change, turns each capital into its small letter and leaves every
      other character as it was. */
  lemma ToLowerLowers(s: string)
    ensures |ToLower(s)| == |s|
    ensures IsLower(ToLower(s))
    ensures forall i :: 0 <= i < |s| && s[i] in BasicSmallOf ==> ToLower(s)[i] == BasicSmallOf[s[i]]
    ensures forall i :: 0 <= i < |s| && s[i] in LatinSmallOf ==> ToLower(s)[i] == LatinSmallOf[s[i]]
    ensures forall i :: 0 <= i < |s| && s[i] !in BasicSmallOf && s[i] !in LatinSmallOf ==> ToLower(s)[i] == s[i]
  {
    LoweredIsLower(s);
    forall i | 0 <= i < |s| {
      LowerCharFollowsTable(s[i]);
    }
  }

  /** Trimming a string with no spaces at its ends returns it unchanged. */
  lemma TrimOfTrimmed(s: string)
    requires s == [] || (!IsSpace(s[0]) && !IsSpace(s[|s| - 1]))
    ensures Trim(s) == s
  {
  }

  /** A string every character of which is already lower case. */
  predicate IsLower(s: string) {
    forall i :: 0 <= i < |s| ==> LowerChar(s[i]) == s[i]
  }

  lemma LoweredIsLower(s: string)
    ensures IsLower(ToLower(s))
  {
    forall i | 0 <= i < |s| ensures LowerChar(ToLower(s)[i]) == ToLower(s)[i] {
      LowerCharIdempotent(s[i]);
    }
  }

  lemma TrimKeepsLower(s: string)
    requires IsLower(s)
    ensures IsLower(Trim(s))
  {
    TrimShape(s);
    var k := |s| - |TrimStart(s)|;
    var r := Trim(s);
    forall i | 0 <= i < |r| ensures LowerChar(r[i]) == r[i] {
      assert r[i] == s[k + i];
    }
  }

  /** The normalised token is a fixed point of normalisation: normalising the
      token a second time gives the same token. */
  lemma NormalizeIdempotent(text: string)
    ensures Normalize(Normalize(text)) == Normalize(text)
  {
    var t := Normalize(text);
    LoweredIsLower(text);
    TrimKeepsLower(ToLower(text));
    TrimShape(ToLower(text));
    assert ToLower(t) == t;
    TrimOfTrimmed(t);
  }

  /** A string that contains `"horario"` contains `"hora"`. */
  lemma {:induction false} HorarioContainsHora(s: string)
    requires Contains(s, "horario")
    ensures Contains(s, "hora")
  {
    if StartsWith(s, "horario") {
      assert s[..4] == s[..7][..4];
    } else {
      HorarioContainsHora(s[1..]);
    }
  }
}
