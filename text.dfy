/** The parts of JavaScript's string semantics that the storefront's decisions depend on:
    `trim`, `startsWith`, `includes`, `toLowerCase`/`toUpperCase`, `split`, `substring`,
    number-to-text conversion and `parseInt`. */
module Text {
  import opened Wrappers

  /** The code points of ECMAScript's WhiteSpace and LineTerminator productions, which
      `String.prototype.trim` strips (tab, line feed, vertical tab, form feed, carriage return,
      the Unicode space separators, the line and paragraph separators and the byte order mark). */
  predicate IsSpace(c: char) {
    var n := c as int;
    (9 <= n <= 13) || n == 0x20 || n == 0xA0 || n == 0x1680 || (0x2000 <= n <= 0x200A) ||
    n == 0x2028 || n == 0x2029 || n == 0x202F || n == 0x205F || n == 0x3000 || n == 0xFEFF
  }

  /** Every character of `s` is white space (so `s.trim()` is the empty, falsy string). */
  predicate Blank(s: string) {
    forall i :: 0 <= i < |s| ==> IsSpace(s[i])
  }

  /** `s` without its leading white space. */
  function TrimStart(s: string): string {
    if s != [] && IsSpace(s[0]) then TrimStart(s[1..]) else s
  }

  /** `s` without its trailing white space. */
  function TrimEnd(s: string): string {
    if s != [] && IsSpace(s[|s| - 1]) then TrimEnd(s[..|s| - 1]) else s
  }

  /** `TrimStart(s)` is a suffix of `s` that does not begin with white space, and what it
      drops is white space. */
  lemma {:induction false} TrimStartShape(s: string)
    ensures var r := TrimStart(s);
      |r| <= |s| && r == s[|s| - |r|..] && (r == [] || !IsSpace(r[0])) && Blank(s[..|s| - |r|])
  {
    if s != [] && IsSpace(s[0]) {
      TrimStartShape(s[1..]);
      var r := TrimStart(s[1..]);
      assert s[1..][..|s[1..]| - |r|] == s[1..|s| - |r|];
    }
  }

  /** `TrimEnd(s)` is a prefix of `s` that does not end with white space, and what it drops
      is white space. */
  lemma {:induction false} TrimEndShape(s: string)
    ensures var r := TrimEnd(s);
      |r| <= |s| && r == s[..|r|] && (r == [] || !IsSpace(r[|r| - 1])) && Blank(s[|r|..])
  {
    if s != [] && IsSpace(s[|s| - 1]) {
      TrimEndShape(s[..|s| - 1]);
      var r := TrimEnd(s[..|s| - 1]);
      assert s[..|s| - 1][|r|..] + [s[|s| - 1]] == s[|r|..];
    }
  }

  /** `s.trim()`. */
  function Trim(s: string): string {
    TrimEnd(TrimStart(s))
  }

  /** `s.trim()` is empty exactly when `s` consists of white space only. */
  lemma TrimEmptyIffBlank(s: string)
    ensures Trim(s) == [] <==> Blank(s)
  {
    var t := TrimStart(s);
    TrimStartShape(s);
    TrimEndShape(t);
    if Trim(s) == [] {
      assert Blank(t[0..]);
      assert t == [];
      assert s[..|s|] == s;
    } else {
      assert !IsSpace(t[0]);
      assert t[0] == s[|s| - |t|];
    }
  }

  /** A non-empty `s.trim()` begins and ends with a character that is not white space. */
  lemma TrimmedEnds(s: string)
    requires Trim(s) != ""
    ensures var r := Trim(s);
      !IsSpace(r[0]) && !IsSpace(r[|r| - 1])
  {
    var t := TrimStart(s);
    TrimStartShape(s);
    TrimEndShape(t);
    var r := Trim(s);
    assert r == t[..|r|];
    assert r[0] == t[0];
  }

  /** `s.startsWith(prefix)`. */
  predicate StartsWith(s: string, prefix: string) {
    |prefix| <= |s| && s[..|prefix|] == prefix
  }

  /** `s.includes(t)`: `t` occurs in `s` as a contiguous block. */
  predicate Contains(s: string, t: string)
    decreases |s|
  {
    StartsWith(s, t) || (s != [] && Contains(s[1..], t))
  }

  lemma {:induction false} ContainsSuffix(u: string, s: string)
    ensures Contains(u + s, s)
  {
    if u == [] {
      assert u + s == s;
      assert StartsWith(s, s);
    } else {
      ContainsSuffix(u[1..], s);
      assert (u + s)[1..] == u[1..] + s;
    }
  }

  function Lower(c: char): char {
    if 'A' <= c <= 'Z' then (c as int + 32) as char else c
  }

  function Upper(c: char): char {
    if 'a' <= c <= 'z' then (c as int - 32) as char else c
  }

  /** `s.toLowerCase()`, for the letters A to Z. */
  function ToLower(s: string): (r: string)
    ensures |r| == |s| && forall i :: 0 <= i < |s| ==> r[i] == Lower(s[i])
  {
    seq(|s|, i requires 0 <= i < |s| => Lower(s[i]))
  }

  /** `s.toUpperCase()`, for the letters a to z. */
  function ToUpper(s: string): (r: string)
    ensures |r| == |s| && forall i :: 0 <= i < |s| ==> r[i] == Upper(s[i])
  {
    seq(|s|, i requires 0 <= i < |s| => Upper(s[i]))
  }

  /** `s.split(sep)` for a one-character separator: the pieces between the separators,
      empty pieces included, so there is always at least one piece. */
  function Split(s: string, sep: char): (r: seq<string>)
    ensures |r| >= 1
    ensures forall k :: 0 <= k < |r| ==> sep !in r[k]
    decreases |s|
  {
    if s == [] then [""]
    else
      var rest := Split(s[1..], sep);
      if s[0] == sep then [""] + rest
      else [[s[0]] + rest[0]] + rest[1..]
  }

  /** Joining the pieces of `Split(s, sep)` with `sep` gives back `s`. */
  lemma {:induction false} SplitJoin(s: string, sep: char)
    ensures Join(Split(s, sep), sep) == s
    decreases |s|
  {
    if s != [] {
      SplitJoin(s[1..], sep);
      var rest := Split(s[1..], sep);
      if s[0] == sep {
        assert Join([""] + rest, sep) == [sep] + Join(rest, sep);
      } else {
        JoinConsFirst([s[0]], rest, sep);
      }
    }
  }

  /** The first piece of `s.split(sep)` is the text before the first separator: a prefix of
      `s` followed by `sep` or by nothing. */
  lemma {:induction false} SplitFirst(s: string, sep: char)
    ensures var first := Split(s, sep)[0];
      StartsWith(s, first) && (|first| < |s| ==> s[|first|] == sep) && (sep !in s ==> first == s)
    decreases |s|
  {
    if s != [] {
      SplitFirst(s[1..], sep);
    }
  }

  function Join(parts: seq<string>, sep: char): string
    decreases |parts|
  {
    if parts == [] then ""
    else if |parts| == 1 then parts[0]
    else parts[0] + [sep] + Join(parts[1..], sep)
  }

  lemma JoinConsFirst(c: string, parts: seq<string>, sep: char)
    requires parts != []
    ensures Join([c + parts[0]] + parts[1..], sep) == c + Join(parts, sep)
  {
    var q := [c + parts[0]] + parts[1..];
    assert q[1..] == parts[1..];
  }

  /** `s.substring(0, n)` for `n >= 0`. */
  function Prefix(s: string, n: nat): (r: string)
    ensures |r| == if n < |s| then n else |s|
    ensures StartsWith(s, r)
  {
    if n < |s| then s[..n] else s
  }

  predicate IsDigit(c: char) {
    '0' <= c <= '9'
  }

  function DigitChar(d: nat): (c: char)
    requires d < 10
    ensures IsDigit(c)
  {
    ('0' as int + d) as char
  }

  function DigitValue(c: char): (d: nat)
    requires IsDigit(c)
    ensures d < 10 && DigitChar(d) == c
  {
    c as int - '0' as int
  }

  predicate AllDigits(s: string) {
    forall i :: 0 <= i < |s| ==> IsDigit(s[i])
  }

  /** The decimal numeral of `n`, as `String(n)` writes it. */
  function NatToString(n: nat): (r: string)
    ensures r != [] && AllDigits(r)
  {
    if n < 10 then [DigitChar(n)] else NatToString(n / 10) + [DigitChar(n % 10)]
  }

  /** `String(i)` for an integer `i`. */
  function IntToString(i: int): string {
    if i < 0 then "-" + NatToString(-i) else NatToString(i)
  }

  /** The value of a string of decimal digits. */
  function DigitsValue(s: string): nat
    requires AllDigits(s)
  {
    if s == [] then 0 else DigitsValue(s[..|s| - 1]) * 10 + DigitValue(s[|s| - 1])
  }

  lemma {:induction false} DigitsValueOfNatToString(n: nat)
    ensures DigitsValue(NatToString(n)) == n
  {
    if n >= 10 {
      var r := NatToString(n);
      assert r[..|r| - 1] == NatToString(n / 10);
      DigitsValueOfNatToString(n / 10);
    }
  }

  /** The longest prefix of `s` made of decimal digits. */
  function LeadingDigits(s: string): (r: string)
    ensures AllDigits(r) && StartsWith(s, r)
    ensures |r| < |s| ==> !IsDigit(s[|r|])
  {
    if s != [] && IsDigit(s[0]) then [s[0]] + LeadingDigits(s[1..]) else ""
  }

  lemma {:induction false} LeadingDigitsOfDigits(s: string)
    requires AllDigits(s)
    ensures LeadingDigits(s) == s
  {
    if s != [] {
      LeadingDigitsOfDigits(s[1..]);
    }
  }

  /** `parseInt(s)` in base 10: leading white space is skipped, then an optional sign, then the
      longest run of digits; no digits gives `NaN` (here `None`). */
  function ParseInt(s: string): Option<int> {
    var t := TrimStart(s);
    var negative := t != [] && t[0] == '-';
    var body := if t != [] && (t[0] == '-' || t[0] == '+') then t[1..] else t;
    var d := LeadingDigits(body);
    if d == [] then None
    else if negative then Some(-(DigitsValue(d) as int))
    else Some(DigitsValue(d))
  }

  lemma ParseIntOfDigits(d: string)
    requires d != [] && AllDigits(d)
    ensures ParseInt(d) == Some(DigitsValue(d) as int)
  {
    LeadingDigitsOfDigits(d);
    assert !IsSpace(d[0]);
    assert TrimStart(d) == d;
  }

  lemma ParseIntOfNegativeDigits(d: string)
    requires d != [] && AllDigits(d)
    ensures ParseInt("-" + d) == Some(-(DigitsValue(d) as int))
  {
    var m := "-" + d;
    assert m[0] == '-' && !IsSpace('-');
    assert TrimStart(m) == m;
    assert m[1..] == d;
    LeadingDigitsOfDigits(d);
    assert LeadingDigits(m[1..]) == d;
  }

  /** Reading back the text `String(i)` gives `i`. */
  lemma ParseIntOfIntToString(i: int)
    ensures ParseInt(IntToString(i)) == Some(i)
  {
    var n: nat := if i < 0 then -i else i;
    DigitsValueOfNatToString(n);
    if i < 0 {
      ParseIntOfNegativeDigits(NatToString(n));
    } else {
      ParseIntOfDigits(NatToString(n));
    }
  }

  /** `word` followed by "s" unless `n` is exactly 1, as the count labels write it. */
  function Plural(n: int, word: string): (r: string)
    ensures n == 1 ==> r == word
    ensures n != 1 ==> r == word + "s"
  {
    if n != 1 then word + "s" else word
  }

  /** A JavaScript number as `Number(text)` produces it from decimal text: `NaN`, or the value
      `digits / 10^scale`, which is positive exactly when `digits` is. */
  datatype JsNumber = NaN | Num(digits: int, scale: nat)

  /** Reads an unsigned decimal numeral from the left: `acc` holds the digits read so far,
      `scale` how many of them follow the point, `fraction` whether the point was read and
      `seen` whether any digit was. A second point or any other character makes `NaN`, and
      the numeral needs at least one digit. */
  function DecimalScan(b: string, acc: nat, scale: nat, fraction: bool, seen: bool): JsNumber
    decreases |b|
  {
    if b == [] then (if seen then Num(acc, scale) else NaN)
    else if IsDigit(b[0]) then
      DecimalScan(b[1..], acc * 10 + DigitValue(b[0]), if fraction then scale + 1 else scale, fraction, true)
    else if b[0] == '.' && !fraction then DecimalScan(b[1..], acc, scale, true, seen)
    else NaN
  }

  function Negate(x: JsNumber): JsNumber {
    if x.Num? then Num(-x.digits, x.scale) else NaN
  }

  /** `Number(s)` for decimal text: surrounding white space is ignored, blank text is 0, and
      otherwise the whole text must be an optional sign, digits and an optional fraction with
      at least one digit in all. */
  function ToNumber(s: string): JsNumber {
    var t := Trim(s);
    if t == "" then Num(0, 0)
    else if t[0] == '-' then Negate(DecimalScan(t[1..], 0, 0, false, false))
    else if t[0] == '+' then DecimalScan(t[1..], 0, 0, false, false)
    else DecimalScan(t, 0, 0, false, false)
  }

  /** The digits of `d` read from the left after the digits worth `acc`. */
  function DigitsFrom(acc: nat, d: string): nat
    requires AllDigits(d)
    decreases |d|
  {
    if d == [] then acc else DigitsFrom(acc * 10 + DigitValue(d[0]), d[1..])
  }

  lemma {:induction false} DigitsFromSnoc(acc: nat, d: string, c: char)
    requires AllDigits(d) && IsDigit(c)
    ensures AllDigits(d + [c]) && DigitsFrom(acc, d + [c]) == DigitsFrom(acc, d) * 10 + DigitValue(c)
    decreases |d|
  {
    if d != [] {
      assert (d + [c])[1..] == d[1..] + [c];
      DigitsFromSnoc(acc * 10 + DigitValue(d[0]), d[1..], c);
    }
  }

  /** Reading digits from the left gives the value `DigitsValue` defines from the right. */
  lemma {:induction false} DigitsFromValue(d: string)
    requires AllDigits(d)
    ensures DigitsFrom(0, d) == DigitsValue(d)
    decreases |d|
  {
    if d != [] {
      var init := d[..|d| - 1];
      DigitsFromValue(init);
      DigitsFromSnoc(0, init, d[|d| - 1]);
      assert init + [d[|d| - 1]] == d;
    }
  }

  /** On a string of digits, the scan ends with the numeral's value. */
  lemma {:induction false} ScanDigits(d: string, acc: nat, seen: bool)
    requires AllDigits(d) && (seen || d != [])
    ensures DecimalScan(d, acc, 0, false, seen) == Num(DigitsFrom(acc, d), 0)
    decreases |d|
  {
    if d != [] {
      ScanDigits(d[1..], acc * 10 + DigitValue(d[0]), true);
    }
  }

  lemma TrimOfDigits(d: string)
    requires d != [] && AllDigits(d)
    ensures Trim(d) == d
  {
    assert !IsSpace(d[0]);
    assert TrimStart(d) == d;
    assert !IsSpace(d[|d| - 1]);
  }

  /** `Number(String(n))` is `n`. */
  lemma ToNumberOfNatToString(n: nat)
    ensures ToNumber(NatToString(n)) == Num(n, 0)
  {
    var d := NatToString(n);
    TrimOfDigits(d);
    ScanDigits(d, 0, false);
    DigitsFromValue(d);
    DigitsValueOfNatToString(n);
  }
}
