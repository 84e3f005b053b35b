/** The few Python string operations the bot relies on: `str.strip()`,
    `str.upper()` on the opt-out keywords, `str(int)` in the reply and alert
    texts, and `int(str)` on the score field of the oracle's JSON answer. */
module PyStr {

  datatype Option<+T> = None | Some(value: T)

  /** Python's `str.isspace()`: the characters `str.strip()` removes. */
  predicate IsSpace(c: char) {
    c == ' ' || ('\t' <= c <= '\r') || ('\U{1C}' <= c <= '\U{1F}') ||
    c == '\U{85}' || c == '\U{A0}' || c == '\U{1680}' ||
    ('\U{2000}' <= c <= '\U{200A}') || c == '\U{2028}' || c == '\U{2029}' ||
    c == '\U{202F}' || c == '\U{205F}' || c == '\U{3000}'
  }

  /** The characters `int(s)` skips around a numeral. CPython turns every
      non-ASCII whitespace character into a space and leaves ASCII characters as
      they are, and then skips only tab, line feed, vertical tab, form feed,
      carriage return and space. So the separators U+001C..U+001F, which
      `str.isspace()` accepts, are not skipped. */
  predicate IsIntSpace(c: char) {
    IsSpace(c) && !('\U{1C}' <= c <= '\U{1F}')
  }

  /** Which characters a strip removes: those of `str.strip()`, or those `int()` skips. */
  datatype Blanks = StrBlanks | IntBlanks

  predicate IsBlank(b: Blanks, c: char) {
    match b
    case StrBlanks => IsSpace(c)
    case IntBlanks => IsIntSpace(c)
  }

  /** Drop leading blanks (`s.lstrip()` for `StrBlanks`). The result is a suffix
      of `s`, everything dropped is blank, and what is left does not start with a blank. */
  function TrimLeft(b: Blanks, s: string): (r: string)
    ensures |r| <= |s| && r == s[|s| - |r|..]
    ensures forall k :: 0 <= k < |s| - |r| ==> IsBlank(b, s[k])
    ensures r != [] ==> !IsBlank(b, r[0])
  {
    if |s| > 0 && IsBlank(b, s[0]) then TrimLeft(b, s[1..]) else s
  }

  /** Drop trailing blanks (`s.rstrip()` for `StrBlanks`). The result is a prefix
      of `s`, everything dropped is blank, and what is left does not end with a blank. */
  function TrimRight(b: Blanks, s: string): (r: string)
    ensures |r| <= |s| && r == s[..|r|]
    ensures forall k :: |r| <= k < |s| ==> IsBlank(b, s[k])
    ensures r != [] ==> !IsBlank(b, r[|r| - 1])
  {
    if |s| > 0 && IsBlank(b, s[|s| - 1]) then TrimRight(b, s[..|s| - 1]) else s
  }

  /** Where `Trim(b, s)` starts inside `s`. */
  function TrimStart(b: Blanks, s: string): (i: nat)
    ensures i <= |s|
  {
    |s| - |TrimLeft(b, s)|
  }

  /** The slice of `s` left after dropping blanks at both ends: it sits at
      `TrimStart(b, s)`, only blanks lie outside it, and it neither starts nor
      ends with a blank. */
  function Trim(b: Blanks, s: string): (r: string)
    ensures TrimStart(b, s) + |r| <= |s| && r == s[TrimStart(b, s)..TrimStart(b, s) + |r|]
    ensures forall k :: 0 <= k < TrimStart(b, s) ==> IsBlank(b, s[k])
    ensures forall k :: TrimStart(b, s) + |r| <= k < |s| ==> IsBlank(b, s[k])
    ensures r != [] ==> !IsBlank(b, r[0]) && !IsBlank(b, r[|r| - 1])
  {
    var l := TrimLeft(b, s);
    var r := TrimRight(b, l);
    assert r != [] ==> r[0] == l[0];
    r
  }

  /** `s.strip()`. */
  function Strip(s: string): string {
    Trim(StrBlanks, s)
  }

  /** Trimming a string that was already trimmed changes nothing. */
  lemma TrimIdempotent(b: Blanks, s: string)
    ensures Trim(b, Trim(b, s)) == Trim(b, s)
  {
    var t := Trim(b, s);
    if t != [] {
      assert TrimLeft(b, t) == t;
      assert TrimRight(b, t) == t;
    }
  }

  /** A string with no blank at either end is its own trim. */
  lemma TrimUnpadded(b: Blanks, s: string)
    requires s != [] ==> !IsBlank(b, s[0]) && !IsBlank(b, s[|s| - 1])
    ensures Trim(b, s) == s
  {
    assert TrimLeft(b, s) == s;
    assert TrimRight(b, s) == s;
  }

  predicate AllBlank(b: Blanks, s: string) {
    forall k :: 0 <= k < |s| ==> IsBlank(b, s[k])
  }

  /** Blanks in front of a string that does not start with one are dropped, and nothing else. */
  lemma {:induction false} TrimLeftPadded(b: Blanks, a: string, m: string)
    requires AllBlank(b, a) && (m != [] ==> !IsBlank(b, m[0]))
    ensures TrimLeft(b, a + m) == m
    decreases |a|
  {
    if a == [] {
      assert a + m == m;
    } else {
      assert (a + m)[0] == a[0];
      assert (a + m)[1..] == a[1..] + m;
      TrimLeftPadded(b, a[1..], m);
    }
  }

  /** Blanks after a string that does not end with one are dropped, and nothing else. */
  lemma {:induction false} TrimRightPadded(b: Blanks, m: string, c: string)
    requires AllBlank(b, c) && (m != [] ==> !IsBlank(b, m[|m| - 1]))
    ensures TrimRight(b, m + c) == m
    decreases |c|
  {
    if c == [] {
      assert m + c == m;
    } else {
      assert (m + c)[|m + c| - 1] == c[|c| - 1];
      assert (m + c)[..|m + c| - 1] == m + c[..|c| - 1];
      TrimRightPadded(b, m, c[..|c| - 1]);
    }
  }

  /** Padding a string that has no blank at either end with blanks on both
      sides, and trimming again, gives the string back. */
  lemma TrimPadded(b: Blanks, a: string, m: string, c: string)
    requires AllBlank(b, a) && AllBlank(b, c) && m != []
    requires !IsBlank(b, m[0]) && !IsBlank(b, m[|m| - 1])
    ensures Trim(b, a + m + c) == m
  {
    assert a + m + c == a + (m + c);
    assert (m + c)[0] == m[0];
    TrimLeftPadded(b, a, m + c);
    TrimRightPadded(b, m, c);
  }

  /** `c.upper()` for ASCII letters; every other character is left as it is. */
  function UpperChar(c: char): (u: char)
    ensures 'a' <= c <= 'z' ==> 'A' <= u <= 'Z' && u as int - c as int == 'A' as int - 'a' as int
    ensures !('a' <= c <= 'z') ==> u == c
  {
    if 'a' <= c <= 'z' then (c as int - 'a' as int + 'A' as int) as char else c
  }

  /** `s.upper()`, character by character. */
  function Upper(s: string): (r: string)
    ensures |r| == |s|
    ensures forall i :: 0 <= i < |s| ==> r[i] == UpperChar(s[i])
  {
    seq(|s|, i requires 0 <= i < |s| => UpperChar(s[i]))
  }

  /** Upper-casing is idempotent: an upper-cased string has no lower-case letter left. */
  lemma UpperIdempotent(s: string)
    ensures Upper(Upper(s)) == Upper(s)
  {
  }

  /** The lower-case partner of an ASCII capital; every other character is left as it is. */
  function LowerChar(c: char): (l: char)
    ensures 'A' <= c <= 'Z' ==> 'a' <= l <= 'z' && UpperChar(l) == c
    ensures !('A' <= c <= 'Z') ==> l == c
  {
    if 'A' <= c <= 'Z' then (c as int - 'A' as int + 'a' as int) as char else c
  }

  /** `m` spells the capitalised word `w` with any of its letters in lower case. */
  predicate MatchesIgnoringCase(m: string, w: string) {
    |m| == |w| && forall i :: 0 <= i < |w| ==> m[i] == w[i] || m[i] == LowerChar(w[i])
  }

  /** `m.upper() == w` for a word of ASCII capitals exactly when `m` is that
      word with any of its letters in lower case. */
  lemma UpperMatches(m: string, w: string)
    requires forall i :: 0 <= i < |w| ==> 'A' <= w[i] <= 'Z'
    ensures Upper(m) == w <==> MatchesIgnoringCase(m, w)
  {
    if MatchesIgnoringCase(m, w) {
      forall i | 0 <= i < |w|
        ensures Upper(m)[i] == w[i]
      {
        if m[i] != w[i] {
          assert m[i] == LowerChar(w[i]);
        }
      }
    }
    if Upper(m) == w {
      forall i | 0 <= i < |w|
        ensures m[i] == w[i] || m[i] == LowerChar(w[i])
      {
        assert UpperChar(m[i]) == w[i];
      }
    }
  }

  predicate IsDigit(c: char) { '0' <= c <= '9' }

  function DigitChar(d: nat): (c: char)
    requires d < 10
    ensures IsDigit(c) && c as int - '0' as int == d
  {
    ('0' as int + d) as char
  }

  /** The decimal numeral of `n` with no leading zero: `str(n)` for `n >= 0`. */
  function NatToString(n: nat): (r: string)
    decreases n
  {
    if n < 10 then [DigitChar(n)] else NatToString(n / 10) + [DigitChar(n % 10)]
  }

  /** Python's `str(i)`: a minus sign for a negative number, then the digits. */
  function IntToString(i: int): (r: string)
  {
    if i < 0 then "-" + NatToString(-i) else NatToString(i)
  }

  predicate AllDigits(s: string) {
    forall k :: 0 <= k < |s| ==> IsDigit(s[k])
  }

  /** The value of a string of decimal digits (leading zeros allowed). */
  function DigitsValue(s: string): (v: nat)
    requires AllDigits(s)
  {
    if s == [] then 0 else DigitsValue(s[..|s| - 1]) * 10 + (s[|s| - 1] as int - '0' as int)
  }

  /** CPython's default `sys.get_int_max_str_digits()`: `int()` refuses a
      numeral with more digit characters than this (leading zeros count, the
      sign does not) with a ValueError. */
  const MaxStrDigits := 4300

  /** A run of one to `MaxStrDigits` ASCII digits: a numeral `int()` will read. */
  predicate ReadableDigits(s: string) {
    s != [] && |s| <= MaxStrDigits && AllDigits(s)
  }

  /** Python's `int(s)` once the blanks around the numeral are gone: an optional
      `+` or `-` sign followed by one to `MaxStrDigits` ASCII digits, read in
      base 10; anything else raises ValueError, modelled as `None`. */
  function ParseInt(s: string): (r: Option<int>)
    ensures r.Some? <==> ReadableDigits(s) || (s != [] && (s[0] == '-' || s[0] == '+') && ReadableDigits(s[1..]))
    ensures ReadableDigits(s) ==> r == Some(DigitsValue(s))
    ensures s != [] && s[0] == '-' && ReadableDigits(s[1..]) ==> r == Some(-(DigitsValue(s[1..]) as int))
    ensures s != [] && s[0] == '+' && ReadableDigits(s[1..]) ==> r == Some(DigitsValue(s[1..]))
  {
    if s == [] then None
    else if s[0] == '-' || s[0] == '+' then
      var digits := s[1..];
      if ReadableDigits(digits) then
        var v: int := DigitsValue(digits);
        Some(if s[0] == '-' then -v else v)
      else None
    else if ReadableDigits(s) then Some(DigitsValue(s))
    else None
  }

  /** Python's `int(s)` on a `str`: the characters `int()` skips are dropped
      from both ends, and what is left must be a numeral. */
  function PyInt(s: string): Option<int>
  {
    ParseInt(Trim(IntBlanks, s))
  }

  /** The numeral of `n` is a non-empty digit string with no leading zero
      (unless it is "0") that reads back as `n`. */
  lemma {:induction false} NatToStringDigits(n: nat)
    ensures NatToString(n) != [] && AllDigits(NatToString(n))
    ensures NatToString(n)[0] != '0' || n == 0
    ensures DigitsValue(NatToString(n)) == n
    decreases n
  {
    if n >= 10 {
      NatToStringDigits(n / 10);
      var p := NatToString(n / 10);
      var s := NatToString(n);
      assert s == p + [DigitChar(n % 10)];
      assert s[..|s| - 1] == p;
    }
  }

  /** The magnitude of an integer: what `str(i)` prints after the sign. */
  function Abs(i: int): (n: nat)
    ensures n == i || n == -i
  {
    if i < 0 then -i else i
  }

  /** `str(i)` is a minus sign exactly for a negative `i`, then the numeral of its magnitude. */
  lemma IntToStringShape(i: int)
    ensures IntToString(i) != [] && (IntToString(i)[0] == '-' <==> i < 0)
    ensures IntToString(i)[(if i < 0 then 1 else 0)..] == NatToString(Abs(i))
  {
    NatToStringDigits(Abs(i));
  }

  /** `str` is injective: two integers with the same text are equal. */
  lemma IntToStringInjective(a: int, b: int)
    requires IntToString(a) == IntToString(b)
    ensures a == b
  {
    IntToStringShape(a);
    IntToStringShape(b);
    NatToStringDigits(Abs(a));
    NatToStringDigits(Abs(b));
  }

  function Pow10(k: nat): (p: nat)
    ensures p >= 1
  {
    if k == 0 then 1 else 10 * Pow10(k - 1)
  }

  /** The numeral of `n` has at most `k` digits exactly when `n < 10^k`, so
      `MaxStrDigits` admits exactly the magnitudes below 10^4300. */
  lemma {:induction false} NatToStringLength(n: nat, k: nat)
    requires k >= 1
    ensures |NatToString(n)| <= k <==> n < Pow10(k)
    decreases n
  {
    if n >= 10 {
      if k == 1 {
        assert |NatToString(n)| == |NatToString(n / 10)| + 1;
      } else {
        NatToStringLength(n / 10, k - 1);
        assert |NatToString(n)| == |NatToString(n / 10)| + 1;
        assert Pow10(k) == 10 * Pow10(k - 1);
      }
    } else {
      assert Pow10(k) == 10 * Pow10(k - 1);
    }
  }

  /** `int(str(i))`: the text of an integer reads back as that integer exactly
      when its numeral has at most `MaxStrDigits` digits; a longer one raises. */
  lemma ParseIntToString(i: int)
    ensures ParseInt(IntToString(i)) ==
              if |NatToString(Abs(i))| <= MaxStrDigits then Some(i) else None
  {
    NatToStringDigits(Abs(i));
    IntToStringShape(i);
    if i < 0 {
      assert IntToString(i)[1..] == NatToString(-i);
    }
  }

  /** `int(ws + str(i) + ws)`: the numeral of an integer, with any blanks `int()`
      skips on either side, reads back as that integer exactly when it has at
      most `MaxStrDigits` digits. */
  lemma PyIntPadded(a: string, i: int, c: string)
    requires AllBlank(IntBlanks, a) && AllBlank(IntBlanks, c)
    ensures PyInt(a + IntToString(i) + c) ==
              if |NatToString(Abs(i))| <= MaxStrDigits then Some(i) else None
  {
    var m := IntToString(i);
    NatToStringDigits(Abs(i));
    IntToStringShape(i);
    assert IsDigit(m[|m| - 1]);
    TrimPadded(IntBlanks, a, m, c);
    ParseIntToString(i);
  }

  /** `int()` refuses a run of more than `MaxStrDigits` digits, even one whose
      value is small because it starts with zeros. */
  lemma PyIntRefusesLongNumerals(s: string)
    requires AllDigits(s) && |s| > MaxStrDigits
    ensures PyInt(s) == None
  {
    assert !IsBlank(IntBlanks, s[0]) && !IsBlank(IntBlanks, s[|s| - 1]);
    TrimUnpadded(IntBlanks, s);
  }

  /** `int()` does not skip the separators U+001C..U+001F that `str.strip()`
      removes: a string starting with one is no integer (`int("\x1c7")` raises),
      although stripping it drops that character (`"\x1c7".strip()` is `"7"`). */
  lemma PyIntKeepsSeparators(s: string)
    requires s != [] && '\U{1C}' <= s[0] <= '\U{1F}'
    ensures PyInt(s) == None
    ensures Strip(s) == Strip(s[1..])
  {
    assert !IsBlank(IntBlanks, s[0]) && !IsDigit(s[0]) && s[0] != '-' && s[0] != '+';
    assert TrimLeft(IntBlanks, s) == s;
    var r := Trim(IntBlanks, s);
    if r != [] {
      assert r[0] == s[0];
      assert !AllDigits(r);
    }
    assert TrimLeft(StrBlanks, s) == TrimLeft(StrBlanks, s[1..]);
  }

  /** `t` occurs in `s` at index `i`. */
  predicate OccursAt(s: string, t: string, i: nat) {
    i + |t| <= |s| && s[i..i + |t|] == t
  }

  /** Equal strings with the same start are equal after it. */
  lemma CancelPrefix(p: string, x: string, y: string)
    requires p + x == p + y
    ensures x == y
  {
    assert x == (p + x)[|p|..];
    assert y == (p + y)[|p|..];
  }

  /** Equal strings with the same end are equal before it. */
  lemma CancelSuffix(x: string, y: string, t: string)
    requires x + t == y + t
    ensures x == y
  {
    assert x == (x + t)[..|x|];
    assert y == (y + t)[..|y|];
  }

  /** `"".join(parts)`: the parts one after the other; an f-string made of
      adjacent pieces is the join of those pieces. */
  function Join(parts: seq<string>): (r: string)
  {
    if parts == [] then [] else parts[0] + Join(parts[1..])
  }

  /** A join of three parts is their concatenation. */
  lemma JoinThree(a: string, b: string, c: string)
    ensures Join([a, b, c]) == a + (b + c)
  {
    assert [a, b, c][1..] == [b, c] && [b, c][1..] == [c] && [c][1..] == [];
    assert Join([c]) == c + [] == c;
  }

  /** Each part of a join occurs in it right after the parts before it. */
  lemma {:induction false} JoinOccurs(parts: seq<string>, k: nat)
    requires k < |parts|
    ensures OccursAt(Join(parts), parts[k], |Join(parts[..k])|)
  {
    var rest := Join(parts[1..]);
    if k == 0 {
      assert Join(parts[..0]) == [];
      assert (parts[0] + rest)[..|parts[0]|] == parts[0];
    } else {
      JoinOccurs(parts[1..], k - 1);
      assert parts[..k][0] == parts[0] && parts[..k][1..] == parts[1..][..k - 1];
      var before := Join(parts[1..][..k - 1]);
      assert |Join(parts[..k])| == |parts[0]| + |before|;
      var i := |before|;
      assert rest[i..i + |parts[k]|] == parts[k];
      assert (parts[0] + rest)[|parts[0]| + i..|parts[0]| + i + |parts[k]|] == rest[i..i + |parts[k]|];
    }
  }
}
