/** Python string operations used by all three harness variants, over
    `seq<char>`: `strip`, `upper`, `lower`, `startswith`, `in` (substring),
    `split`, `isdigit`, `int` and decimal formatting. */
module Text {

  datatype Option<+T> = None | Some(value: T)

  datatype Result<+T, +E> = Ok(value: T) | Err(error: E)

  /** Python's `str.isspace` for one character. */
  predicate IsSpace(c: char) {
    c == ' ' || ('\t' <= c <= '\r') || ('\U{1c}' <= c <= '\U{1f}')
    || c == '\U{85}' || c == '\U{a0}' || c == '\U{1680}'
    || ('\U{2000}' <= c <= '\U{200a}') || c == '\U{2028}' || c == '\U{2029}'
    || c == '\U{202f}' || c == '\U{205f}' || c == '\U{3000}'
  }

  predicate AllSpace(s: string) {
    forall i :: 0 <= i < |s| ==> IsSpace(s[i])
  }

  /** Python's `s.lstrip()`: a suffix of `s`. */
  function TrimLeft(s: string): (r: string)
    ensures |r| <= |s|
  {
    if s == [] || !IsSpace(s[0]) then s
    else TrimLeft(s[1..])
  }

  /** Python's `s.rstrip()`: a prefix of `s`. */
  function TrimRight(s: string): (r: string)
    ensures |r| <= |s|
  {
    if s == [] || !IsSpace(s[|s| - 1]) then s
    else TrimRight(s[..|s| - 1])
  }

  /** `lstrip` removes only whitespace, and all of the leading whitespace. */
  lemma {:induction false} TrimLeftShape(s: string)
    ensures TrimLeft(s) == s[|s| - |TrimLeft(s)|..]
    ensures AllSpace(s[..|s| - |TrimLeft(s)|])
    ensures TrimLeft(s) == [] || !IsSpace(TrimLeft(s)[0])
    decreases |s|
  {
    if s != [] && IsSpace(s[0]) {
      var r := TrimLeft(s[1..]);
      TrimLeftShape(s[1..]);
      assert s[..|s| - |r|] == [s[0]] + s[1..][..|s[1..]| - |r|];
    }
  }

  /** `rstrip` removes only whitespace, and all of the trailing whitespace. */
  lemma {:induction false} TrimRightShape(s: string)
    ensures TrimRight(s) == s[..|TrimRight(s)|]
    ensures AllSpace(s[|TrimRight(s)|..])
    ensures TrimRight(s) == [] || !IsSpace(TrimRight(s)[|TrimRight(s)| - 1])
    decreases |s|
  {
    if s != [] && IsSpace(s[|s| - 1]) {
      var r := TrimRight(s[..|s| - 1]);
      TrimRightShape(s[..|s| - 1]);
      assert s[|r|..] == s[..|s| - 1][|r|..] + [s[|s| - 1]];
    }
  }

  /** Python's `s.strip()`: both ends lose their whitespace. */
  function Strip(s: string): (r: string)
    ensures |r| <= |s|
  {
    TrimRight(TrimLeft(s))
  }

  /** `Strip(s)` is `s` with an all-whitespace prefix and suffix removed,
      and has no whitespace at either end. */
  lemma StripShape(s: string)
    ensures exists i, j :: 0 <= i <= j <= |s| && Strip(s) == s[i..j]
                           && AllSpace(s[..i]) && AllSpace(s[j..])
    ensures Strip(s) == [] || (!IsSpace(Strip(s)[0]) && !IsSpace(Strip(s)[|Strip(s)| - 1]))
  {
    var l := TrimLeft(s);
    var r := TrimRight(l);
    TrimLeftShape(s);
    TrimRightShape(l);
    var i := |s| - |l|;
    var j := i + |r|;
    assert r == s[i..j];
    assert s[j..] == l[|r|..];
  }

  lemma TrimLeftNoop(s: string)
    requires s == [] || !IsSpace(s[0])
    ensures TrimLeft(s) == s
  {}

  lemma TrimRightNoop(s: string)
    requires s == [] || !IsSpace(s[|s| - 1])
    ensures TrimRight(s) == s
  {}

  /** A string without whitespace at its ends is its own `strip()`. */
  lemma StripNoop(s: string)
    requires s == [] || (!IsSpace(s[0]) && !IsSpace(s[|s| - 1]))
    ensures Strip(s) == s
  {
    TrimLeftNoop(s);
    TrimRightNoop(s);
  }

  /** Empty, or starting with a non-space character. */
  predicate LeadsWithText(s: string) {
    s == [] || !IsSpace(s[0])
  }

  /** A string starting with a non-space character does not strip to "". */
  lemma StripKeepsText(s: string)
    requires s != [] && !IsSpace(s[0])
    ensures Strip(s) != []
  {
    TrimLeftNoop(s);
    TrimRightShape(s);
    var k := |TrimRight(s)|;
    assert k < |s| ==> IsSpace(s[k..][0]) && s[k..][0] == s[k];
  }

  /** `strip()` is idempotent. */
  lemma StripIdempotent(s: string)
    ensures Strip(Strip(s)) == Strip(s)
  {
    StripShape(s);
    StripNoop(Strip(s));
  }

  /** `TrimRight` of a string whose first character is not whitespace keeps that character. */
  lemma TrimRightKeepsHead(c: char, t: string)
    requires !IsSpace(c)
    ensures TrimRight([c] + t) == [c] + TrimRight(t)
    decreases |t|
  {
    if t != [] && IsSpace(t[|t| - 1]) {
      assert ([c] + t)[..|[c] + t| - 1] == [c] + t[..|t| - 1];
      TrimRightKeepsHead(c, t[..|t| - 1]);
    }
  }

  /** Stripping `p + v` where `p` starts and ends with non-whitespace
      characters only trims `v` on the right. */
  lemma StripTaggedPrefix(p: string, v: string)
    requires |p| > 0 && !IsSpace(p[0])
    ensures Strip(p + v) == TrimRight(p + v)
    ensures StartsWith(p + v, p)
  {
    assert (p + v)[0] == p[0];
    TrimLeftNoop(p + v);
    assert (p + v)[..|p|] == p;
  }

  /** `TrimRight` of `p + v` leaves `p` in place when the last character of `p` is not whitespace. */
  lemma TrimRightAppend(p: string, v: string)
    requires |p| > 0 && !IsSpace(p[|p| - 1])
    ensures TrimRight(p + v) == p + TrimRight(v)
    decreases |v|
  {
    if v == [] {
      assert p + v == p;
      assert p + TrimRight(v) == p;
    } else if IsSpace(v[|v| - 1]) {
      assert (p + v)[..|p + v| - 1] == p + v[..|v| - 1];
      TrimRightAppend(p, v[..|v| - 1]);
    } else {
      assert (p + v)[|p + v| - 1] == v[|v| - 1];
    }
  }

  function UpperChar(c: char): char {
    if 'a' <= c <= 'z' then (c as int - 32) as char else c
  }

  function LowerChar(c: char): char {
    if 'A' <= c <= 'Z' then (c as int + 32) as char else c
  }

  /** Python's `str.upper()` on the ASCII letters. */
  function Upper(s: string): (r: string)
    ensures |r| == |s|
  {
    seq(|s|, i requires 0 <= i < |s| => UpperChar(s[i]))
  }

  /** Python's `str.lower()` on the ASCII letters. */
  function Lower(s: string): (r: string)
    ensures |r| == |s|
  {
    seq(|s|, i requires 0 <= i < |s| => LowerChar(s[i]))
  }

  /** A string without lower-case ASCII letters is its own `upper()`. */
  lemma UpperNoop(s: string)
    requires forall i :: 0 <= i < |s| ==> !('a' <= s[i] <= 'z')
    ensures Upper(s) == s
  {}

  lemma UpperIdempotent(s: string)
    ensures Upper(Upper(s)) == Upper(s)
  {}

  lemma LowerIdempotent(s: string)
    ensures Lower(Lower(s)) == Lower(s)
  {}

  /** Case mapping never turns whitespace into non-whitespace or back. */
  lemma CaseKeepsSpace(c: char)
    ensures IsSpace(UpperChar(c)) == IsSpace(c)
    ensures IsSpace(LowerChar(c)) == IsSpace(c)
  {}

  lemma TrimLeftUpper(s: string)
    ensures TrimLeft(Upper(s)) == Upper(TrimLeft(s))
    decreases |s|
  {
    if s != [] {
      CaseKeepsSpace(s[0]);
      assert Upper(s)[1..] == Upper(s[1..]);
      TrimLeftUpper(s[1..]);
    }
  }

  lemma TrimRightUpper(s: string)
    ensures TrimRight(Upper(s)) == Upper(TrimRight(s))
    decreases |s|
  {
    if s != [] {
      CaseKeepsSpace(s[|s| - 1]);
      assert Upper(s)[..|s| - 1] == Upper(s[..|s| - 1]);
      TrimRightUpper(s[..|s| - 1]);
    }
  }

  /** Upper-casing and stripping commute, so `k.upper().strip()` and
      `k.strip().upper()` normalise a keyword to the same name. */
  lemma StripUpperCommute(s: string)
    ensures Strip(Upper(s)) == Upper(Strip(s))
  {
    TrimLeftUpper(s);
    TrimRightUpper(TrimLeft(s));
  }

  lemma TrimLeftLower(s: string)
    ensures TrimLeft(Lower(s)) == Lower(TrimLeft(s))
    decreases |s|
  {
    if s != [] {
      CaseKeepsSpace(s[0]);
      assert Lower(s)[1..] == Lower(s[1..]);
      TrimLeftLower(s[1..]);
    }
  }

  lemma TrimRightLower(s: string)
    ensures TrimRight(Lower(s)) == Lower(TrimRight(s))
    decreases |s|
  {
    if s != [] {
      CaseKeepsSpace(s[|s| - 1]);
      assert Lower(s)[..|s| - 1] == Lower(s[..|s| - 1]);
      TrimRightLower(s[..|s| - 1]);
    }
  }

  lemma StripLowerCommute(s: string)
    ensures Strip(Lower(s)) == Lower(Strip(s))
  {
    TrimLeftLower(s);
    TrimRightLower(TrimLeft(s));
  }

  /** Python's `s.startswith(p)`. */
  predicate StartsWith(s: string, p: string) {
    |p| <= |s| && forall i :: 0 <= i < |p| ==> s[i] == p[i]
  }

  lemma StartsWithPrefix(s: string, p: string)
    ensures StartsWith(s, p) <==> |p| <= |s| && s[..|p|] == p
  {
    if |p| <= |s| && s[..|p|] == p {
      assert forall i :: 0 <= i < |p| ==> s[..|p|][i] == s[i];
    }
  }

  /** Python's `needle in hay` for strings. */
  predicate Contains(hay: string, needle: string)
    ensures Contains(hay, needle) ==> |needle| <= |hay|
    decreases |hay|
  {
    StartsWith(hay, needle) || (|hay| > 0 && Contains(hay[1..], needle))
  }

  /** `needle` occurs in `hay` starting at index `i`. */
  predicate OccursAt(hay: string, needle: string, i: int) {
    0 <= i && i + |needle| <= |hay| && hay[i..i + |needle|] == needle
  }

  /** Containment means some window of `hay` is `needle`. */
  lemma {:induction false} ContainsWindow(hay: string, needle: string)
    ensures Contains(hay, needle) <==> exists i :: OccursAt(hay, needle, i)
    decreases |hay|
  {
    if StartsWith(hay, needle) {
      assert OccursAt(hay, needle, 0);
    } else if |hay| > 0 {
      ContainsWindow(hay[1..], needle);
      if exists i :: OccursAt(hay, needle, i) {
        var i :| OccursAt(hay, needle, i);
        assert i != 0;
        assert hay[1..][i - 1..i - 1 + |needle|] == hay[i..i + |needle|];
        assert OccursAt(hay[1..], needle, i - 1);
      }
      if Contains(hay[1..], needle) {
        var i :| OccursAt(hay[1..], needle, i);
        assert hay[i + 1..i + 1 + |needle|] == hay[1..][i..i + |needle|];
        assert OccursAt(hay, needle, i + 1);
      }
    }
  }

  /** Containment is implied by equality and by being embedded. */
  lemma ContainsEmbedded(a: string, n: string, b: string)
    ensures Contains(a + n + b, n)
  {
    var h := a + n + b;
    assert h[|a|..|a| + |n|] == n;
    assert OccursAt(h, n, |a|);
    ContainsWindow(h, n);
  }

  lemma ContainsSelf(s: string)
    ensures Contains(s, s)
  {
    assert s[..|s|] == s;
  }

  lemma ContainsEmpty(s: string)
    ensures Contains(s, "")
  {
    assert s[..0] == "";
  }

  /** Index of the first `c` in `s`, or `|s|` when there is none. */
  function IndexOf(s: string, c: char): (i: nat)
    ensures i <= |s|
    ensures i < |s| ==> s[i] == c
    ensures forall k :: 0 <= k < i ==> s[k] != c
  {
    if s == [] then 0
    else if s[0] == c then 0
    else 1 + IndexOf(s[1..], c)
  }

  /** Python's `s.split(c)` for a one-character separator. */
  function Split(s: string, c: char): (r: seq<string>)
    ensures |r| >= 1
    ensures forall k :: 0 <= k < |r| ==> c !in r[k]
    decreases |s|
  {
    var i := IndexOf(s, c);
    if i == |s| then [s]
    else [s[..i]] + Split(s[i + 1..], c)
  }

  /** Joining with the separator, the inverse of `Split`. */
  function Join(parts: seq<string>, c: char): string {
    if parts == [] then ""
    else if |parts| == 1 then parts[0]
    else parts[0] + [c] + Join(parts[1..], c)
  }

  /** `Join(Split(s, c), c) == s`: splitting loses nothing. */
  lemma {:induction false} SplitJoin(s: string, c: char)
    ensures Join(Split(s, c), c) == s
    decreases |s|
  {
    var i := IndexOf(s, c);
    if i < |s| {
      var rest := Split(s[i + 1..], c);
      SplitJoin(s[i + 1..], c);
      assert Join(Split(s, c), c) == s[..i] + [c] + Join(rest, c) by {
        assert Split(s, c) == [s[..i]] + rest;
        assert ([s[..i]] + rest)[1..] == rest;
      }
      assert s == s[..i] + [c] + s[i + 1..];
    }
  }

  /** `Split(Join(parts, c), c) == parts` when no part holds the separator. */
  lemma {:induction false} JoinSplit(parts: seq<string>, c: char)
    requires |parts| >= 1
    requires forall k :: 0 <= k < |parts| ==> c !in parts[k]
    ensures Split(Join(parts, c), c) == parts
    decreases |parts|
  {
    if |parts| > 1 {
      var s := Join(parts, c);
      var p := parts[0];
      assert s == p + [c] + Join(parts[1..], c);
      assert s[|p|] == c;
      assert forall k :: 0 <= k < |p| ==> s[k] == p[k];
      assert IndexOf(s, c) == |p|;
      assert s[..|p|] == p;
      assert s[|p| + 1..] == Join(parts[1..], c);
      JoinSplit(parts[1..], c);
    }
  }

  /** Python's `s.split(c, 1)`. */
  function SplitOnce(s: string, c: char): (r: seq<string>)
    ensures 1 <= |r| <= 2
    ensures |r| == 1 <==> c !in s
    ensures |r| == 1 ==> r[0] == s
    ensures |r| == 2 ==> c !in r[0] && s == r[0] + [c] + r[1]
  {
    var i := IndexOf(s, c);
    if i == |s| then [s]
    else
      assert s == s[..i] + [c] + s[i + 1..];
      [s[..i], s[i + 1..]]
  }

  /** Splitting `a + c + b` once at `c`, when `a` holds no `c`, gives back `a` and `b`. */
  lemma SplitOnceJoined(a: string, c: char, b: string)
    requires c !in a
    ensures SplitOnce(a + [c] + b, c) == [a, b]
  {
    var s := a + [c] + b;
    assert s[|a|] == c;
    assert forall k :: 0 <= k < |a| ==> s[k] == a[k];
    var i := IndexOf(s, c);
    assert i == |a|;
    assert s[..i] == a && s[i + 1..] == b;
  }

  predicate IsDigit(c: char) {
    '0' <= c <= '9'
  }

  /** Python's `str.isdigit()` on ASCII digits: non-empty and all digits. */
  predicate IsDigits(s: string) {
    |s| > 0 && forall i :: 0 <= i < |s| ==> IsDigit(s[i])
  }

  function DigitValue(c: char): nat
    requires IsDigit(c)
  {
    c as int - '0' as int
  }

  /** The value of a string of decimal digits. */
  function DigitsValue(s: string): nat
    requires forall i :: 0 <= i < |s| ==> IsDigit(s[i])
  {
    if s == [] then 0
    else DigitsValue(s[..|s| - 1]) * 10 + DigitValue(s[|s| - 1])
  }

  /** Python's `int(s)` on ASCII text: surrounding whitespace, then an
      optional sign, then at least one digit; anything else is `None`
      (the ValueError). */
  function ParseInt(s: string): (r: Option<int>)
    ensures IsDigits(s) ==> r == Some(DigitsValue(s))
  {
    var t := Strip(s);
    if IsDigits(s) then
      StripNoop(s);
      Some(DigitsValue(s))
    else if IsDigits(t) then Some(DigitsValue(t))
    else if |t| > 1 && t[0] == '-' && IsDigits(t[1..]) then Some(0 - DigitsValue(t[1..]) as int)
    else if |t| > 1 && t[0] == '+' && IsDigits(t[1..]) then Some(DigitsValue(t[1..]))
    else None
  }

  /** The quote `repr` puts around a string: `"` when the string holds
      a `'` and no `"`, `'` otherwise. */
  function ReprQuote(s: string): (q: char)
    ensures q == '\'' || q == '"'
    ensures q == '"' <==> '\'' in s && '"' !in s
  {
    if '\'' in s && '"' !in s then '"' else '\''
  }

  /** A lower-case hexadecimal digit. */
  function HexDigit(n: nat): char
    requires n < 16
  {
    if n < 10 then '0' + n as char else 'a' + (n - 10) as char
  }

  /** The value of a hexadecimal digit `repr` writes, if it is one. */
  function HexValue(c: char): Option<nat> {
    if '0' <= c <= '9' then Some(c as int - '0' as int)
    else if 'a' <= c <= 'f' then Some(c as int - 'a' as int + 10)
    else None
  }

  /** A character `repr` writes as it is: printable ASCII, or a printable
      character above U+00A0 other than the soft hyphen U+00AD. */
  predicate ReprPrintable(c: char) {
    0x20 <= c as int < 0x7f || (c as int > 0xa0 && c as int != 0xad)
  }

  /** How `repr` writes one character of a string quoted with `q`: the
      quote and the backslash escaped, `\t`, `\n` and `\r`, a printable
      character as it is, any other as `\xhh`. */
  function ReprChar(c: char, q: char): (r: string)
    ensures |r| >= 1
  {
    if c == q || c == '\\' then ['\\', c]
    else if c == '\t' then "\\t"
    else if c == '\n' then "\\n"
    else if c == '\r' then "\\r"
    else if ReprPrintable(c) then [c]
    else "\\x" + [HexDigit(c as int / 16), HexDigit(c as int % 16)]
  }

  /** The characters of a string as `repr` writes them between its quotes. */
  function ReprBody(s: string, q: char): (r: string)
    ensures |r| >= |s|
  {
    if s == [] then [] else ReprChar(s[0], q) + ReprBody(s[1..], q)
  }

  /** Python's `repr(s)` of a string. */
  function Repr(s: string): (r: string)
    ensures |r| >= |s| + 2 && r[0] == r[|r| - 1] == ReprQuote(s)
  {
    [ReprQuote(s)] + ReprBody(s, ReprQuote(s)) + [ReprQuote(s)]
  }

  /** Reading back what `repr` wrote between the quotes: a backslash
      followed by `t`, `n`, `r`, `x` and two hexadecimal digits, or any
      other character stands for the character it escapes. */
  function Unescape(t: string): string
    decreases |t|
  {
    if t == [] then []
    else if t[0] == '\\' && |t| >= 2 then
      if t[1] == 't' then "\t" + Unescape(t[2..])
      else if t[1] == 'n' then "\n" + Unescape(t[2..])
      else if t[1] == 'r' then "\r" + Unescape(t[2..])
      else if t[1] == 'x' && |t| >= 4 && HexValue(t[2]).Some? && HexValue(t[3]).Some? then
        [(HexValue(t[2]).value * 16 + HexValue(t[3]).value) as char] + Unescape(t[4..])
      else [t[1]] + Unescape(t[2..])
    else [t[0]] + Unescape(t[1..])
  }

  /** Unescaping the written form of one character gives it back. */
  lemma UnescapeChar(c: char, q: char, rest: string)
    requires q == '\'' || q == '"'
    ensures Unescape(ReprChar(c, q) + rest) == [c] + Unescape(rest)
  {
    var t := ReprChar(c, q) + rest;
    if c == q || c == '\\' {
      assert t[2..] == rest;
    } else if c == '\t' || c == '\n' || c == '\r' {
      assert t[2..] == rest;
    } else if ReprPrintable(c) {
      assert t[1..] == rest;
    } else {
      var n := c as int;
      assert HexValue(HexDigit(n / 16)) == Some(n / 16);
      assert HexValue(HexDigit(n % 16)) == Some(n % 16);
      assert t[4..] == rest;
    }
  }

  /** `repr` loses nothing: its escapes read back as the string. */
  lemma {:induction false} ReprBodyUnescapes(s: string, q: char)
    requires q == '\'' || q == '"'
    ensures Unescape(ReprBody(s, q)) == s
  {
    if s != [] {
      UnescapeChar(s[0], q, ReprBody(s[1..], q));
      ReprBodyUnescapes(s[1..], q);
    }
  }

  /** A string of printable characters without a backslash or a quote is
      written as it is. */
  lemma {:induction false} ReprBodyPlain(s: string, q: char)
    requires forall i :: 0 <= i < |s| ==> ReprPrintable(s[i]) && s[i] != '\\' && s[i] != q
    ensures ReprBody(s, q) == s
  {
    if s != [] {
      ReprBodyPlain(s[1..], q);
    }
  }

  /** Such a string is quoted with `'`, or with `"` when it holds a `'`
      and no `"`. */
  lemma ReprPlain(s: string)
    requires forall i :: 0 <= i < |s| ==> ReprPrintable(s[i]) && s[i] != '\\' && s[i] != '\'' && s[i] != '"'
    ensures Repr(s) == "'" + s + "'"
  {
    ReprBodyPlain(s, '\'');
  }

  /** A text of printable characters without a backslash or a `"` that
      holds a `'` is written between `"`. */
  lemma ReprDoubleQuoted(s: string)
    requires forall i :: 0 <= i < |s| ==> ReprPrintable(s[i]) && s[i] != '\\' && s[i] != '"'
    requires '\'' in s
    ensures Repr(s) == "\"" + s + "\""
  {
    ReprBodyPlain(s, '"');
  }

  /** `repr("it's")` is quoted with `"`, since the text holds a `'` and no `"`. */
  lemma ReprDoubleQuotesExample()
    ensures Repr("it's") == "\"it's\""
  {
    var s := "it's";
    assert s == ['i', 't', '\'', 's'];
    assert ReprQuote(s) == '"' by { assert s[2] == '\''; }
    ReprBodyPlain(s, '"');
  }

  /** `repr("ten")` is quoted with `'`. */
  lemma ReprSingleQuotesExample()
    ensures Repr("ten") == "'ten'"
  {
    ReprPlain("ten");
  }

  /** The message of the ValueError `int(v)` raises for text that is not
      an integer: `repr(v)` cut after 200 characters. */
  function IntError(v: string): (m: string)
    ensures var prefix := "invalid literal for int() with base 10: ";
            |prefix| <= |m| <= |prefix| + 200 && m[..|prefix|] == prefix
            && (|Repr(v)| <= 200 ==> m[|prefix|..] == Repr(v))
            && (|Repr(v)| > 200 ==> m[|prefix|..] == Repr(v)[..200])
  {
    var r := Repr(v);
    "invalid literal for int() with base 10: " + (if |r| <= 200 then r else r[..200])
  }

  /** Decimal text of a natural number (Python's `str(n)`). */
  function NatToString(n: nat): (r: string)
    ensures IsDigits(r) && DigitsValue(r) == n
    decreases n
  {
    var d := ['0' + (n % 10) as char];
    if n < 10 then d
    else
      var p := NatToString(n / 10);
      assert (p + d)[..|p + d| - 1] == p;
      p + d
  }

  /** Decimal text of an integer (Python's `str(i)`). */
  function IntToString(i: int): string {
    if i < 0 then "-" + NatToString(-i) else NatToString(i)
  }

  /** Python truthiness of a string-or-None cell. */
  predicate Truthy(o: Option<string>) {
    o.Some? && o.value != ""
  }

  /** Python's `str(v)` of a string-or-None value. */
  function PyStr(o: Option<string>): string {
    if o.Some? then o.value else "None"
  }

  /** Python's `a or b` on string-or-None values. */
  function Or(a: Option<string>, b: Option<string>): (r: Option<string>)
    ensures Truthy(a) ==> r == a
    ensures !Truthy(a) ==> r == b
  {
    if Truthy(a) then a else b
  }

  /** `[x.strip() for x in xs]`. */
  function StripAll(xs: seq<string>): (r: seq<string>)
    ensures |r| == |xs|
  {
    seq(|xs|, k requires 0 <= k < |xs| => Strip(xs[k]))
  }

  /** `[x for x in xs if x]`: the non-empty strings, in order. */
  function NonEmpty(xs: seq<string>): (r: seq<string>)
    ensures |r| <= |xs|
    ensures forall k :: 0 <= k < |r| ==> r[k] != ""
  {
    if xs == [] then []
    else (if xs[0] != "" then [xs[0]] else []) + NonEmpty(xs[1..])
  }

  /** `NonEmpty` keeps every non-empty string ... */
  lemma {:induction false} NonEmptyComplete(xs: seq<string>, k: nat)
    requires k < |xs| && xs[k] != ""
    ensures xs[k] in NonEmpty(xs)
  {
    if k > 0 {
      NonEmptyComplete(xs[1..], k - 1);
    }
  }

  /** ... and nothing that was not there. */
  lemma {:induction false} NonEmptySound(xs: seq<string>, x: string)
    requires x in NonEmpty(xs)
    ensures x in xs
  {
    if xs != [] && !(xs[0] != "" && x == xs[0]) {
      NonEmptySound(xs[1..], x);
    }
  }

  /** Filtering distributes over concatenation, so the order is kept. */
  lemma {:induction false} NonEmptyAppend(a: seq<string>, b: seq<string>)
    ensures NonEmpty(a + b) == NonEmpty(a) + NonEmpty(b)
  {
    if a != [] {
      assert (a + b)[1..] == a[1..] + b;
      NonEmptyAppend(a[1..], b);
    } else {
      assert a + b == b;
    }
  }

  /** `[x for x in xs if keep(x)]`. */
  function Filter<T>(xs: seq<T>, keep: T -> bool): (r: seq<T>)
    ensures |r| <= |xs|
  {
    if xs == [] then []
    else Filter(xs[..|xs| - 1], keep) + (if keep(xs[|xs| - 1]) then [xs[|xs| - 1]] else [])
  }

  /** `Filter` keeps exactly the elements that pass. */
  lemma {:induction false} FilterExactly<T>(xs: seq<T>, keep: T -> bool, x: T)
    ensures x in Filter(xs, keep) <==> x in xs && keep(x)
  {
    if xs != [] {
      FilterExactly(xs[..|xs| - 1], keep, x);
      assert xs == xs[..|xs| - 1] + [xs[|xs| - 1]];
    }
  }

  /** Filtering one more element at the end. */
  lemma FilterSnoc<T>(xs: seq<T>, x: T, keep: T -> bool)
    ensures Filter(xs + [x], keep) == Filter(xs, keep) + (if keep(x) then [x] else [])
  {
    assert (xs + [x])[..|xs|] == xs;
  }

  /** Filtering distributes over concatenation, so the order is kept. */
  lemma {:induction false} FilterAppend<T>(a: seq<T>, b: seq<T>, keep: T -> bool)
    ensures Filter(a + b, keep) == Filter(a, keep) + Filter(b, keep)
    decreases |b|
  {
    if b == [] {
      assert a + b == a;
    } else {
      assert (a + b)[..|a + b| - 1] == a + b[..|b| - 1];
      FilterAppend(a, b[..|b| - 1], keep);
    }
  }

  /** `[f(x) for x in xs if keep(x)]`. */
  function FilterMap<A, B>(xs: seq<A>, keep: A -> bool, f: A -> B): (r: seq<B>)
    ensures |r| <= |xs|
  {
    if xs == [] then []
    else FilterMap(xs[..|xs| - 1], keep, f) + (if keep(xs[|xs| - 1]) then [f(xs[|xs| - 1])] else [])
  }

  /** `FilterMap` returns exactly the images of the elements that pass. */
  lemma {:induction false} FilterMapExactly<A, B>(xs: seq<A>, keep: A -> bool, f: A -> B, y: B)
    ensures y in FilterMap(xs, keep, f) <==> exists i :: 0 <= i < |xs| && keep(xs[i]) && y == f(xs[i])
  {
    if xs != [] {
      var init := xs[..|xs| - 1];
      FilterMapExactly(init, keep, f, y);
      if exists i :: 0 <= i < |init| && keep(init[i]) && y == f(init[i]) {
        var i :| 0 <= i < |init| && keep(init[i]) && y == f(init[i]);
        assert xs[i] == init[i];
      }
      if exists i :: 0 <= i < |xs| && keep(xs[i]) && y == f(xs[i]) {
        var i :| 0 <= i < |xs| && keep(xs[i]) && y == f(xs[i]);
        if i < |init| {
          assert init[i] == xs[i];
        }
      }
    }
  }

  /** `[s.strip() for s in flow.split(',') if s.strip()]`. */
  function CommaNames(flow: string): seq<string> {
    NonEmpty(StripAll(Split(flow, ',')))
  }

  /** The names of a comma-separated list are non-empty, already trimmed
      and free of commas. */
  lemma CommaNamesClean(flow: string, n: string)
    requires n in CommaNames(flow)
    ensures n != "" && Strip(n) == n && ',' !in n
  {
    NonEmptySound(StripAll(Split(flow, ',')), n);
    var parts := Split(flow, ',');
    var k :| 0 <= k < |parts| && n == Strip(parts[k]);
    StripIdempotent(parts[k]);
    StripShape(parts[k]);
    var i, j :| 0 <= i <= j <= |parts[k]| && n == parts[k][i..j];
    assert ',' !in parts[k];
    forall x | 0 <= x < |n|
      ensures n[x] != ','
    {
      assert n[x] == parts[k][i + x];
    }
  }
}
