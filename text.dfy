/**
 * Text: the optional values, results and Python string operations the
 * backend relies on (`x or ""`, `.strip()`, `.lower()`, `.upper()`, `in`,
 * `startswith`, `endswith`, `int(...)` on a digit run and `f"{n:03d}"`).
 * Strings are `seq<char>`; case mapping is the ASCII part of Python's.
 */
module Text {

  datatype Option<T> = None | Some(value: T)

  datatype Result<T, E> = Ok(value: T) | Err(error: E)

  /** Python truthiness of an optional string: `None` and `""` are falsy. */
  predicate Truthy(s: Option<string>)
  {
    s.Some? && s.value != ""
  }

  /** `s or ""` */
  function OrEmpty(s: Option<string>): (r: string)
    ensures Truthy(s) <==> r != ""
  {
    if s.Some? then s.value else ""
  }

  // ---------------------------------------------------------------
  // Case mapping (ASCII letters)
  // ---------------------------------------------------------------

  function LowerChar(c: char): char
  {
    if 'A' <= c <= 'Z' then (c as int + 32) as char else c
  }

  function UpperChar(c: char): char
  {
    if 'a' <= c <= 'z' then (c as int - 32) as char else c
  }

  /** `s.lower()` */
  function Lower(s: string): string
  {
    seq(|s|, i requires 0 <= i < |s| => LowerChar(s[i]))
  }

  /** `s.upper()` */
  function Upper(s: string): string
  {
    seq(|s|, i requires 0 <= i < |s| => UpperChar(s[i]))
  }

  predicate IsLowerCase(s: string)
  {
    forall i | 0 <= i < |s| :: !('A' <= s[i] <= 'Z')
  }

  predicate IsUpperCase(s: string)
  {
    forall i | 0 <= i < |s| :: !('a' <= s[i] <= 'z')
  }

  lemma LowerIsLowerCase(s: string)
    ensures IsLowerCase(Lower(s))
    ensures |Lower(s)| == |s|
  {
  }

  /** Lower-casing a string that has no upper-case letter changes nothing. */
  lemma LowerOfLowerCase(s: string)
    requires IsLowerCase(s)
    ensures Lower(s) == s
  {
  }

  lemma LowerIdempotent(s: string)
    ensures Lower(Lower(s)) == Lower(s)
  {
    LowerIsLowerCase(s);
    LowerOfLowerCase(Lower(s));
  }

  lemma UpperOfUpperCase(s: string)
    requires IsUpperCase(s)
    ensures Upper(s) == s
  {
  }

  lemma UpperIsUpperCase(s: string)
    ensures IsUpperCase(Upper(s))
    ensures |Upper(s)| == |s|
  {
  }

  lemma UpperIdempotent(s: string)
    ensures Upper(Upper(s)) == Upper(s)
  {
    UpperIsUpperCase(s);
    UpperOfUpperCase(Upper(s));
  }

  lemma LowerConcat(a: string, b: string)
    ensures Lower(a + b) == Lower(a) + Lower(b)
  {
  }

  lemma UpperConcat(a: string, b: string)
    ensures Upper(a + b) == Upper(a) + Upper(b)
  {
  }

  // ---------------------------------------------------------------
  // Substrings
  // ---------------------------------------------------------------

  /** `sub` occurs in `s` starting at index `i`. */
  predicate MatchesAt(s: string, i: int, sub: string)
  {
    0 <= i && i + |sub| <= |s| && s[i..i + |sub|] == sub
  }

  /** `sub in s` */
  predicate Contains(s: string, sub: string)
  {
    exists i | 0 <= i <= |s| - |sub| :: MatchesAt(s, i, sub)
  }

  /** `s.startswith(p)` */
  predicate StartsWith(s: string, p: string)
  {
    MatchesAt(s, 0, p)
  }

  /** `s.endswith(p)` */
  predicate EndsWith(s: string, p: string)
  {
    |p| <= |s| && s[|s| - |p|..] == p
  }

  lemma ContainsWitness(s: string, sub: string, i: int)
    requires MatchesAt(s, i, sub)
    ensures Contains(s, sub)
  {
  }

  lemma ContainsOfPrefix(s: string, p: string)
    requires StartsWith(s, p)
    ensures Contains(s, p)
  {
    ContainsWitness(s, p, 0);
  }

  /** An occurrence inside `a` is still one inside `a + b` and `c + a`. */
  lemma ContainsInConcat(a: string, b: string, c: string, sub: string)
    requires Contains(a, sub)
    ensures Contains(c + a + b, sub)
  {
    var i :| 0 <= i <= |a| - |sub| && MatchesAt(a, i, sub);
    assert (c + a + b)[|c| + i..|c| + i + |sub|] == a[i..i + |sub|];
    ContainsWitness(c + a + b, sub, |c| + i);
  }

  /** A string without the `k`-th character of `sub` cannot contain `sub`. */
  lemma NotContainsByChar(s: string, sub: string, k: nat)
    requires k < |sub| && Lacks(s, sub[k])
    ensures !Contains(s, sub)
  {
    forall i | 0 <= i <= |s| - |sub| ensures !MatchesAt(s, i, sub) {
      assert s[i + k] != sub[k];
      assert s[i..i + |sub|][k] == s[i + k];
    }
  }

  /** `c not in s` */
  predicate Lacks(s: string, c: char)
  {
    forall j | 0 <= j < |s| :: s[j] != c
  }

  lemma LacksConcat(a: string, b: string, c: char)
    requires Lacks(a, c) && Lacks(b, c)
    ensures Lacks(a + b, c)
  {
  }

  /** `x + y not in s` for two characters `x` and `y`. */
  predicate LacksPair(s: string, x: char, y: char)
  {
    forall j | 0 <= j < |s| - 1 :: !(s[j] == x && s[j + 1] == y)
  }

  lemma LacksPairConcat(a: string, b: string, x: char, y: char)
    requires LacksPair(a, x, y) && LacksPair(b, x, y)
    requires a == [] || b == [] || !(a[|a| - 1] == x && b[0] == y)
    ensures LacksPair(a + b, x, y)
  {
    var s := a + b;
    forall j | 0 <= j < |s| - 1 ensures !(s[j] == x && s[j + 1] == y) {
      if j + 1 < |a| {
        assert s[j] == a[j] && s[j + 1] == a[j + 1];
      } else if j + 1 == |a| {
        assert s[j] == a[|a| - 1] && s[j + 1] == b[0];
      } else {
        assert s[j] == b[j - |a|] && s[j + 1] == b[j - |a| + 1];
      }
    }
  }

  lemma LowerCaseConcat(a: string, b: string)
    requires IsLowerCase(a) && IsLowerCase(b)
    ensures IsLowerCase(a + b)
  {
  }

  /** A string in which the `k`-th character of `sub` is never followed by the next one cannot contain `sub`. */
  lemma NotContainsByPair(s: string, sub: string, k: nat)
    requires k + 1 < |sub| && LacksPair(s, sub[k], sub[k + 1])
    ensures !Contains(s, sub)
  {
    forall i | 0 <= i <= |s| - |sub| ensures !MatchesAt(s, i, sub) {
      assert s[i..i + |sub|][k] == s[i + k];
      assert s[i..i + |sub|][k + 1] == s[i + k + 1];
    }
  }

  // ---------------------------------------------------------------
  // Whitespace stripping (Python's str.isspace set)
  // ---------------------------------------------------------------

  predicate IsSpace(c: char)
  {
    ('\t' <= c <= '\r') || ('\U{1C}' <= c <= ' ') || c == '\U{85}' || c == '\U{A0}'
    || c == '\U{1680}' || ('\U{2000}' <= c <= '\U{200A}') || c == '\U{2028}' || c == '\U{2029}'
    || c == '\U{202F}' || c == '\U{205F}' || c == '\U{3000}'
  }

  function StripLeft(s: string): (r: string)
    ensures |r| <= |s| && r == s[|s| - |r|..]
    ensures r == [] || !IsSpace(r[0])
    decreases |s|
  {
    if |s| > 0 && IsSpace(s[0]) then StripLeft(s[1..]) else s
  }

  function StripRight(s: string): (r: string)
    ensures |r| <= |s| && r == s[..|r|]
    ensures r == [] || !IsSpace(r[|r| - 1])
    decreases |s|
  {
    if |s| > 0 && IsSpace(s[|s| - 1]) then StripRight(s[..|s| - 1]) else s
  }

  /** `s.strip()` */
  function Strip(s: string): (r: string)
    ensures |r| <= |s|
    ensures r == [] || (!IsSpace(r[0]) && !IsSpace(r[|r| - 1]))
  {
    var l := StripLeft(s);
    var r := StripRight(l);
    assert r != [] ==> r[0] == l[0];
    r
  }

  /** Stripping a string that neither starts nor ends with whitespace changes nothing. */
  lemma StripNoSpace(s: string)
    requires s != [] ==> !IsSpace(s[0]) && !IsSpace(s[|s| - 1])
    ensures Strip(s) == s
  {
  }

  // ---------------------------------------------------------------
  // Decimal digits
  // ---------------------------------------------------------------

  predicate IsDigit(c: char)
  {
    '0' <= c <= '9'
  }

  predicate AllDigits(s: string)
  {
    forall i | 0 <= i < |s| :: IsDigit(s[i])
  }

  function DigitValue(c: char): nat
    requires IsDigit(c)
  {
    c as int - '0' as int
  }

  function DigitChar(d: nat): (c: char)
    requires d < 10
    ensures IsDigit(c) && DigitValue(c) == d
  {
    ('0' as int + d) as char
  }

  /** `int(s)` for a run of ASCII digits, read most significant digit first. */
  function DigitsValue(s: string): nat
    requires AllDigits(s)
    decreases |s|
  {
    if s == [] then 0 else DigitsValue(s[..|s| - 1]) * 10 + DigitValue(s[|s| - 1])
  }

  /** `str(n)` for a natural number: no leading zeros, at least one digit. */
  function NatToString(n: nat): (r: string)
    ensures |r| >= 1 && AllDigits(r)
    decreases n
  {
    if n < 10 then [DigitChar(n)] else NatToString(n / 10) + [DigitChar(n % 10)]
  }

  /** `str(i)` for an integer. */
  function IntToString(i: int): (r: string)
    ensures |r| >= 1
  {
    if i < 0 then "-" + NatToString(-i) else NatToString(i)
  }

  lemma {:induction false} NatToStringRoundTrip(n: nat)
    ensures DigitsValue(NatToString(n)) == n
    decreases n
  {
    if n >= 10 {
      NatToStringRoundTrip(n / 10);
      var s := NatToString(n);
      assert s[..|s| - 1] == NatToString(n / 10);
    }
  }

  /** Distinct numbers print differently. */
  lemma NatToStringInjective(m: nat, n: nat)
    requires NatToString(m) == NatToString(n)
    ensures m == n
  {
    NatToStringRoundTrip(m);
    NatToStringRoundTrip(n);
  }

  lemma {:induction false} NatToStringLength(n: nat)
    ensures n < 10 ==> |NatToString(n)| == 1
    ensures 10 <= n < 100 ==> |NatToString(n)| == 2
    ensures 100 <= n < 1000 ==> |NatToString(n)| == 3
    ensures 1000 <= n ==> |NatToString(n)| >= 4
    decreases n
  {
    if n >= 10 {
      NatToStringLength(n / 10);
    }
  }

  /** Left-pads `s` with `'0'` up to `width` characters. */
  function ZeroPad(s: string, width: nat): (r: string)
    ensures |r| == if |s| >= width then |s| else width
    decreases width - |s|
  {
    if |s| >= width then s else ZeroPad("0" + s, width)
  }

  /** Leading zeros do not change the value of a digit run. */
  lemma {:induction false} LeadingZero(s: string)
    requires AllDigits(s)
    ensures AllDigits("0" + s) && DigitsValue("0" + s) == DigitsValue(s)
    decreases |s|
  {
    var t := "0" + s;
    if s != [] {
      LeadingZero(s[..|s| - 1]);
      assert t[..|t| - 1] == "0" + s[..|s| - 1];
    }
  }

  lemma {:induction false} ZeroPadValue(s: string, width: nat)
    requires AllDigits(s)
    ensures AllDigits(ZeroPad(s, width)) && DigitsValue(ZeroPad(s, width)) == DigitsValue(s)
    decreases width - |s|
  {
    if |s| < width {
      LeadingZero(s);
      ZeroPadValue("0" + s, width);
    }
  }

  /** `f"{i:03d}"`: zero padding to width 3, after the sign for a negative number. */
  function Format03d(i: int): (r: string)
    ensures |r| >= 3
  {
    if i < 0 then "-" + ZeroPad(NatToString(-i), 2) else ZeroPad(NatToString(i), 3)
  }

  /** A number from 0 to 999 prints as exactly three digits that read back as itself. */
  lemma Format03dRoundTrip(n: nat)
    requires n <= 999
    ensures |Format03d(n)| == 3 && AllDigits(Format03d(n)) && DigitsValue(Format03d(n)) == n
  {
    NatToStringLength(n);
    NatToStringRoundTrip(n);
    ZeroPadValue(NatToString(n), 3);
  }

  /** From 1000 on the padding adds nothing: the number prints with four or more digits. */
  lemma Format03dWide(n: nat)
    requires n >= 1000
    ensures Format03d(n) == NatToString(n) && |Format03d(n)| >= 4
  {
    NatToStringLength(n);
  }

  // ---------------------------------------------------------------
  // Splitting on a separator character (`s.split(sep)`)
  // ---------------------------------------------------------------

  /** `s.split(sep)` for a one-character separator: always at least one part, none containing `sep`. */
  function Split(s: string, sep: char): (parts: seq<string>)
    ensures |parts| >= 1
    decreases |s|
  {
    if s == [] then [""]
    else
      var c := s[|s| - 1];
      var p := Split(s[..|s| - 1], sep);
      if c == sep then p + [""]
      else p[..|p| - 1] + [p[|p| - 1] + [c]]
  }

  /** No part contains the separator. */
  lemma {:induction false} SplitPartsLackSeparator(s: string, sep: char)
    ensures forall i | 0 <= i < |Split(s, sep)| :: Lacks(Split(s, sep)[i], sep)
    decreases |s|
  {
    if s != [] {
      var c := s[|s| - 1];
      var p := Split(s[..|s| - 1], sep);
      SplitPartsLackSeparator(s[..|s| - 1], sep);
      if c != sep {
        assert Lacks(p[|p| - 1] + [c], sep);
      }
    }
  }

  /** `sep.join(parts)` */
  function Join(parts: seq<string>, sep: char): string
    requires |parts| >= 1
    decreases |parts|
  {
    if |parts| == 1 then parts[0]
    else Join(parts[..|parts| - 1], sep) + [sep] + parts[|parts| - 1]
  }

  lemma JoinExtendLast(parts: seq<string>, sep: char, c: char)
    requires |parts| >= 1
    ensures var n := |parts|; Join(parts[..n - 1] + [parts[n - 1] + [c]], sep) == Join(parts, sep) + [c]
  {
    var n := |parts|;
    var q := parts[..n - 1] + [parts[n - 1] + [c]];
    if n > 1 {
      assert q[..n - 1] == parts[..n - 1];
    }
  }

  /** Joining the parts gives back the string. */
  lemma {:induction false} JoinOfSplit(s: string, sep: char)
    ensures Join(Split(s, sep), sep) == s
    decreases |s|
  {
    if s != [] {
      var init := s[..|s| - 1];
      var c := s[|s| - 1];
      var p := Split(init, sep);
      JoinOfSplit(init, sep);
      assert s == init + [c];
      if c == sep {
        assert (p + [""])[..|p|] == p;
      } else {
        JoinExtendLast(p, sep, c);
      }
    }
  }

  lemma SplitSnoc(s: string, c: char, sep: char)
    ensures var p := Split(s, sep);
            Split(s + [c], sep) == if c == sep then p + [""] else p[..|p| - 1] + [p[|p| - 1] + [c]]
  {
    assert (s + [c])[..|s|] == s;
  }

  /** Text without the separator extends the last part. */
  lemma {:induction false} SplitAppendPlain(s: string, t: string, sep: char)
    requires Lacks(t, sep)
    ensures var p := Split(s, sep); Split(s + t, sep) == p[..|p| - 1] + [p[|p| - 1] + t]
    decreases |t|
  {
    var p := Split(s, sep);
    if t == [] {
      assert s + t == s;
      assert p[|p| - 1] + t == p[|p| - 1];
      assert p[..|p| - 1] + [p[|p| - 1]] == p;
    } else {
      var u := t[..|t| - 1];
      SplitAppendPlain(s, u, sep);
      assert s + t == (s + u) + [t[|t| - 1]];
      assert u + [t[|t| - 1]] == t;
      SplitExtendLast(s, u, t[|t| - 1], sep);
    }
  }

  lemma SplitExtendLast(s: string, u: string, c: char, sep: char)
    requires c != sep
    requires var p := Split(s, sep); Split(s + u, sep) == p[..|p| - 1] + [p[|p| - 1] + u]
    ensures var p := Split(s, sep); Split((s + u) + [c], sep) == p[..|p| - 1] + [p[|p| - 1] + (u + [c])]
  {
    var p := Split(s, sep);
    var n := |p|;
    var q := p[..n - 1] + [p[n - 1] + u];
    SplitSnoc(s + u, c, sep);
    assert q[..n - 1] == p[..n - 1] && q[n - 1] == p[n - 1] + u;
    assert p[n - 1] + u + [c] == p[n - 1] + (u + [c]);
  }

  /** Splitting joined parts that do not contain the separator gives back the parts. */
  lemma {:induction false} SplitOfJoin(parts: seq<string>, sep: char)
    requires |parts| >= 1 && forall i | 0 <= i < |parts| :: Lacks(parts[i], sep)
    ensures Split(Join(parts, sep), sep) == parts
    decreases |parts|
  {
    var n := |parts|;
    if n == 1 {
      SplitAppendPlain([], parts[0], sep);
      assert [] + parts[0] == parts[0] && "" + parts[0] == parts[0];
      assert Split([], sep) == [""];
    } else {
      var ps := parts[..n - 1];
      SplitOfJoin(ps, sep);
      SplitJoinStep(ps, parts[n - 1], sep);
      InitThenLast(parts);
    }
  }

  /** A non-empty sequence is its prefix without the last element, then that element. */
  lemma InitThenLast<T>(s: seq<T>)
    requires s != []
    ensures s[..|s| - 1] + [s[|s| - 1]] == s
  {
  }

  lemma SplitJoinStep(ps: seq<string>, x: string, sep: char)
    requires |ps| >= 1 && Lacks(x, sep) && Split(Join(ps, sep), sep) == ps
    ensures Split(Join(ps + [x], sep), sep) == ps + [x]
  {
    var parts := ps + [x];
    assert parts[..|ps|] == ps;
    var j := Join(ps, sep) + [sep];
    SplitSnoc(Join(ps, sep), sep, sep);
    assert Join(parts, sep) == j + x;
    SplitAppendPlain(j, x, sep);
    var q := ps + [""];
    assert q[..|q| - 1] == ps && q[|q| - 1] + x == x;
  }
}
