/** Character-level operations the query rewrites rely on: ASCII upper-casing
    (`str.upper()`), substring tests and search (`in`, `str.find`), and the
    decimal rendering of integers that f-strings perform (`str(n)`). */
module Text {
  import opened Common

  /** Upper-cases an ASCII lower-case letter and leaves every other character alone. */
  function UpperChar(c: char): char
  {
    if 'a' <= c <= 'z' then (c as int - 32) as char else c
  }

  /** `s.upper()` on ASCII text: same length, every position upper-cased in place. */
  function Upper(s: string): (u: string)
    ensures |u| == |s|
    ensures forall i :: 0 <= i < |s| ==> u[i] == UpperChar(s[i])
  {
    seq(|s|, i requires 0 <= i < |s| => UpperChar(s[i]))
  }

  lemma UpperSlice(s: string, i: nat, j: nat)
    requires i <= j <= |s|
    ensures Upper(s[i..j]) == Upper(s)[i..j]
  {
  }

  lemma UpperConcat(a: string, b: string)
    ensures Upper(a + b) == Upper(a) + Upper(b)
  {
  }

  /** `kw` occurs in `t` starting at index `i`. */
  predicate MatchAt(t: string, kw: string, i: int)
  {
    0 <= i && i + |kw| <= |t| && t[i..i + |kw|] == kw
  }

  /** A match established letter by letter. */
  lemma MatchAtByLetters(t: string, kw: string, i: nat)
    requires i + |kw| <= |t|
    requires forall k :: 0 <= k < |kw| ==> t[i + k] == kw[k]
    ensures MatchAt(t, kw, i)
  {
    assert t[i..i + |kw|] == kw;
  }

  /** No match can start where the first letter of `kw` is missing. */
  lemma NoMatchWithoutFirstLetter(t: string, kw: string, lo: nat, hi: nat)
    requires |kw| > 0 && hi <= |t|
    requires forall j :: lo <= j < hi ==> t[j] != kw[0]
    ensures forall j :: lo <= j < hi ==> !MatchAt(t, kw, j)
  {
    forall j | lo <= j < hi
      ensures !MatchAt(t, kw, j)
    {
      if j + |kw| <= |t| {
        assert t[j..j + |kw|][0] == t[j];
      }
    }
  }

  /** No match can start at `j` when the letter after it differs from the second of `kw`. */
  lemma NoMatchWithoutSecondLetter(t: string, kw: string, j: nat)
    requires |kw| > 1 && j + 1 < |t| && t[j + 1] != kw[1]
    ensures !MatchAt(t, kw, j)
  {
    if j + |kw| <= |t| {
      assert t[j..j + |kw|][1] == t[j + 1];
    }
  }

  /** Python's `kw in t`. */
  predicate Contains(t: string, kw: string)
  {
    exists i | 0 <= i <= |t| :: MatchAt(t, kw, i)
  }

  /** Python's `t.find(kw, start)`: the first index at or after `start`
      where `kw` occurs, or -1 when there is none. */
  function FindFrom(t: string, kw: string, start: nat): (i: int)
    requires start <= |t|
    ensures i == -1 || (start <= i && MatchAt(t, kw, i))
    ensures forall j :: start <= j && (i == -1 || j < i) ==> !MatchAt(t, kw, j)
    decreases |t| - start
  {
    if start + |kw| > |t| then -1
    else if t[start..start + |kw|] == kw then start
    else FindFrom(t, kw, start + 1)
  }

  /** Python's `t.find(kw)`. */
  function Find(t: string, kw: string): (i: int)
    ensures i == -1 <==> !Contains(t, kw)
    ensures i != -1 ==> MatchAt(t, kw, i) && forall j :: 0 <= j < i ==> !MatchAt(t, kw, j)
  {
    FindFrom(t, kw, 0)
  }

  /** A match found before position `i` of `t[..i]` is a match in `t`. */
  lemma MatchInPrefix(t: string, kw: string, i: nat, j: int)
    requires i <= |t| && MatchAt(t[..i], kw, j)
    ensures MatchAt(t, kw, j) && j + |kw| <= i
  {
    assert t[..i][j..j + |kw|] == t[j..j + |kw|];
  }

  /** Cutting `t` just before the first occurrence of `kw` leaves no occurrence of `kw`. */
  lemma {:induction false} NoMatchBeforeFirst(t: string, kw: string, i: nat)
    requires |kw| > 0 && i <= |t|
    requires forall j :: 0 <= j < i ==> !MatchAt(t, kw, j)
    ensures !Contains(t[..i], kw)
  {
    if Contains(t[..i], kw) {
      var j :| 0 <= j <= i && MatchAt(t[..i], kw, j);
      MatchInPrefix(t, kw, i, j);
    }
  }

  /** Absence of `kw` survives taking any prefix. */
  lemma {:induction false} NoMatchInPrefix(t: string, kw: string, p: string)
    requires p <= t && !Contains(t, kw)
    ensures !Contains(p, kw)
  {
    if Contains(p, kw) {
      var j :| 0 <= j <= |p| && MatchAt(p, kw, j);
      assert p == t[..|p|];
      MatchInPrefix(t, kw, |p|, j);
    }
  }

  // ---- decimal rendering, as `str(n)` writes an integer ----

  predicate IsDigit(c: char)
  {
    '0' <= c <= '9'
  }

  function DigitChar(d: nat): (c: char)
    requires d < 10
    ensures IsDigit(c) && c as int - '0' as int == d
  {
    ('0' as int + d) as char
  }

  /** The decimal digits of `n`, most significant first, with no leading zero. */
  function NatStr(n: nat): string
    decreases n
  {
    if n < 10 then [DigitChar(n)] else NatStr(n / 10) + [DigitChar(n % 10)]
  }

  /** `str(n)` for a Python int: a minus sign for negative values, then the digits. */
  function IntStr(n: int): string
  {
    if n < 0 then "-" + NatStr(-n) else NatStr(n)
  }

  predicate AllDigits(s: string)
  {
    forall i :: 0 <= i < |s| ==> IsDigit(s[i])
  }

  /** The value of a string of decimal digits. */
  function DigitsValue(s: string): nat
    requires AllDigits(s)
  {
    if s == [] then 0 else DigitsValue(s[..|s| - 1]) * 10 + (s[|s| - 1] as int - '0' as int)
  }

  /** Python's `int(s)` restricted to an optional minus sign followed by digits. */
  function ParseInt(s: string): Option<int>
  {
    if |s| > 0 && s[0] == '-' then
      if |s| > 1 && AllDigits(s[1..]) then Some(0 - DigitsValue(s[1..])) else None
    else if |s| > 0 && AllDigits(s) then Some(DigitsValue(s))
    else None
  }

  lemma {:induction false} NatStrDigits(n: nat)
    ensures |NatStr(n)| > 0 && AllDigits(NatStr(n)) && DigitsValue(NatStr(n)) == n
    decreases n
  {
    if n >= 10 {
      NatStrDigits(n / 10);
      var s := NatStr(n);
      assert s[..|s| - 1] == NatStr(n / 10);
    }
  }

  /** Rendering an integer and reading it back gives the integer again. */
  lemma IntStrRoundTrip(n: int)
    ensures ParseInt(IntStr(n)) == Some(n)
  {
    if n < 0 {
      NatStrDigits(-n);
      assert IntStr(n)[1..] == NatStr(-n);
    } else {
      NatStrDigits(n);
    }
  }
}
