/**
 * The handful of Python string builtins the integration relies on, with ASCII digits:
 * `str.strip()`, `str.split(sep)`, `int()` and `float()` on decimal text, and the decimal
 * rendering of integers that `str(k)` and `f"{h:02d}"` produce.
 */
module Text {
  import opened Wrappers

  /**
   * The characters `str.isspace()` accepts, which `strip()`, `int()` and `float()` discard:
   * the ASCII controls 9-13 and 28-31, the space, and the Unicode separators (next line,
   * no-break space, ogham space, the spaces 2000-200A, line and paragraph separators,
   * narrow no-break, medium mathematical and ideographic spaces).
   */
  predicate IsSpace(c: char) {
    || ('\t' <= c <= '\r') || ('\U{1C}' <= c <= ' ')
    || c == '\U{85}' || c == '\U{A0}' || c == '\U{1680}'
    || ('\U{2000}' <= c <= '\U{200A}')
    || c == '\U{2028}' || c == '\U{2029}' || c == '\U{202F}' || c == '\U{205F}' || c == '\U{3000}'
  }

  predicate NoSpace(s: string) {
    forall i :: 0 <= i < |s| ==> !IsSpace(s[i])
  }

  function TrimLeft(s: string): (r: string)
    ensures |r| <= |s| && r == s[|s| - |r|..]
    ensures r == [] || !IsSpace(r[0])
    ensures forall i :: 0 <= i < |s| - |r| ==> IsSpace(s[i])
  {
    if |s| > 0 && IsSpace(s[0]) then TrimLeft(s[1..]) else s
  }

  function TrimRight(s: string): (r: string)
    ensures |r| <= |s| && r == s[..|r|]
    ensures r == [] || !IsSpace(r[|r| - 1])
    ensures forall i :: |r| <= i < |s| ==> IsSpace(s[i])
  {
    if |s| > 0 && IsSpace(s[|s| - 1]) then TrimRight(s[..|s| - 1]) else s
  }

  /** `s.strip()`: drops leading and trailing whitespace and keeps the middle untouched. */
  function Strip(s: string): (r: string)
    ensures |r| <= |s|
    ensures r == [] || (!IsSpace(r[0]) && !IsSpace(r[|r| - 1]))
    ensures NoSpace(s) ==> r == s
  {
    TrimRight(TrimLeft(s))
  }

  /**
   * `s.strip()` is the slice of `s` left between its leading and its trailing whitespace:
   * only whitespace lies outside it, and it neither starts nor ends with whitespace.
   */
  lemma StripSlice(s: string)
    ensures var r := Strip(s);
            && (r == [] || (!IsSpace(r[0]) && !IsSpace(r[|r| - 1])))
            && exists i, j :: 0 <= i <= j <= |s| && r == s[i..j]
                              && (forall k :: 0 <= k < i ==> IsSpace(s[k]))
                              && (forall k :: j <= k < |s| ==> IsSpace(s[k]))
  {
    var t := TrimLeft(s);
    SliceBetweenSpaces(s, t, TrimRight(t));
  }

  /** What is left after trimming each end is a slice with only whitespace around it. */
  lemma SliceBetweenSpaces(s: string, t: string, r: string)
    requires |t| <= |s| && t == s[|s| - |t|..] && forall k :: 0 <= k < |s| - |t| ==> IsSpace(s[k])
    requires |r| <= |t| && r == t[..|r|] && forall k :: |r| <= k < |t| ==> IsSpace(t[k])
    ensures exists i, j :: 0 <= i <= j <= |s| && r == s[i..j]
                           && (forall k :: 0 <= k < i ==> IsSpace(s[k]))
                           && (forall k :: j <= k < |s| ==> IsSpace(s[k]))
  {
    var i := |s| - |t|;
    forall k | i + |r| <= k < |s|
      ensures IsSpace(s[k])
    {
      assert s[k] == t[k - i];
    }
    assert r == s[i..i + |r|];
  }

  predicate AllSpace(s: string) {
    forall i :: 0 <= i < |s| ==> IsSpace(s[i])
  }

  /** Leading whitespace before a word that does not start with whitespace is dropped. */
  lemma {:induction false} TrimLeftPadded(l: string, m: string)
    requires AllSpace(l) && |m| > 0 && !IsSpace(m[0])
    ensures TrimLeft(l + m) == m
  {
    if |l| > 0 {
      assert (l + m)[0] == l[0];
      assert (l + m)[1..] == l[1..] + m;
      TrimLeftPadded(l[1..], m);
    } else {
      assert l + m == m;
    }
  }

  /** Trailing whitespace after a word that does not end with whitespace is dropped. */
  lemma {:induction false} TrimRightPadded(m: string, t: string)
    requires AllSpace(t) && |m| > 0 && !IsSpace(m[|m| - 1])
    ensures TrimRight(m + t) == m
  {
    if |t| > 0 {
      var t' := t[..|t| - 1];
      assert (m + t)[|m + t| - 1] == t[|t| - 1];
      assert (m + t)[..|m + t| - 1] == m + t';
      TrimRightPadded(m, t');
    } else {
      assert m + t == m;
    }
  }

  /** `(l + m + t).strip() == m` when `l` and `t` are whitespace and `m` has none at its ends. */
  lemma StripPadded(l: string, m: string, t: string)
    requires AllSpace(l) && AllSpace(t) && |m| > 0 && !IsSpace(m[0]) && !IsSpace(m[|m| - 1])
    ensures Strip(l + m + t) == m
  {
    assert l + m + t == l + (m + t);
    assert (m + t)[0] == m[0];
    TrimLeftPadded(l, m + t);
    TrimRightPadded(m, t);
  }

  /** `s.split(sep)`: every piece between separators, empty pieces included. */
  function Split(s: string, sep: char): (parts: seq<string>)
    ensures |parts| >= 1
    ensures forall i :: 0 <= i < |parts| ==> sep !in parts[i]
  {
    if |s| == 0 then [""]
    else
      var rest := Split(s[1..], sep);
      if s[0] == sep then [""] + rest
      else [[s[0]] + rest[0]] + rest[1..]
  }

  /** `s.split(sep)` has one more piece than `s` has separators. */
  lemma {:induction false} SplitCount(s: string, sep: char)
    ensures |Split(s, sep)| == multiset(s)[sep] + 1
  {
    if |s| > 0 {
      SplitCount(s[1..], sep);
      assert s == [s[0]] + s[1..];
    }
  }

  /** A text without the separator is a single piece. */
  lemma SplitWithoutSep(s: string, sep: char)
    requires sep !in s
    ensures Split(s, sep) == [s]
  {
    SplitCount(s, sep);
    JoinSplit(s, sep);
  }

  /** `sep.join(parts)`, the inverse of `Split`. */
  function Join(parts: seq<string>, sep: char): string
    requires |parts| >= 1
  {
    if |parts| == 1 then parts[0] else parts[0] + [sep] + Join(parts[1..], sep)
  }

  /** Splitting and joining again gives back the original string. */
  lemma {:induction false} JoinSplit(s: string, sep: char)
    ensures Join(Split(s, sep), sep) == s
  {
    if |s| > 0 {
      JoinSplit(s[1..], sep);
      var rest := Split(s[1..], sep);
      if s[0] != sep {
        if |rest| == 1 {
          assert Split(s, sep) == [[s[0]] + rest[0]];
        } else {
          assert Split(s, sep)[1..] == rest[1..];
        }
      } else {
        assert Split(s, sep)[1..] == rest;
      }
    }
  }

  /** A prefix without separators ends up whole in the first piece. */
  lemma {:induction false} SplitPrefix(p: string, tail: string, sep: char)
    requires sep !in p
    ensures Split(p + tail, sep) == [p + Split(tail, sep)[0]] + Split(tail, sep)[1..]
  {
    if |p| > 0 {
      SplitPrefix(p[1..], tail, sep);
      assert (p + tail)[1..] == p[1..] + tail;
      assert [p[0]] + (p[1..] + Split(tail, sep)[0]) == p + Split(tail, sep)[0];
    } else {
      var st := Split(tail, sep);
      assert p + tail == tail;
      assert p + st[0] == st[0];
      assert [st[0]] + st[1..] == st;
    }
  }

  /** Joining pieces that contain no separator and splitting again gives back the pieces. */
  lemma {:induction false} SplitJoin(parts: seq<string>, sep: char)
    requires |parts| >= 1
    requires forall i :: 0 <= i < |parts| ==> sep !in parts[i]
    ensures Split(Join(parts, sep), sep) == parts
  {
    if |parts| == 1 {
      SplitPrefix(parts[0], "", sep);
      assert parts[0] + "" == parts[0];
      assert Split("", sep) == [""];
      assert Split(Join(parts, sep), sep) == [parts[0] + ""];
    } else {
      SplitJoin(parts[1..], sep);
      var tail := [sep] + Join(parts[1..], sep);
      assert parts[0] + [sep] + Join(parts[1..], sep) == parts[0] + tail;
      SplitPrefix(parts[0], tail, sep);
      assert tail[1..] == Join(parts[1..], sep);
      assert Split(tail, sep) == [""] + parts[1..];
      assert parts[0] + "" == parts[0];
      assert [parts[0]] + parts[1..] == parts;
    }
  }

  /** A separator splits the text around it: the pieces of both sides, in order. */
  lemma {:induction false} SplitConcat(a: string, b: string, sep: char)
    ensures Split(a + [sep] + b, sep) == Split(a, sep) + Split(b, sep)
  {
    if |a| == 0 {
      assert a + [sep] + b == [sep] + b;
      assert ([sep] + b)[1..] == b;
    } else {
      assert (a + [sep] + b)[1..] == a[1..] + [sep] + b;
      SplitConcat(a[1..], b, sep);
      if a[0] != sep {
        SplitConsConcat(a[0], Split(a[1..], sep), Split(b, sep));
      }
    }
  }

  /** Gluing a character onto the first of several pieces commutes with appending more pieces. */
  lemma SplitConsConcat(c: char, rest: seq<string>, more: seq<string>)
    requires |rest| >= 1
    ensures [[c] + (rest + more)[0]] + (rest + more)[1..] == ([[c] + rest[0]] + rest[1..]) + more
  {
    assert (rest + more)[1..] == rest[1..] + more;
  }

  lemma {:induction false} JoinAppendChar(parts: seq<string>, c: char, sep: char)
    requires |parts| >= 1
    ensures Join(parts, sep) + [c] == Join(parts[..|parts| - 1] + [parts[|parts| - 1] + [c]], sep)
  {
    var n := |parts|;
    var q := parts[..n - 1] + [parts[n - 1] + [c]];
    if n == 1 {
      assert q == [parts[0] + [c]];
    } else {
      JoinAppendChar(parts[1..], c, sep);
      assert q[0] == parts[0];
      assert q[1..] == parts[1..][..n - 2] + [parts[1..][n - 2] + [c]];
      assert Join(q, sep) == q[0] + [sep] + Join(q[1..], sep);
    }
  }

  /** A character other than the separator, appended, lengthens the last piece. */
  lemma SplitAppendChar(t: string, c: char, sep: char)
    requires c != sep
    ensures var parts := Split(t, sep);
            Split(t + [c], sep) == parts[..|parts| - 1] + [parts[|parts| - 1] + [c]]
  {
    var parts := Split(t, sep);
    var n := |parts|;
    var q := parts[..n - 1] + [parts[n - 1] + [c]];
    JoinSplit(t, sep);
    JoinAppendChar(parts, c, sep);
    assert forall i :: 0 <= i < n ==> sep !in q[i] by {
      forall i | 0 <= i < n
        ensures sep !in q[i]
      {
        if i < n - 1 {
          assert q[i] == parts[i];
        } else {
          assert sep !in parts[n - 1];
          assert forall k :: 0 <= k < |q[i]| ==> q[i][k] != sep by {
            forall k | 0 <= k < |q[i]|
              ensures q[i][k] != sep
            {
              if k < |parts[n - 1]| {
                assert q[i][k] == parts[n - 1][k];
              }
            }
          }
        }
      }
    }
    SplitJoin(q, sep);
  }

  predicate IsDigit(c: char) {
    '0' as int <= c as int <= '9' as int
  }

  /** A non-empty run of ASCII digits. */
  predicate IsDigits(s: string) {
    |s| > 0 && forall i :: 0 <= i < |s| ==> IsDigit(s[i])
  }

  /** The number a run of decimal digits denotes (leading zeros allowed). */
  function DigitsValue(s: string): nat
    requires forall i :: 0 <= i < |s| ==> IsDigit(s[i])
  {
    if |s| == 0 then 0
    else
      assert IsDigit(s[|s| - 1]);
      DigitsValue(s[..|s| - 1]) * 10 + (s[|s| - 1] as int - '0' as int)
  }

  function DigitChar(d: nat): (c: char)
    requires d < 10
    ensures IsDigit(c) && c as int - '0' as int == d
  {
    ('0' as int + d) as char
  }

  /** `str(n)` for a natural number: its shortest decimal digits. */
  function NatToStr(n: nat): (s: string)
    ensures IsDigits(s)
    ensures |s| == 1 <==> n < 10
  {
    if n < 10 then [DigitChar(n)] else NatToStr(n / 10) + [DigitChar(n % 10)]
  }

  lemma {:induction false} NatToStrValue(n: nat)
    ensures DigitsValue(NatToStr(n)) == n
  {
    if n >= 10 {
      NatToStrValue(n / 10);
      var s := NatToStr(n);
      assert s[..|s| - 1] == NatToStr(n / 10);
    }
  }

  /** A number below `10^w` has at most `w` digits. */
  lemma {:induction false} NatToStrLength(n: nat, w: nat)
    requires w >= 1 && n < Pow10(w)
    ensures |NatToStr(n)| <= w
  {
    if n >= 10 {
      NatToStrLength(n / 10, w - 1);
    }
  }

  /** `str(i)` for any integer. */
  function IntToStr(i: int): (s: string)
    ensures |s| > 0
  {
    if i < 0 then "-" + NatToStr(-i) else NatToStr(i)
  }

  /**
   * `int(s)`: optional surrounding whitespace, an optional sign and ASCII digits;
   * anything else is the `ValueError` case, `None`.
   */
  function IntOf(s: string): Option<int> {
    var t := Strip(s);
    if |t| > 0 && (t[0] == '-' || t[0] == '+') then
      if IsDigits(t[1..]) then
        var v: int := DigitsValue(t[1..]);
        Some(if t[0] == '-' then -v else v)
      else None
    else if IsDigits(t) then Some(DigitsValue(t))
    else None
  }

  /** `int(str(i)) == i`: the stringified integer keys of the cache read back as themselves. */
  lemma IntOfIntToStr(i: int)
    ensures IntOf(IntToStr(i)) == Some(i)
  {
    var s := IntToStr(i);
    assert NoSpace(s);
    if i < 0 {
      assert s[1..] == NatToStr(-i);
      NatToStrValue(-i);
    } else {
      NatToStrValue(i);
    }
  }

  /** A bare digit run is read by `int()` as its decimal value. */
  lemma IntOfDigits(s: string)
    requires IsDigits(s)
    ensures IntOf(s) == Some(DigitsValue(s))
  {
    assert NoSpace(s);
  }

  function Pow10(n: nat): (p: nat)
    ensures p >= 1
  {
    if n == 0 then 1 else 10 * Pow10(n - 1)
  }

  predicate AllDigits(s: string) {
    forall i :: 0 <= i < |s| ==> IsDigit(s[i])
  }

  /** The unsigned part of a decimal literal: `ddd`, `ddd.`, `.ddd` or `ddd.ddd`. */
  function UnsignedDecimal(s: string): Option<real> {
    var parts := Split(s, '.');
    if |parts| == 1 then
      if IsDigits(s) then Some(DigitsValue(s) as real) else None
    else if |parts| == 2 && AllDigits(parts[0]) && AllDigits(parts[1])
            && |parts[0]| + |parts[1]| > 0 then
      Some(DigitsValue(parts[0]) as real + DigitsValue(parts[1]) as real / Pow10(|parts[1]|) as real)
    else None
  }

  /**
   * `float(s)` on a string, restricted to plain decimal notation: surrounding whitespace,
   * an optional sign, digits with at most one decimal point. `None` is the `ValueError` case.
   */
  function DecimalOf(s: string): Option<real> {
    var t := Strip(s);
    if |t| > 0 && (t[0] == '-' || t[0] == '+') then
      match UnsignedDecimal(t[1..])
      case Some(v) => Some(if t[0] == '-' then -v else v)
      case None => None
    else UnsignedDecimal(t)
  }

  /** `float(str(n))` reads a natural number back exactly. */
  lemma DecimalOfNat(n: nat)
    ensures DecimalOf(NatToStr(n)) == Some(n as real)
  {
    var s := NatToStr(n);
    assert NoSpace(s);
    assert '.' !in s;
    SplitPrefix(s, "", '.');
    assert s + "" == s;
    NatToStrValue(n);
  }
}
