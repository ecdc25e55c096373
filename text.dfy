/**
 * The handful of JavaScript string primitives the core relies on:
 * `trim`, `split` on one character, `toLowerCase`, decimal rendering of
 * numbers and `parseInt`.  Strings are sequences of characters.
 */
module Text {
  import opened Optional

  /** The characters `String.prototype.trim` removes (ECMAScript WhiteSpace and LineTerminator). */
  predicate IsSpace(c: char) {
    c == ' ' || c == '\t' || c == '\n' || c == '\r' || c == '\U{000B}' || c == '\U{000C}'
    || c == '\U{00A0}' || c == '\U{1680}' || ('\U{2000}' <= c <= '\U{200A}')
    || c == '\U{2028}' || c == '\U{2029}' || c == '\U{202F}' || c == '\U{205F}'
    || c == '\U{3000}' || c == '\U{FEFF}'
  }

  /** Every character of `s` is white space (vacuously true of ""). */
  predicate AllSpace(s: string) {
    forall k :: 0 <= k < |s| ==> IsSpace(s[k])
  }

  /** Neither end of `s` is white space: what `trim` guarantees of its result. */
  predicate IsTrimmed(s: string) {
    |s| == 0 || (!IsSpace(s[0]) && !IsSpace(s[|s| - 1]))
  }

  /** Length of the run of white space at the start of `s`. */
  function LeadingSpaces(s: string): (n: nat)
    ensures n <= |s|
    ensures AllSpace(s[..n])
    ensures n < |s| ==> !IsSpace(s[n])
  {
    if |s| > 0 && IsSpace(s[0]) then
      var n := 1 + LeadingSpaces(s[1..]);
      assert s[..n] == [s[0]] + s[1..][..n - 1];
      n
    else 0
  }

  /** Length of the run of white space at the end of `s`. */
  function TrailingSpaces(s: string): (n: nat)
    ensures n <= |s|
    ensures forall k :: |s| - n <= k < |s| ==> IsSpace(s[k])
    ensures AllSpace(s[|s| - n..])
    ensures n < |s| ==> !IsSpace(s[|s| - 1 - n])
  {
    if |s| > 0 && IsSpace(s[|s| - 1]) then
      var t := s[..|s| - 1];
      var m := TrailingSpaces(t);
      assert forall k :: |s| - (m + 1) <= k < |s| - 1 ==> s[k] == t[k];
      m + 1
    else 0
  }

  /** `s.trimStart()`. */
  function TrimStart(s: string): (r: string)
    ensures |r| <= |s|
    ensures |r| == 0 || !IsSpace(r[0])
  {
    s[LeadingSpaces(s)..]
  }

  /** `s.trim()`: white space removed from both ends, nothing else touched. */
  function Trim(s: string): (r: string)
    ensures IsTrimmed(r)
    ensures |r| <= |s|
    ensures r == [] <==> AllSpace(s)
  {
    var t := TrimStart(s);
    var r := t[..|t| - TrailingSpaces(t)];
    assert r == [] <==> AllSpace(s) by {
      var n := LeadingSpaces(s);
      if r == [] {
        assert AllSpace(t) by {
          assert t[|t| - TrailingSpaces(t)..] == t;
        }
        assert s == s[..n] + t;
      }
    }
    r
  }

  /** The "blank" test of the forms: `!s.trim()`. */
  predicate IsBlank(s: string) {
    Trim(s) == []
  }

  /** Prepending white space does not change the leading-space count beyond its length. */
  lemma {:induction false} LeadingSpacesPrefix(a: string, t: string)
    requires AllSpace(a)
    ensures LeadingSpaces(a + t) == |a| + LeadingSpaces(t)
  {
    if |a| > 0 {
      assert (a + t)[1..] == a[1..] + t;
      LeadingSpacesPrefix(a[1..], t);
    } else {
      assert a + t == t;
    }
  }

  /** Appending white space adds its length to the trailing-space count. */
  lemma {:induction false} TrailingSpacesSuffix(t: string, b: string)
    requires AllSpace(b)
    ensures TrailingSpaces(t + b) == TrailingSpaces(t) + |b|
  {
    if |b| > 0 {
      assert (t + b)[..|t + b| - 1] == t + b[..|b| - 1];
      TrailingSpacesSuffix(t, b[..|b| - 1]);
    } else {
      assert t + b == t;
    }
  }

  /** `trim` strips exactly the surrounding white space: the characterisation of Trim. */
  lemma TrimPadded(a: string, x: string, b: string)
    requires AllSpace(a) && AllSpace(b) && IsTrimmed(x)
    ensures Trim(a + x + b) == x
  {
    var s := a + x + b;
    ConcatAssoc(a, x, b);
    if |x| == 0 {
      assert s == a + b;
      assert AllSpace(s);
    } else {
      var u := x + b;
      LeadingSpacesPrefix(a, u);
      assert LeadingSpaces(u) == 0 by {
        assert u[0] == x[0];
      }
      assert TrimStart(s) == u by {
        assert s[|a|..] == u;
      }
      TrailingSpacesSuffix(x, b);
      assert TrailingSpaces(x) == 0;
      assert u[..|x|] == x;
    }
  }

  /** Trimming twice is trimming once. */
  lemma TrimIdempotent(s: string)
    ensures Trim(Trim(s)) == Trim(s)
  {
    TrimPadded([], Trim(s), []);
    assert [] + Trim(s) + [] == Trim(s);
  }

  /** `s.split(d)` for a one-character separator `d`: never empty, pieces never contain `d`. */
  function Split(s: string, d: char): (r: seq<string>)
    ensures |r| >= 1
    ensures forall k :: 0 <= k < |r| ==> d !in r[k]
  {
    if |s| == 0 then [""]
    else
      var rest := Split(s[1..], d);
      if s[0] == d then [""] + rest
      else [[s[0]] + rest[0]] + rest[1..]
  }

  /** `pieces.join(d)`. */
  function Join(pieces: seq<string>, d: char): string {
    if |pieces| == 0 then ""
    else if |pieces| == 1 then pieces[0]
    else pieces[0] + [d] + Join(pieces[1..], d)
  }

  /** Joining introduces no character but the separator. */
  lemma {:induction false} JoinAvoids(pieces: seq<string>, d: char, c: char)
    requires c != d
    requires forall k :: 0 <= k < |pieces| ==> c !in pieces[k]
    ensures c !in Join(pieces, d)
  {
    if |pieces| > 1 {
      JoinAvoids(pieces[1..], d, c);
    }
  }

  /** Number of occurrences of `c` in `s`. */
  function Occurrences(s: string, c: char): nat {
    if |s| == 0 then 0 else (if s[0] == c then 1 else 0) + Occurrences(s[1..], c)
  }

  /** A character occurs nowhere exactly when it is not in the string. */
  lemma {:induction false} OccurrencesZero(s: string, c: char)
    ensures Occurrences(s, c) == 0 <==> c !in s
  {
    if |s| > 0 {
      OccurrencesZero(s[1..], c);
      assert s == [s[0]] + s[1..];
    }
  }

  /** Splitting on `d` yields one more piece than there are `d`s. */
  lemma {:induction false} SplitLength(s: string, d: char)
    ensures |Split(s, d)| == Occurrences(s, d) + 1
  {
    if |s| > 0 {
      SplitLength(s[1..], d);
    }
  }

  /** Joining the pieces back restores the input: split loses nothing. */
  lemma {:induction false} JoinSplit(s: string, d: char)
    ensures Join(Split(s, d), d) == s
  {
    if |s| > 0 {
      var rest := Split(s[1..], d);
      JoinSplit(s[1..], d);
      if s[0] == d {
        assert Split(s, d) == [""] + rest;
        assert s == [d] + s[1..];
      } else {
        var r := Split(s, d);
        assert r == [[s[0]] + rest[0]] + rest[1..];
        if |rest| == 1 {
          assert s == [s[0]] + rest[0];
        } else {
          assert r[1..] == rest[1..];
          assert Join(rest, d) == rest[0] + [d] + Join(rest[1..], d);
          assert s == [s[0]] + s[1..];
        }
      }
    }
  }

  /** A string without the separator splits into itself. */
  lemma {:induction false} SplitNoSeparator(s: string, d: char)
    requires d !in s
    ensures Split(s, d) == [s]
  {
    if |s| > 0 {
      assert d !in s[1..];
      SplitNoSeparator(s[1..], d);
      assert [s[0]] + s[1..] == s;
    }
  }

  /** The first separator ends the first piece. */
  lemma {:induction false} SplitAfter(a: string, d: char, b: string)
    requires d !in a
    ensures Split(a + [d] + b, d) == [a] + Split(b, d)
  {
    if |a| == 0 {
      assert a + [d] + b == [d] + b;
      assert ([d] + b)[1..] == b;
    } else {
      var s := a + [d] + b;
      assert s[1..] == a[1..] + [d] + b;
      assert d !in a[1..];
      SplitAfter(a[1..], d, b);
      assert [a[0]] + a[1..] == a;
    }
  }

  /** Split undoes Join when no piece contains the separator. */
  lemma {:induction false} SplitJoin(pieces: seq<string>, d: char)
    requires |pieces| >= 1
    requires forall k :: 0 <= k < |pieces| ==> d !in pieces[k]
    ensures Split(Join(pieces, d), d) == pieces
  {
    if |pieces| == 1 {
      SplitNoSeparator(pieces[0], d);
    } else {
      SplitJoin(pieces[1..], d);
      SplitAfter(pieces[0], d, Join(pieces[1..], d));
      assert [pieces[0]] + pieces[1..] == pieces;
    }
  }

  /** `toLowerCase` on the ASCII letters (other characters are left as they are). */
  function LowerChar(c: char): char {
    if 'A' <= c <= 'Z' then (c as int + 32) as char else c
  }

  function ToLower(s: string): (r: string)
    ensures |r| == |s|
    ensures forall k :: 0 <= k < |s| ==> r[k] == LowerChar(s[k])
  {
    seq(|s|, k requires 0 <= k < |s| => LowerChar(s[k]))
  }

  /** Lower-casing twice is lower-casing once. */
  lemma ToLowerIdempotent(s: string)
    ensures ToLower(ToLower(s)) == ToLower(s)
  {
  }

  /** Lower-casing works character by character, so it distributes over concatenation. */
  lemma ToLowerConcat(a: string, b: string)
    ensures ToLower(a + b) == ToLower(a) + ToLower(b)
  {
    assert forall k :: 0 <= k < |a + b| ==> ToLower(a + b)[k] == (ToLower(a) + ToLower(b))[k];
  }

  /** Every string is its trimmed core between two runs of white space. */
  lemma TrimDecompose(s: string) returns (a: string, b: string)
    ensures AllSpace(a) && AllSpace(b)
    ensures s == a + Trim(s) + b
  {
    var n := LeadingSpaces(s);
    var t := TrimStart(s);
    var m := TrailingSpaces(t);
    a, b := s[..n], t[|t| - m..];
    var x := Trim(s);
    assert x == t[..|t| - m];
    SplitAt(s, n);
    SplitAt(t, |t| - m);
    ConcatAssoc(a, x, b);
  }

  lemma SplitAt(s: string, i: nat)
    requires i <= |s|
    ensures s == s[..i] + s[i..]
  {
  }

  lemma ConcatAssoc(a: string, x: string, b: string)
    ensures a + x + b == a + (x + b)
  {
  }

  /** White space has no upper case: lower-casing leaves it as it is. */
  lemma ToLowerOfSpace(a: string)
    requires AllSpace(a)
    ensures ToLower(a) == a
  {
  }

  /** Lower-casing keeps the white space around a string where it is. */
  lemma ToLowerPadded(a: string, x: string, b: string)
    requires AllSpace(a) && AllSpace(b)
    ensures ToLower(a + x + b) == a + ToLower(x) + b
  {
    ToLowerConcat(a + x, b);
    ToLowerConcat(a, x);
    ToLowerOfSpace(a);
    ToLowerOfSpace(b);
  }

  /** Lower-casing a trimmed string leaves it trimmed. */
  lemma ToLowerTrimmed(x: string)
    requires IsTrimmed(x)
    ensures IsTrimmed(ToLower(x))
  {
  }

  /** Lower case never creates or removes white space, so trimming and lower-casing commute. */
  lemma ToLowerTrim(s: string)
    ensures Trim(ToLower(s)) == ToLower(Trim(s))
  {
    var a, b := TrimDecompose(s);
    ToLowerPadded(a, Trim(s), b);
    ToLowerTrimmed(Trim(s));
    TrimPadded(a, ToLower(Trim(s)), b);
  }

  predicate IsDigit(c: char) {
    '0' <= c <= '9'
  }

  predicate AllDigits(s: string) {
    forall k :: 0 <= k < |s| ==> IsDigit(s[k])
  }

  function DigitChar(n: nat): (c: char)
    requires n < 10
    ensures IsDigit(c)
  {
    (48 + n) as char
  }

  function DigitValue(c: char): (n: nat)
    requires IsDigit(c)
    ensures n < 10
  {
    c as int - 48
  }

  /** Decimal rendering of a non-negative integer (`String(n)`, `${n}`): no leading zero. */
  function NatToString(n: nat): (r: string)
    ensures |r| >= 1 && AllDigits(r)
    ensures r[0] == '0' ==> n == 0
  {
    if n < 10 then [DigitChar(n)]
    else NatToString(n / 10) + [DigitChar(n % 10)]
  }

  /** The number a string of decimal digits denotes. */
  function DigitsValue(s: string): nat
    requires AllDigits(s)
  {
    if |s| == 0 then 0
    else DigitsValue(s[..|s| - 1]) * 10 + DigitValue(s[|s| - 1])
  }

  /** Reading back what NatToString wrote gives the number. */
  lemma {:induction false} NatToStringValue(n: nat)
    ensures DigitsValue(NatToString(n)) == n
  {
    if n >= 10 {
      NatToStringValue(n / 10);
      var r := NatToString(n);
      assert r[..|r| - 1] == NatToString(n / 10);
    }
  }

  /** Decimal rendering of any integer, with a leading '-' for negatives. */
  function IntToString(i: int): (r: string)
    ensures |r| >= 1
  {
    if i < 0 then "-" + NatToString(-i) else NatToString(i)
  }

  /** Length of the run of decimal digits at the start of `s`. */
  function LeadingDigits(s: string): (n: nat)
    ensures n <= |s|
    ensures AllDigits(s[..n])
  {
    if |s| > 0 && IsDigit(s[0]) then
      var n := 1 + LeadingDigits(s[1..]);
      assert s[..n] == [s[0]] + s[1..][..n - 1];
      n
    else 0
  }

  /**
   * `parseInt(s)` in base 10: leading white space is skipped, an optional sign is read,
   * then the longest run of digits; no digits at all gives NaN, modelled as None.
   */
  function ParseInt(s: string): Option<int> {
    var t := TrimStart(s);
    var negative := |t| > 0 && t[0] == '-';
    var u := if |t| > 0 && (t[0] == '-' || t[0] == '+') then t[1..] else t;
    var n := LeadingDigits(u);
    var magnitude: int := DigitsValue(u[..n]);
    if n == 0 then None
    else if negative then Some(-magnitude)
    else Some(magnitude)
  }

  /** All of a digit string followed by a non-digit is the leading digit run. */
  lemma {:induction false} LeadingDigitsOf(digits: string, rest: string)
    requires AllDigits(digits)
    requires |rest| == 0 || !IsDigit(rest[0])
    ensures LeadingDigits(digits + rest) == |digits|
  {
    if |digits| > 0 {
      assert (digits + rest)[1..] == digits[1..] + rest;
      LeadingDigitsOf(digits[1..], rest);
    } else {
      assert digits + rest == rest;
    }
  }

  /** `parseInt` of text that starts with a digit reads its leading digit run. */
  lemma ParseIntUnsigned(u: string)
    requires |u| > 0 && IsDigit(u[0])
    ensures ParseInt(u) == Some(DigitsValue(u[..LeadingDigits(u)]))
  {
    assert LeadingSpaces(u) == 0;
    assert TrimStart(u) == u;
  }

  /** With a minus sign in front, the same run is read negated. */
  lemma ParseIntNegative(s: string)
    requires |s| > 1 && s[0] == '-' && IsDigit(s[1])
    ensures ParseInt(s) == Some(-(DigitsValue(s[1..][..LeadingDigits(s[1..])]) as int))
  {
    assert !IsSpace(s[0]);
    assert LeadingSpaces(s) == 0;
    assert TrimStart(s) == s;
  }

  /** `parseInt` reads back what `String(n)` wrote, whatever non-digit text follows. */
  lemma ParseIntOfIntToString(i: int, rest: string)
    requires |rest| == 0 || !IsDigit(rest[0])
    ensures ParseInt(IntToString(i) + rest) == Some(i)
  {
    var m: nat := if i < 0 then -i else i;
    var digits := NatToString(m);
    var u := digits + rest;
    LeadingDigitsOf(digits, rest);
    NatToStringValue(m);
    assert u[..|digits|] == digits;
    assert u[0] == digits[0];
    if i < 0 {
      var s := IntToString(i) + rest;
      ConcatAssoc("-", digits, rest);
      assert s[1..] == u;
      ParseIntNegative(s);
    } else {
      ParseIntUnsigned(u);
    }
  }

  /** `${n < 10 ? '0' : ''}${n}`: at least two digits. */
  function Pad2(n: nat): (r: string)
    ensures AllDigits(r) && |r| >= 2
    ensures n < 100 ==> |r| == 2
  {
    if n < 10 then "0" + NatToString(n)
    else
      assert n < 100 ==> |NatToString(n / 10)| == 1;
      NatToString(n)
  }

  /** A two-digit field reads back as the number it shows. */
  lemma Pad2Value(n: nat)
    ensures DigitsValue(Pad2(n)) == n
  {
    NatToStringValue(n);
    if n < 10 {
      var r := Pad2(n);
      assert r[..1] == "0";
    }
  }
}
