/**
 * The few JavaScript string primitives the scheduler and the task list rely on:
 * `Number(s)` on decimal digit strings, `n.toString()` on non-negative integers,
 * `padStart`, `split` on one character, `includes` and `toLowerCase` (ASCII letters).
 */
module Strings {
  import opened Wrappers

  predicate IsDigit(c: char) {
    '0' <= c <= '9'
  }

  function DigitValue(c: char): (d: nat)
    requires IsDigit(c)
    ensures d < 10
  {
    (c as int) - ('0' as int)
  }

  function DigitChar(d: nat): (c: char)
    requires d < 10
    ensures IsDigit(c) && DigitValue(c) == d
  {
    (('0' as int) + d) as char
  }

  /** Every character is a decimal digit (checked from the last one back, the order `DigitsValue` reads them). */
  predicate AllDigits(s: string) {
    s == [] || (IsDigit(s[|s| - 1]) && AllDigits(s[..|s| - 1]))
  }

  /** `AllDigits` is the character-by-character check. */
  lemma {:induction false} AllDigitsAt(s: string)
    ensures AllDigits(s) <==> forall i :: 0 <= i < |s| ==> IsDigit(s[i])
  {
    if s != [] {
      var t := s[..|s| - 1];
      AllDigitsAt(t);
      assert forall i :: 0 <= i < |t| ==> t[i] == s[i];
    }
  }

  /** The decimal value of a digit string, most significant digit first; "" reads as 0. */
  function DigitsValue(s: string): nat
    requires AllDigits(s)
    decreases |s|
  {
    if s == [] then 0 else DigitsValue(s[..|s| - 1]) * 10 + DigitValue(s[|s| - 1])
  }

  /** `n.toString()` for a non-negative integer: its decimal digits, without leading zeros. */
  function NatToString(n: nat): string
    decreases n
  {
    if n < 10 then [DigitChar(n)] else NatToString(n / 10) + [DigitChar(n % 10)]
  }

  /** The text is a non-empty digit string without a leading zero, with one digit below 10 and two below 100. */
  lemma {:induction false} NatToStringShape(n: nat)
    ensures var s := NatToString(n);
      && AllDigits(s)
      && 1 <= |s| && (|s| == 1 <==> n < 10) && (|s| == 2 <==> 10 <= n < 100)
      && (|s| > 1 ==> s[0] != '0')
    decreases n
  {
    if n >= 10 {
      NatToStringShape(n / 10);
      var s, t := NatToString(n), NatToString(n / 10);
      assert s[..|s| - 1] == t;
      assert s[0] == t[0];
    }
  }

  /** Reading back the digits that `NatToString` writes gives the number again. */
  lemma {:induction false} NatToStringValue(n: nat)
    ensures AllDigits(NatToString(n)) && DigitsValue(NatToString(n)) == n
  {
    NatToStringShape(n);
    if n >= 10 {
      var s := NatToString(n);
      assert s[..|s| - 1] == NatToString(n / 10);
      NatToStringValue(n / 10);
    }
  }

  /** A leading '0' does not change the value of a digit string. */
  lemma {:induction false} LeadingZeroValue(s: string)
    requires AllDigits(s)
    ensures AllDigits("0" + s) && DigitsValue("0" + s) == DigitsValue(s)
  {
    var z := "0" + s;
    if s != [] {
      assert z[..|z| - 1] == "0" + s[..|s| - 1];
      assert z[|z| - 1] == s[|s| - 1];
      LeadingZeroValue(s[..|s| - 1]);
    } else {
      assert z[..|z| - 1] == [];
    }
  }

  /**
   * `Number(s)` restricted to what the schedule templates hold: a string of decimal digits
   * (the empty one included, which JavaScript reads as 0) is its value; anything else is NaN.
   */
  function ParseNumber(s: string): (r: Option<nat>)
  {
    if AllDigits(s) then Some(DigitsValue(s)) else None
  }

  /** `s.padStart(len, c)`: `c` repeated in front of `s` until the length reaches `len`. */
  function PadStart(s: string, len: nat, c: char): (r: string)
    ensures |r| == if |s| >= len then |s| else len
    decreases len - |s|
  {
    if |s| >= len then s else PadStart([c] + s, len, c)
  }

  /** The padded text ends with `s` and holds only `c` before it. */
  lemma {:induction false} PadStartShape(s: string, len: nat, c: char)
    ensures var r := PadStart(s, len, c);
      r[|r| - |s|..] == s && forall i :: 0 <= i < |r| - |s| ==> r[i] == c
    decreases len - |s|
  {
    if |s| < len {
      PadStartShape([c] + s, len, c);
      var r := PadStart(s, len, c);
      assert r[|r| - |s| - 1..] == [c] + s;
      assert r[|r| - |s|..] == ([c] + s)[1..];
    }
  }

  /** Padding a digit string with zeros keeps its value. */
  lemma {:induction false} PadZerosValue(s: string, len: nat)
    requires AllDigits(s)
    ensures AllDigits(PadStart(s, len, '0')) && DigitsValue(PadStart(s, len, '0')) == DigitsValue(s)
    decreases len - |s|
  {
    if |s| < len {
      LeadingZeroValue(s);
      PadZerosValue("0" + s, len);
    }
  }

  /** `s.split(sep)` for a one-character separator: the pieces between separators, always at least one. */
  function Split(s: string, sep: char): (parts: seq<string>)
    ensures |parts| >= 1
  {
    if s == [] then [""]
    else
      var rest := Split(s[1..], sep);
      if s[0] == sep then [""] + rest else [[s[0]] + rest[0]] + rest[1..]
  }

  /** No piece of `Split` holds the separator. */
  lemma {:induction false} SplitPiecesHaveNoSep(s: string, sep: char)
    ensures forall k :: 0 <= k < |Split(s, sep)| ==> sep !in Split(s, sep)[k]
  {
    if s != [] {
      SplitPiecesHaveNoSep(s[1..], sep);
      var rest, parts := Split(s[1..], sep), Split(s, sep);
      if s[0] != sep {
        forall k | 0 <= k < |parts| ensures sep !in parts[k] {
          if k > 0 { assert parts[k] == rest[k]; }
        }
      }
    }
  }

  /** Joining the pieces of `Split` with the separator gives back the string. */
  function Join(parts: seq<string>, sep: char): string
    requires |parts| >= 1
  {
    if |parts| == 1 then parts[0] else parts[0] + [sep] + Join(parts[1..], sep)
  }

  lemma {:induction false} SplitJoin(s: string, sep: char)
    ensures Join(Split(s, sep), sep) == s
  {
    if s != [] {
      var c, t := s[0], s[1..];
      var rest := Split(t, sep);
      SplitJoin(t, sep);
      assert s == [c] + t;
      if c == sep {
        assert Split(s, sep) == [""] + rest;
        JoinCons("", rest, sep);
        assert "" + [sep] + t == s;
      } else {
        assert Split(s, sep) == [[c] + rest[0]] + rest[1..];
        JoinHeadExtend(c, rest, sep);
      }
    }
  }

  /** Joining a piece in front of others puts it and a separator in front. */
  lemma JoinCons(x: string, rest: seq<string>, sep: char)
    requires |rest| >= 1
    ensures Join([x] + rest, sep) == x + [sep] + Join(rest, sep)
  {
    assert ([x] + rest)[0] == x && ([x] + rest)[1..] == rest;
  }

  /** Extending the first piece by a character in front extends the joined text by it. */
  lemma JoinHeadExtend(c: char, rest: seq<string>, sep: char)
    requires |rest| >= 1
    ensures Join([[c] + rest[0]] + rest[1..], sep) == [c] + Join(rest, sep)
  {
    var head := [c] + rest[0];
    if |rest| == 1 {
      assert [head] + rest[1..] == [head];
    } else {
      JoinCons(head, rest[1..], sep);
      JoinCons(rest[0], rest[1..], sep);
      assert [rest[0]] + rest[1..] == rest;
    }
  }

  /** A string without the separator followed by the separator starts a new piece. */
  lemma {:induction false} SplitPrefix(a: string, sep: char, b: string)
    requires sep !in a
    ensures Split(a + [sep] + b, sep) == [a] + Split(b, sep)
  {
    if a == [] {
      assert [] + [sep] + b == [sep] + b;
      assert ([sep] + b)[1..] == b;
    } else {
      assert (a + [sep] + b)[1..] == a[1..] + [sep] + b;
      SplitPrefix(a[1..], sep, b);
      assert [a[0]] + a[1..] == a;
    }
  }

  /** A string without the separator splits into itself. */
  lemma {:induction false} SplitWithoutSep(a: string, sep: char)
    requires sep !in a
    ensures Split(a, sep) == [a]
  {
    if a != [] {
      SplitWithoutSep(a[1..], sep);
      assert [a[0]] + a[1..] == a;
    }
  }

  /** Two separator-free pieces joined by the separator split back into those two pieces. */
  lemma SplitTwo(a: string, sep: char, b: string)
    requires sep !in a && sep !in b
    ensures Split(a + [sep] + b, sep) == [a, b]
  {
    SplitPrefix(a, sep, b);
    SplitWithoutSep(b, sep);
  }

  /** `s.includes(p)`: whether `p` is a prefix of `s` or of one of its suffixes. */
  function Contains(s: string, p: string): bool
    decreases |s|
  {
    p <= s || (s != [] && Contains(s[1..], p))
  }

  /** `p` occurs in `s` starting at position `i`. */
  predicate OccursAt(s: string, p: string, i: int) {
    0 <= i <= |s| - |p| && s[i..i + |p|] == p
  }

  /** A slice of the tail is the slice of the whole shifted by one. */
  lemma TailSlice(s: string, j: nat, n: nat)
    requires j + n < |s|
    ensures s[1..][j..j + n] == s[j + 1..j + 1 + n]
  {
    var l, r := s[1..][j..j + n], s[j + 1..j + 1 + n];
    assert |l| == n == |r|;
    forall k | 0 <= k < n ensures l[k] == r[k] {
      assert l[k] == s[1..][j + k] == s[j + 1 + k];
    }
  }

  /** `Contains` holds exactly when `p` occurs in `s` at some position. */
  lemma ContainsAt(s: string, p: string)
    ensures Contains(s, p) <==> exists i :: OccursAt(s, p, i)
  {
    if Contains(s, p) {
      ContainsOccurs(s, p);
    }
    forall i | OccursAt(s, p, i) ensures Contains(s, p) {
      OccursContains(s, p, i);
    }
  }

  /** Where `Contains` holds, `p` occurs somewhere. */
  lemma {:induction false} ContainsOccurs(s: string, p: string)
    requires Contains(s, p)
    ensures exists i :: OccursAt(s, p, i)
    decreases |s|
  {
    if p <= s {
      assert s[0..|p|] == p;
      assert OccursAt(s, p, 0);
    } else {
      ContainsOccurs(s[1..], p);
      var i :| OccursAt(s[1..], p, i);
      TailSlice(s, i, |p|);
      assert OccursAt(s, p, i + 1);
    }
  }

  /** An occurrence at any position makes `Contains` hold. */
  lemma {:induction false} OccursContains(s: string, p: string, i: int)
    requires OccursAt(s, p, i)
    ensures Contains(s, p)
    decreases i
  {
    if i == 0 {
      assert s[..|p|] == p;
    } else {
      TailSlice(s, i - 1, |p|);
      assert OccursAt(s[1..], p, i - 1);
      OccursContains(s[1..], p, i - 1);
    }
  }

  /** `toLowerCase` on one character, for the ASCII letters. */
  function LowerChar(c: char): char {
    if 'A' <= c <= 'Z' then ((c as int) + 32) as char else c
  }

  /** `s.toLowerCase()`, ASCII letters only. */
  function Lower(s: string): (r: string)
    ensures |r| == |s|
    ensures forall i :: 0 <= i < |s| ==> r[i] == LowerChar(s[i])
    ensures forall i :: 0 <= i < |r| ==> !('A' <= r[i] <= 'Z')
  {
    if s == [] then [] else [LowerChar(s[0])] + Lower(s[1..])
  }
}
