/**
 * The string operations the server actions apply to form input:
 * `slice(0, n)`, `split(sep)`, the national-ID pattern `^[a-zA-Z0-9]{6,12}$`,
 * and the decimal rendering of an id inside a path template.
 */
module Text {

  /** `r` is what `s.slice(0, n)` keeps: a prefix of `s`, at most `n` long, all of `s` when it fits. */
  predicate IsSliceOf(r: string, s: string, n: nat) {
    && |r| <= n && |r| <= |s|
    && r == s[..|r|]
    && (|s| <= n ==> r == s)
    && (|s| > n ==> |r| == n)
  }

  /** `s.slice(0, n)`: the first `n` characters of `s`, or all of `s` when it is shorter. */
  function Slice(s: string, n: nat): (r: string)
    ensures IsSliceOf(r, s, n)
  {
    if |s| <= n then s else s[..n]
  }

  /** `s.split(sep)` for a one-character separator: the maximal runs between separators. */
  function Split(s: string, sep: char): (parts: seq<string>)
    ensures |parts| >= 1
    ensures forall i :: 0 <= i < |parts| ==> sep !in parts[i]
    decreases |s|
  {
    if s == [] then [""]
    else
      var rest := Split(s[1..], sep);
      if s[0] == sep then [""] + rest
      else [[s[0]] + rest[0]] + rest[1..]
  }

  /**
   * The first part is the longest prefix without the separator: it runs to the first
   * separator, or to the end when there is none, in which case it is the only part.
   */
  lemma {:induction false} SplitHead(s: string, sep: char)
    ensures var head := Split(s, sep)[0];
            && |head| <= |s| && head == s[..|head|]
            && (|Split(s, sep)| == 1 <==> sep !in s)
            && (|Split(s, sep)| > 1 ==> |head| < |s| && s[|head|] == sep)
    decreases |s|
  {
    if s != [] {
      SplitHead(s[1..], sep);
      if s[0] != sep {
        assert sep in s <==> sep in s[1..] by {
          if sep in s {
            var i :| 0 <= i < |s| && s[i] == sep;
            assert i > 0 && s[1..][i - 1] == sep;
          }
          if sep in s[1..] {
            var i :| 0 <= i < |s[1..]| && s[1..][i] == sep;
            assert s[i + 1] == sep;
          }
        }
      }
    }
  }

  /** `parts.join(sep)`, the inverse of `Split`. */
  function Join(parts: seq<string>, sep: char): string
    requires |parts| >= 1
    decreases |parts|
  {
    if |parts| == 1 then parts[0] else parts[0] + [sep] + Join(parts[1..], sep)
  }

  /** Splitting loses nothing: joining the parts back gives the original string. */
  lemma {:induction false} JoinSplit(s: string, sep: char)
    ensures Join(Split(s, sep), sep) == s
    decreases |s|
  {
    if s != [] {
      var rest := Split(s[1..], sep);
      JoinSplit(s[1..], sep);
      if s[0] == sep {
        assert ([""] + rest)[1..] == rest;
      } else {
        var parts := [[s[0]] + rest[0]] + rest[1..];
        assert parts[1..] == rest[1..];
        if |rest| > 1 {
          assert Join(rest, sep) == rest[0] + [sep] + Join(rest[1..], sep);
        }
      }
    }
  }

  /** A string without the separator is a single part. */
  lemma {:induction false} SplitWithoutSeparator(s: string, sep: char)
    requires sep !in s
    ensures Split(s, sep) == [s]
    decreases |s|
  {
    if s != [] {
      assert sep !in s[1..] by {
        forall c | c in s[1..] ensures c != sep {
          var i :| 0 <= i < |s[1..]| && s[1..][i] == c;
          assert s[i + 1] == c;
        }
      }
      SplitWithoutSeparator(s[1..], sep);
      assert s[0] in s;
      assert [s[0]] + s[1..] == s;
    }
  }

  /** The first part is the text before the first separator; the rest splits on its own. */
  lemma {:induction false} SplitAtFirst(a: string, sep: char, b: string)
    requires sep !in a
    ensures Split(a + [sep] + b, sep) == [a] + Split(b, sep)
    decreases |a|
  {
    if a == [] {
      assert ([] + [sep] + b)[1..] == b;
    } else {
      assert (a + [sep] + b)[1..] == a[1..] + [sep] + b;
      assert sep !in a[1..] by {
        forall c | c in a[1..] ensures c != sep {
          var i :| 0 <= i < |a[1..]| && a[1..][i] == c;
          assert a[i + 1] == c;
        }
      }
      SplitAtFirst(a[1..], sep, b);
      assert [a[0]] + a[1..] == a;
    }
  }

  /** `x%y` with no other separator splits into exactly `[x, y]`. */
  lemma SplitPair(x: string, sep: char, y: string)
    requires sep !in x && sep !in y
    ensures Split(x + [sep] + y, sep) == [x, y]
  {
    SplitAtFirst(x, sep, y);
    SplitWithoutSeparator(y, sep);
  }

  /** One character of the class `[a-zA-Z0-9]`. */
  predicate IsAsciiAlnum(c: char) {
    'a' <= c <= 'z' || 'A' <= c <= 'Z' || '0' <= c <= '9'
  }

  /** A national ID as the profile form accepts it: 6 to 12 ASCII letters or digits. */
  predicate IsNationalID(s: string) {
    6 <= |s| <= 12 && forall i :: 0 <= i < |s| ==> IsAsciiAlnum(s[i])
  }

  /**
   * The anchored regular expression `^[a-zA-Z0-9]{lo,hi}$`, matched one character at
   * a time: each step consumes one class character and one unit of the repetition bounds.
   */
  predicate MatchesClassRepeat(s: string, lo: nat, hi: nat)
    decreases |s|
  {
    if s == [] then lo == 0
    else hi > 0 && IsAsciiAlnum(s[0]) && MatchesClassRepeat(s[1..], if lo > 0 then lo - 1 else 0, hi - 1)
  }

  lemma {:induction false} MatchesClassRepeatIff(s: string, lo: nat, hi: nat)
    ensures MatchesClassRepeat(s, lo, hi) <==>
              lo <= |s| <= hi && forall i :: 0 <= i < |s| ==> IsAsciiAlnum(s[i])
    decreases |s|
  {
    if s != [] && hi > 0 {
      MatchesClassRepeatIff(s[1..], if lo > 0 then lo - 1 else 0, hi - 1);
      if forall i :: 0 <= i < |s| ==> IsAsciiAlnum(s[i]) {
        assert forall i :: 0 <= i < |s[1..]| ==> IsAsciiAlnum(s[1..][i]);
      }
      if IsAsciiAlnum(s[0]) && forall i :: 0 <= i < |s[1..]| ==> IsAsciiAlnum(s[1..][i]) {
        forall i | 0 <= i < |s| ensures IsAsciiAlnum(s[i]) {
          if i > 0 { assert s[i] == s[1..][i - 1]; }
        }
      }
    }
  }

  /** The predicate the profile action uses is exactly the regular expression `^[a-zA-Z0-9]{6,12}$`. */
  lemma NationalIDIsPattern(s: string)
    ensures IsNationalID(s) <==> MatchesClassRepeat(s, 6, 12)
  {
    MatchesClassRepeatIff(s, 6, 12);
  }

  predicate IsDigit(c: char) {
    '0' <= c <= '9'
  }

  function DigitChar(d: nat): (c: char)
    requires d < 10
    ensures IsDigit(c) && (c as int) - ('0' as int) == d
  {
    (('0' as int) + d) as char
  }

  /** The decimal text of `n` that a template literal `${n}` produces for a whole number. */
  function NatToString(n: nat): (s: string)
    ensures |s| >= 1
    ensures forall i :: 0 <= i < |s| ==> IsDigit(s[i])
    ensures n > 0 ==> s[0] != '0'
    ensures |s| > 1 ==> s[0] != '0'
    decreases n
  {
    if n < 10 then [DigitChar(n)] else NatToString(n / 10) + [DigitChar(n % 10)]
  }

  /** Reads a string of decimal digits back as a number. */
  function ParseNat(s: string): nat
    requires forall i :: 0 <= i < |s| ==> IsDigit(s[i])
    decreases |s|
  {
    if s == [] then 0
    else
      assert IsDigit(s[|s| - 1]);
      ParseNat(s[..|s| - 1]) * 10 + ((s[|s| - 1] as int) - ('0' as int))
  }

  lemma {:induction false} ParseNatToString(n: nat)
    ensures ParseNat(NatToString(n)) == n
    decreases n
  {
    var s := NatToString(n);
    if n >= 10 {
      ParseNatToString(n / 10);
      assert s[..|s| - 1] == NatToString(n / 10);
    }
  }

  /** Different ids render to different texts. */
  lemma NatToStringInjective(a: nat, b: nat)
    requires NatToString(a) == NatToString(b)
    ensures a == b
  {
    ParseNatToString(a);
    ParseNatToString(b);
  }

}
