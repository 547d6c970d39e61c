/**
 * The Python string operations the tracker relies on: `str.split` on one
 * character and on a substring, the last `.`-separated segment of a path,
 * `str(n).zfill(w)`, and `int(text)` on a field of a ground-truth line.
 */
module Text {
  import opened Wrappers

  /** `s.split(c)` for a one-character separator: the pieces between the separators. */
  function Split(s: string, c: char): (parts: seq<string>)
    ensures |parts| >= 1
    ensures forall k :: 0 <= k < |parts| ==> c !in parts[k]
    decreases |s|
  {
    if |s| == 0 then [""]
    else
      var rest := Split(s[1..], c);
      if s[0] == c then [""] + rest
      else [[s[0]] + rest[0]] + rest[1..]
  }

  /** `c.join(parts)`. */
  function Join(parts: seq<string>, c: char): string
    requires |parts| >= 1
    decreases |parts|
  {
    if |parts| == 1 then parts[0] else parts[0] + [c] + Join(parts[1..], c)
  }

  /** Splitting and joining again gives back the string. */
  lemma {:induction false} SplitJoin(s: string, c: char)
    ensures Join(Split(s, c), c) == s
    decreases |s|
  {
    if |s| > 0 {
      var rest := Split(s[1..], c);
      SplitJoin(s[1..], c);
      if s[0] == c {
        assert Split(s, c)[1..] == rest;
      } else {
        var parts := Split(s, c);
        if |rest| == 1 {
          assert parts == [[s[0]] + rest[0]];
        } else {
          assert parts[1..] == rest[1..];
          assert Join(rest, c) == rest[0] + [c] + Join(rest[1..], c);
        }
      }
      assert s == [s[0]] + s[1..];
    }
  }

  /** Joining pieces without the separator and splitting again gives back the pieces. */
  lemma {:induction false} JoinSplit(parts: seq<string>, c: char)
    requires |parts| >= 1 && forall k :: 0 <= k < |parts| ==> c !in parts[k]
    ensures Split(Join(parts, c), c) == parts
    decreases |parts|
  {
    if |parts| == 1 {
      LastSegmentWithoutSeparator(parts[0], c);
    } else {
      JoinSplit(parts[1..], c);
      SplitAfterPiece(parts[0], Join(parts[1..], c), c);
    }
  }

  /** A piece without the separator, then the separator, splits off as the first piece. */
  lemma {:induction false} SplitAfterPiece(a: string, b: string, c: char)
    requires c !in a
    ensures Split(a + [c] + b, c) == [a] + Split(b, c)
    decreases |a|
  {
    var s := a + [c] + b;
    if |a| == 0 {
      assert s == [c] + b;
      assert s[1..] == b;
    } else {
      assert s[1..] == a[1..] + [c] + b;
      SplitAfterPiece(a[1..], b, c);
      assert [s[0]] + a[1..] == a;
    }
  }

  /** Joining splits off the last piece. */
  lemma {:induction false} JoinLast(parts: seq<string>, c: char)
    requires |parts| >= 2
    ensures Join(parts, c) == Join(parts[..|parts| - 1], c) + [c] + parts[|parts| - 1]
    decreases |parts|
  {
    if |parts| > 2 {
      JoinLast(parts[1..], c);
      assert parts[1..][..|parts| - 2] == parts[..|parts| - 1][1..];
    }
  }

  /** `s.split(c)[-1]`. */
  function LastSegment(s: string, c: char): (t: string)
    ensures c !in t
  {
    var parts := Split(s, c);
    parts[|parts| - 1]
  }

  /** A string without the separator is its own last segment. */
  lemma {:induction false} LastSegmentWithoutSeparator(s: string, c: char)
    requires c !in s
    ensures Split(s, c) == [s]
    ensures LastSegment(s, c) == s
    decreases |s|
  {
    if |s| > 0 {
      LastSegmentWithoutSeparator(s[1..], c);
      assert s == [s[0]] + s[1..];
    }
  }

  /** Text in front of a part that holds the separator does not change the last segment. */
  lemma {:induction false} LastSegmentOfAppend(x: string, y: string, c: char)
    requires c in y
    ensures |Split(y, c)| >= 2
    ensures LastSegment(x + y, c) == LastSegment(y, c)
    decreases |x| + |y|
  {
    if |x| == 0 {
      assert x + y == y;
      SeparatorSplits(y, c);
    } else {
      assert (x + y)[1..] == x[1..] + y;
      LastSegmentOfAppend(x[1..], y, c);
      SeparatorSplits(x[1..] + y, c);
    }
  }

  /** A string holding the separator splits into at least two pieces. */
  lemma {:induction false} SeparatorSplits(s: string, c: char)
    requires c in s
    ensures |Split(s, c)| >= 2
    decreases |s|
  {
    if s[0] != c {
      SeparatorSplits(s[1..], c);
    }
  }

  /**
   * The last segment is what follows the last separator: it is t exactly
   * when t has no separator and s is t or ends with the separator followed by t.
   */
  lemma LastSegmentIsSuffix(s: string, c: char, t: string)
    ensures LastSegment(s, c) == t <==>
      c !in t && (s == t || exists p: string :: s == p + [c] + t)
  {
    var parts := Split(s, c);
    var last := parts[|parts| - 1];
    SplitJoin(s, c);
    if |parts| >= 2 {
      JoinLast(parts, c);
      var p := Join(parts[..|parts| - 1], c);
      assert s == p + [c] + last;
    } else {
      assert s == last;
    }
    if c !in t && (s == t || exists p: string :: s == p + [c] + t) {
      if s == t {
        LastSegmentWithoutSeparator(s, c);
      } else {
        var p: string :| s == p + [c] + t;
        assert s == p + ([c] + t);
        LastSegmentOfAppend(p, [c] + t, c);
        assert ([c] + t)[1..] == t;
        LastSegmentWithoutSeparator(t, c);
      }
    }
  }

  /** `s.split(".")[-1] == ext`: the check the tracker makes on file extensions. */
  predicate HasExtension(path: string, ext: string)
  {
    LastSegment(path, '.') == ext
  }

  /** `pat` occurs in `s`. */
  predicate Contains(s: string, pat: string)
  {
    exists i :: 0 <= i <= |s| - |pat| && OccursAt(s, pat, i)
  }

  /** `pat` occurs in `s` at position i. */
  predicate OccursAt(s: string, pat: string, i: int)
  {
    0 <= i <= |s| - |pat| && s[i..i + |pat|] == pat
  }

  /**
   * `s.split(pat)[:-1][0]`: the text before the first occurrence of `pat`,
   * or `None` when `pat` does not occur (the list is then empty and `[0]`
   * raises).
   */
  function BeforeFirst(s: string, pat: string): (r: Option<string>)
    requires |pat| > 0
    ensures r.Some? ==> |r.value| + |pat| <= |s| && s[..|r.value|] == r.value && s[|r.value|..|r.value| + |pat|] == pat
    ensures r.Some? ==> !Contains(r.value, pat)
    ensures r.None? ==> !Contains(s, pat)
    decreases |s|
  {
    if |s| < |pat| then None
    else if s[..|pat|] == pat then Some("")
    else
      var rest := BeforeFirst(s[1..], pat);
      if rest.None? then
        NoOccurrenceAfterHead(s, pat);
        None
      else
        var p := [s[0]] + rest.value;
        NoOccurrenceBeforeFirst(s, pat, rest.value);
        Some(p)
  }

  /** `pat` does not start s and does not occur in its tail: it does not occur in s. */
  lemma NoOccurrenceAfterHead(s: string, pat: string)
    requires 0 < |pat| <= |s| && s[..|pat|] != pat && !Contains(s[1..], pat)
    ensures !Contains(s, pat)
  {
    forall i ensures !OccursAt(s, pat, i) {
      if 0 < i <= |s| - |pat| {
        SliceOfTail(s, i, |pat|);
        assert !OccursAt(s[1..], pat, i - 1);
      }
    }
  }

  /**
   * `pat` does not start s and does not occur in a prefix `rest` of s's
   * tail: it does not occur in s[0] followed by rest.
   */
  lemma NoOccurrenceBeforeFirst(s: string, pat: string, rest: string)
    requires 0 < |pat| <= |s| && s[..|pat|] != pat && !Contains(rest, pat)
    requires |rest| < |s| && s[1..][..|rest|] == rest
    ensures !Contains([s[0]] + rest, pat)
  {
    var p := [s[0]] + rest;
    forall i ensures !OccursAt(p, pat, i) {
      if i == 0 && |pat| <= |p| {
        assert p[..|pat|] == s[..|pat|];
      } else if 0 < i <= |p| - |pat| {
        SliceOfTail(p, i, |pat|);
        assert p[1..] == rest;
        assert !OccursAt(rest, pat, i - 1);
      }
    }
  }

  lemma SliceOfTail(s: string, i: int, len: nat)
    requires 0 < i && i + len <= |s|
    ensures s[1..][i - 1..i - 1 + len] == s[i..i + len]
  {
    var a, b := s[1..][i - 1..i - 1 + len], s[i..i + len];
    assert forall k :: 0 <= k < len ==> a[k] == b[k];
  }

  /** A name that ends in ".avi" and has no earlier ".avi" keeps everything in front of it. */
  lemma {:induction false} BeforeFirstAvi(p: string)
    requires !Contains(p, ".avi")
    ensures BeforeFirst(p + ".avi", ".avi") == Some(p)
    decreases |p|
  {
    var s := p + ".avi";
    if |p| > 0 {
      if |p| >= 4 {
        assert s[..4] == p[..4];
        assert !OccursAt(p, ".avi", 0);
      } else {
        assert s[..4] != ".avi" by {
          assert s[|p|] == '.';
        }
      }
      assert s[1..] == p[1..] + ".avi";
      assert !Contains(p[1..], ".avi") by {
        forall i | 0 <= i <= |p| - 1 - 4 ensures !OccursAt(p[1..], ".avi", i) {
          assert p[1..][i..i + 4] == p[i + 1..i + 1 + 4];
          assert !OccursAt(p, ".avi", i + 1);
        }
      }
      BeforeFirstAvi(p[1..]);
      assert s == [s[0]] + s[1..];
    }
  }

  /** Decimal digit of 0 <= d < 10. */
  function Digit(d: nat): char
    requires d < 10
  {
    "0123456789"[d]
  }

  /** `str(n)` for a natural number. */
  function NatToString(n: nat): (s: string)
    ensures |s| >= 1 && forall k :: 0 <= k < |s| ==> IsDigit(s[k])
    decreases n
  {
    if n < 10 then [Digit(n)] else NatToString(n / 10) + [Digit(n % 10)]
  }

  predicate IsDigit(ch: char)
  {
    '0' <= ch <= '9'
  }

  /** The value of a string of decimal digits. */
  function DigitsValue(s: string): nat
    requires forall k :: 0 <= k < |s| ==> IsDigit(s[k])
    decreases |s|
  {
    if |s| == 0 then 0
    else
      var d := s[|s| - 1];
      assert IsDigit(d);
      10 * DigitsValue(s[..|s| - 1]) + ((d as int) - ('0' as int))
  }

  /** Reading back the decimal representation gives the number. */
  lemma {:induction false} NatToStringValue(n: nat)
    ensures DigitsValue(NatToString(n)) == n
    decreases n
  {
    var s := NatToString(n);
    if n >= 10 {
      assert s[..|s| - 1] == NatToString(n / 10);
      NatToStringValue(n / 10);
    }
  }

  /** A number below 10^k has at most k digits. */
  lemma {:induction false} NatToStringLength(n: nat, k: nat)
    requires k >= 1 && n < Pow10(k)
    ensures |NatToString(n)| <= k
    decreases n
  {
    if n >= 10 {
      assert k >= 2;
      NatToStringLength(n / 10, k - 1);
    }
  }

  function Pow10(k: nat): nat
  {
    if k == 0 then 1 else 10 * Pow10(k - 1)
  }

  /** `s.zfill(width)`: left-pad with '0' up to the width. */
  function ZFill(s: string, width: nat): (r: string)
    ensures |r| == if |s| >= width then |s| else width
    ensures r[|r| - |s|..] == s
    ensures forall k :: 0 <= k < |r| - |s| ==> r[k] == '0'
  {
    if |s| >= width then s else seq(width - |s|, _ => '0') + s
  }

  /** Leading zeros do not change the value of a digit string. */
  lemma {:induction false} LeadingZerosValue(z: nat, s: string)
    requires forall k :: 0 <= k < |s| ==> IsDigit(s[k])
    ensures var r := seq(z, _ => '0') + s; DigitsValue(r) == DigitsValue(s)
    decreases |s|
  {
    var r := seq(z, _ => '0') + s;
    if |s| == 0 {
      assert r == seq(z, _ => '0');
      ZerosValue(z);
    } else {
      assert r[..|r| - 1] == seq(z, _ => '0') + s[..|s| - 1];
      LeadingZerosValue(z, s[..|s| - 1]);
    }
  }

  lemma {:induction false} ZerosValue(z: nat)
    ensures DigitsValue(seq(z, _ => '0')) == 0
    decreases z
  {
    if z > 0 {
      assert seq(z, _ => '0')[..z - 1] == seq(z - 1, _ => '0');
      ZerosValue(z - 1);
    }
  }

  /** `str(k).zfill(4)` for a run number below 10000 is four digits that read back as k. */
  lemma ZFill4RoundTrip(k: nat)
    requires k < 10000
    ensures var s := ZFill(NatToString(k), 4);
      |s| == 4 && (forall i :: 0 <= i < 4 ==> IsDigit(s[i])) && DigitsValue(s) == k
  {
    var d := NatToString(k);
    assert Pow10(4) == 10000;
    NatToStringLength(k, 4);
    NatToStringValue(k);
    var s := ZFill(d, 4);
    assert s == seq(4 - |d|, _ => '0') + d;
    LeadingZerosValue(4 - |d|, d);
  }

  /** The characters Python's `str.strip()` removes (ASCII whitespace). */
  predicate IsSpace(ch: char)
  {
    ch == ' ' || ch == '\t' || ch == '\n' || ch == '\r' || ch == '\U{B}' || ch == '\U{C}'
  }

  /** Every character of `t` is whitespace. */
  predicate AllSpace(t: string)
  {
    forall k :: 0 <= k < |t| ==> IsSpace(t[k])
  }

  /** `s.strip()`. */
  function Strip(s: string): (r: string)
    ensures |r| <= |s|
    ensures |r| > 0 ==> !IsSpace(r[0]) && !IsSpace(r[|r| - 1])
    decreases |s|
  {
    if |s| > 0 && IsSpace(s[0]) then Strip(s[1..])
    else if |s| > 0 && IsSpace(s[|s| - 1]) then Strip(s[..|s| - 1])
    else s
  }

  /**
   * `s.strip()` is the slice s[i..j] of `s` left once the whitespace before i
   * and from j on is removed.
   */
  lemma {:induction false} StripIsTrimmedSlice(s: string) returns (i: nat, j: nat)
    ensures i <= j <= |s| && Strip(s) == s[i..j] && AllSpace(s[..i]) && AllSpace(s[j..])
    decreases |s|
  {
    if |s| > 0 && IsSpace(s[0]) {
      var i', j' := StripIsTrimmedSlice(s[1..]);
      i, j := i' + 1, j' + 1;
      LeadingSpaceSlices(s, i', j');
    } else if |s| > 0 && IsSpace(s[|s| - 1]) {
      i, j := StripIsTrimmedSlice(s[..|s| - 1]);
      TrailingSpaceSlices(s, i, j);
    } else {
      i, j := 0, |s|;
      assert s[..0] == [] && s[|s|..] == [];
    }
  }

  lemma LeadingSpaceSlices(s: string, i: nat, j: nat)
    requires |s| > 0 && IsSpace(s[0]) && i <= j <= |s| - 1
    requires AllSpace(s[1..][..i]) && AllSpace(s[1..][j..])
    ensures AllSpace(s[..i + 1]) && AllSpace(s[j + 1..]) && s[1..][i..j] == s[i + 1..j + 1]
  {
    var lead, rest := s[..i + 1], s[1..][..i];
    forall k | 0 < k < |lead| ensures IsSpace(lead[k]) {
      assert lead[k] == rest[k - 1];
    }
    assert s[j + 1..] == s[1..][j..];
  }

  lemma TrailingSpaceSlices(s: string, i: nat, j: nat)
    requires |s| > 0 && IsSpace(s[|s| - 1]) && i <= j <= |s| - 1
    requires AllSpace(s[..|s| - 1][..i]) && AllSpace(s[..|s| - 1][j..])
    ensures AllSpace(s[..i]) && AllSpace(s[j..]) && s[..|s| - 1][i..j] == s[i..j]
  {
    assert s[..i] == s[..|s| - 1][..i];
    forall k | 0 <= k < |s| - 1 - j ensures IsSpace(s[j..][k]) {
      assert s[j..][k] == s[..|s| - 1][j..][k];
    }
  }

  /**
   * `int(text)` on a field: surrounding whitespace is ignored, then an
   * optional sign and at least one decimal digit; anything else raises.
   */
  function ParseInt(text: string): (r: Result<int>)
  {
    var t := Strip(text);
    var negative := |t| > 0 && t[0] == '-';
    var body := if |t| > 0 && (t[0] == '-' || t[0] == '+') then t[1..] else t;
    if |body| > 0 && forall k :: 0 <= k < |body| ==> IsDigit(body[k]) then
      Success(if negative then -(DigitsValue(body) as int) else DigitsValue(body))
    else
      Failure(ValueError("invalid literal for int() with base 10"))
  }

  /** `int(str(n))` is n, with or without a trailing newline. */
  lemma ParseIntOfNatToString(n: nat)
    ensures ParseInt(NatToString(n)) == Success(n)
    ensures ParseInt(NatToString(n) + "\n") == Success(n)
  {
    var s := NatToString(n);
    NatToStringValue(n);
    StripOfDigits(s);
    ParseIntOfStripped(s, s);
    ParseIntOfStripped(s + "\n", s);
  }

  /** Digits are not stripped; a trailing newline is. */
  lemma StripOfDigits(s: string)
    requires |s| > 0 && forall k :: 0 <= k < |s| ==> IsDigit(s[k])
    ensures Strip(s) == s
    ensures Strip(s + "\n") == s
  {
    assert !IsSpace(s[0]) && !IsSpace(s[|s| - 1]);
    var t := s + "\n";
    assert t[0] == s[0];
    assert t[..|t| - 1] == s;
  }

  /** A text that strips to a digit string parses as its value. */
  lemma ParseIntOfStripped(text: string, s: string)
    requires |s| > 0 && (forall k :: 0 <= k < |s| ==> IsDigit(s[k])) && Strip(text) == s
    ensures ParseInt(text) == Success(DigitsValue(s))
  {
    assert IsDigit(s[0]);
  }

}
