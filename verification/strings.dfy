/** Character and string operations the program takes from JavaScript's String API. */
module Strings {
  import opened Wrappers

  // ----- case ---------------------------------------------------------------

  predicate IsUpper(c: char) { 'A' <= c <= 'Z' }

  /** `toLowerCase` on one character (ASCII letters only). */
  function LowerChar(c: char): (r: char)
    ensures !IsUpper(r)
    ensures !IsUpper(c) ==> r == c
  {
    if IsUpper(c) then (c as int + 32) as char else c
  }

  /** `String.prototype.toLowerCase`, restricted to ASCII letters. */
  function Lower(s: string): (r: string)
    ensures |r| == |s|
    ensures forall i :: 0 <= i < |s| ==> r[i] == LowerChar(s[i])
  {
    seq(|s|, i requires 0 <= i < |s| => LowerChar(s[i]))
  }

  /** Text without upper-case letters is its own lower case. */
  lemma LowerOfLower(s: string)
    requires forall i :: 0 <= i < |s| ==> !IsUpper(s[i])
    ensures Lower(s) == s
  {
  }

  /** Lower-casing twice is lower-casing once. */
  lemma LowerIdempotent(s: string)
    ensures Lower(Lower(s)) == Lower(s)
  {
  }

  // ----- white space (the `\s` class of JavaScript regular expressions and the set `trim` removes) -----

  predicate IsSpace(c: char) {
    c == '\t' || c == '\n' || c == '\U{B}' || c == '\U{C}' || c == '\r' || c == ' '
    || c == '\U{A0}' || c == '\U{1680}' || ('\U{2000}' <= c <= '\U{200A}')
    || c == '\U{2028}' || c == '\U{2029}' || c == '\U{202F}' || c == '\U{205F}'
    || c == '\U{3000}' || c == '\U{FEFF}'
  }

  /** The characters JavaScript's `.` does not match. */
  predicate IsLineTerminator(c: char) {
    c == '\n' || c == '\r' || c == '\U{2028}' || c == '\U{2029}'
  }

  predicate NoSpace(s: string) { forall i :: 0 <= i < |s| ==> !IsSpace(s[i]) }

  /** Number of white-space characters at the start of `s`. */
  function LeadingSpaces(s: string): (n: nat)
    ensures n <= |s|
    ensures forall k :: 0 <= k < n ==> IsSpace(s[k])
    ensures n < |s| ==> !IsSpace(s[n])
  {
    if s == [] || !IsSpace(s[0]) then 0 else 1 + LeadingSpaces(s[1..])
  }

  /** Number of white-space characters at the end of `s`. */
  function TrailingSpaces(s: string): (n: nat)
    ensures n <= |s|
    ensures forall k :: |s| - n <= k < |s| ==> IsSpace(s[k])
    ensures n < |s| ==> !IsSpace(s[|s| - 1 - n])
  {
    if s == [] || !IsSpace(s[|s| - 1]) then 0 else 1 + TrailingSpaces(s[..|s| - 1])
  }

  /** `String.prototype.trim`: the part of `s` between its leading and trailing white space. */
  function Trim(s: string): (r: string)
    ensures r == s[LeadingSpaces(s)..|s| - TrailingSpaces(s[LeadingSpaces(s)..])]
    ensures r == [] || (!IsSpace(r[0]) && !IsSpace(r[|r| - 1]))
  {
    var t := s[LeadingSpaces(s)..];
    t[..|t| - TrailingSpaces(t)]
  }

  /** Text that neither starts nor ends with white space trims to itself. */
  lemma TrimUntouched(s: string)
    requires s != [] ==> !IsSpace(s[0]) && !IsSpace(s[|s| - 1])
    ensures Trim(s) == s
  {
    if s != [] {
      assert LeadingSpaces(s) == 0;
      assert TrailingSpaces(s) == 0;
    }
  }

  // ----- searching -----------------------------------------------------------

  predicate OccursAt(s: string, p: string, i: nat) {
    i + |p| <= |s| && s[i..i + |p|] == p
  }

  /** `s.indexOf(p, from)`: the first position at or after `from` where `p` occurs. */
  function IndexOf(s: string, p: string, from: nat): (r: Option<nat>)
    ensures r.Some? ==> from <= r.value && OccursAt(s, p, r.value)
    ensures r.Some? ==> forall j :: from <= j < r.value ==> !OccursAt(s, p, j)
    ensures r.None? ==> forall j :: from <= j ==> !OccursAt(s, p, j)
    decreases |s| - from
  {
    if from + |p| > |s| then None
    else if s[from..from + |p|] == p then Some(from)
    else IndexOf(s, p, from + 1)
  }

  /** `s.includes(p)`. */
  predicate Contains(s: string, p: string) {
    IndexOf(s, p, 0).Some?
  }

  lemma ContainsAt(s: string, p: string, i: nat)
    requires OccursAt(s, p, i)
    ensures Contains(s, p)
  {
  }

  /** A phrase holding a character that `s` lacks does not occur in `s`. */
  lemma NotContainsMissingChar(s: string, p: string, j: nat)
    requires j < |p|
    requires forall k :: 0 <= k < |s| ==> s[k] != p[j]
    ensures !Contains(s, p)
  {
    forall i: nat
      ensures !OccursAt(s, p, i)
    {
      if i + |p| <= |s| {
        assert s[i..i + |p|][j] == s[i + j];
      }
    }
  }

  /** The same, with the missing character stated as sequence membership. */
  lemma MissingChar(s: string, p: string, j: nat)
    requires j < |p| && p[j] !in s
    ensures !Contains(s, p)
  {
    forall k | 0 <= k < |s| ensures s[k] != p[j] {
      assert s[k] in s;
    }
    NotContainsMissingChar(s, p, j);
  }

  /** `s.startsWith(p)`. */
  predicate StartsWith(s: string, p: string) {
    |p| <= |s| && s[..|p|] == p
  }

  // ----- joining -------------------------------------------------------------

  /** `Array.prototype.join(sep)` over strings. */
  function Join(items: seq<string>, sep: string): (r: string)
    ensures items == [] ==> r == []
    ensures |items| == 1 ==> r == items[0]
  {
    if items == [] then []
    else if |items| == 1 then items[0]
    else items[0] + sep + Join(items[1..], sep)
  }

  /** The joined text is empty exactly when every item is empty and there is at most one item. */
  lemma JoinEmpty(items: seq<string>, sep: string)
    requires sep != []
    ensures Join(items, sep) == [] <==> (|items| <= 1 && forall i :: 0 <= i < |items| ==> items[i] == [])
  {
  }

  /** Where the `i`-th item starts in `Join(items, sep)`: the earlier items, each with a separator. */
  function JoinOffset(items: seq<string>, sep: string, i: nat): nat
    requires i <= |items|
  {
    if i == 0 then 0 else JoinOffset(items, sep, i - 1) + |items[i - 1]| + |sep|
  }

  /** Offsets past the first item are those of the remaining items, moved by the first item and a separator. */
  lemma {:induction false} JoinOffsetTail(items: seq<string>, sep: string, i: nat)
    requires 1 <= i <= |items|
    ensures JoinOffset(items, sep, i) == |items[0]| + |sep| + JoinOffset(items[1..], sep, i - 1)
  {
    if i > 1 {
      JoinOffsetTail(items, sep, i - 1);
      assert items[1..][i - 2] == items[i - 1];
    }
  }

  /** A later item starts after an earlier item and its separator. */
  lemma {:induction false} JoinOffsetIncreasing(items: seq<string>, sep: string, i: nat, j: nat)
    requires i < j <= |items|
    ensures JoinOffset(items, sep, i) + |items[i]| + |sep| <= JoinOffset(items, sep, j)
  {
    if i + 1 < j {
      JoinOffsetIncreasing(items, sep, i, j - 1);
    }
  }

  /** A text that opens with `h` opens with every prefix of `h`. */
  lemma PrefixOfPrefix(d: string, h: string, n: nat)
    requires n <= |h| <= |d| && d[..|h|] == h
    ensures d[..n] == h[..n]
  {
    assert d[..n] == d[..|h|][..n];
  }

  /** The slice of `a + b + c` covering `b[x..y]`. */
  lemma SliceOfMiddle(a: string, b: string, c: string, x: nat, y: nat)
    requires x <= y <= |b|
    ensures (a + b + c)[|a| + x..|a| + y] == b[x..y]
  {
    forall j | 0 <= j < y - x
      ensures (a + b + c)[|a| + x..|a| + y][j] == b[x..y][j]
    {
      assert (a + b + c)[|a| + x + j] == b[x + j];
    }
  }

  /** Five pieces laid end to end: where each of them starts and what the text holds there. */
  lemma Pieces(h: string, n: string, m: string, e: string, t: string)
    ensures var d := h + n + m + e + t;
            && |d| == |h| + |n| + |m| + |e| + |t|
            && d[..|h|] == h && d[|d| - |t|..] == t
            && d == h + n + (m + e + t)
            && d == (h + n) + m + (e + t)
            && d == (h + n + m) + e + t
  {
    var d := h + n + m + e + t;
    assert d[..|h|] == h;
    assert d[|d| - |t|..] == t;
    assert d == h + n + (m + e + t);
    assert d == (h + n) + m + (e + t);
  }

  /** The `i`-th item of a joined text placed after `h`, whatever follows it. */
  lemma ItemAfter(h: string, items: seq<string>, sep: string, rest: string, i: nat)
    requires i < |items|
    ensures |h| + JoinOffset(items, sep, i) + |items[i]| <= |h| + |Join(items, sep)|
    ensures OccursAt(h + Join(items, sep) + rest, items[i], |h| + JoinOffset(items, sep, i))
  {
    var o := JoinOffset(items, sep, i);
    JoinItemAt(items, sep, i);
    SliceOfMiddle(h, Join(items, sep), rest, o, o + |items[i]|);
  }

  /** The `j`-th item of a joined text placed after three pieces, whatever follows it. */
  lemma ItemAfterThree(h: string, n: string, m: string, items: seq<string>, sep: string, t: string, j: nat)
    requires j < |items|
    ensures OccursAt(h + n + m + Join(items, sep) + t, items[j], |h| + |n| + |m| + JoinOffset(items, sep, j))
  {
    ItemAfter(h + n + m, items, sep, t, j);
  }

  /** The joined text is as long as the items with a separator between each two. */
  lemma {:induction false} JoinLength(items: seq<string>, sep: string)
    requires items != []
    ensures |Join(items, sep)| + |sep| == JoinOffset(items, sep, |items|)
    decreases |items|
  {
    if |items| >= 2 {
      JoinLength(items[1..], sep);
      JoinOffsetTail(items, sep, |items|);
    }
  }

  /** The `i`-th item sits at its offset in the joined text. */
  lemma {:induction false} JoinItemAt(items: seq<string>, sep: string, i: nat)
    requires i < |items|
    ensures JoinOffset(items, sep, i) + |items[i]| <= |Join(items, sep)|
    ensures Join(items, sep)[JoinOffset(items, sep, i)..JoinOffset(items, sep, i) + |items[i]|] == items[i]
    decreases |items|
  {
    if |items| == 1 {
    } else if i == 0 {
      assert Join(items, sep) == items[0] + sep + Join(items[1..], sep);
    } else {
      var tail := items[1..];
      var o := JoinOffset(tail, sep, i - 1);
      JoinItemAt(tail, sep, i - 1);
      JoinOffsetTail(items, sep, i);
      assert tail[i - 1] == items[i];
      SliceOfMiddle(items[0] + sep, Join(tail, sep), [], o, o + |items[i]|);
      assert items[0] + sep + Join(tail, sep) + [] == Join(items, sep);
    }
  }

  /** Between the `i`-th item and the next sits exactly the separator. */
  lemma {:induction false} JoinSeparatorAt(items: seq<string>, sep: string, i: nat)
    requires i + 1 < |items|
    ensures JoinOffset(items, sep, i) + |items[i]| + |sep| == JoinOffset(items, sep, i + 1) <= |Join(items, sep)|
    ensures Join(items, sep)[JoinOffset(items, sep, i) + |items[i]|..JoinOffset(items, sep, i + 1)] == sep
    decreases |items|
  {
    var tail := items[1..];
    JoinOffsetTail(items, sep, i + 1);
    if i == 0 {
      assert Join(items, sep) == items[0] + sep + Join(tail, sep);
      SliceOfMiddle(items[0], sep, Join(tail, sep), 0, |sep|);
    } else {
      JoinSeparatorAt(tail, sep, i - 1);
      JoinOffsetTail(items, sep, i);
      var o := JoinOffset(tail, sep, i - 1);
      assert tail[i - 1] == items[i];
      SliceOfMiddle(items[0] + sep, Join(tail, sep), [], o + |items[i]|, JoinOffset(tail, sep, i));
      assert items[0] + sep + Join(tail, sep) + [] == Join(items, sep);
    }
  }

  // ----- numbers as text -------------------------------------------------------

  function DigitChar(d: nat): (c: char)
    requires d < 10
  {
    ('0' as int + d) as char
  }

  predicate IsDigit(c: char) { '0' <= c <= '9' }

  function DigitValue(c: char): (d: nat)
    requires IsDigit(c)
    ensures d < 10
  {
    c as int - '0' as int
  }

  /** `String(n)` for a non-negative integer: its decimal digits, most significant first. */
  function NatToString(n: nat): (r: string)
    ensures |r| >= 1
    ensures forall i :: 0 <= i < |r| ==> IsDigit(r[i])
    ensures n < 10 <==> |r| == 1
  {
    if n < 10 then [DigitChar(n)] else NatToString(n / 10) + [DigitChar(n % 10)]
  }

  /** `String(i)` for any integer. */
  function IntToString(i: int): (r: string)
    ensures |r| >= 1
  {
    if i < 0 then "-" + NatToString(-i) else NatToString(i)
  }

  /** The value of a string of decimal digits (as `parseInt` reads it). */
  function DigitsValue(s: string): (n: nat)
    requires forall i :: 0 <= i < |s| ==> IsDigit(s[i])
  {
    if s == [] then 0 else DigitsValue(s[..|s| - 1]) * 10 + DigitValue(s[|s| - 1])
  }

  /** Reading back the decimal text of `n` yields `n`. */
  lemma {:induction false} NatToStringRoundTrip(n: nat)
    ensures DigitsValue(NatToString(n)) == n
  {
    if n >= 10 {
      var s := NatToString(n);
      assert s[..|s| - 1] == NatToString(n / 10);
      NatToStringRoundTrip(n / 10);
    }
  }

  /** Distinct numbers have distinct decimal texts. */
  lemma NatToStringInjective(a: nat, b: nat)
    requires NatToString(a) == NatToString(b)
    ensures a == b
  {
    NatToStringRoundTrip(a);
    NatToStringRoundTrip(b);
  }

  /** `String(n).padStart(2, '0')`. */
  function PadStart2(s: string): (r: string)
    ensures |r| >= 2 || |r| == |s| + 1
  {
    if |s| >= 2 then s else seq(2 - |s|, _ => '0') + s
  }

  // ----- replacing -------------------------------------------------------------

  /**
   * `s.replace(/p/g, r)` for a literal, non-empty `p`: occurrences are found left to right
   * and do not overlap; the replacement text is inserted literally.
   */
  function ReplaceAll(s: string, p: string, r: string): (t: string)
    requires p != []
    decreases |s|
  {
    if |s| < |p| then s
    else if s[..|p|] == p then r + ReplaceAll(s[|p|..], p, r)
    else [s[0]] + ReplaceAll(s[1..], p, r)
  }

  /** The number of non-overlapping occurrences `ReplaceAll` rewrites. */
  function Occurrences(s: string, p: string): nat
    requires p != []
    decreases |s|
  {
    if |s| < |p| then 0
    else if s[..|p|] == p then 1 + Occurrences(s[|p|..], p)
    else Occurrences(s[1..], p)
  }

  /** Each rewritten occurrence changes the length by `|r| - |p|`. */
  lemma {:induction false} ReplaceAllLength(s: string, p: string, r: string)
    requires p != []
    ensures |ReplaceAll(s, p, r)| == |s| + Occurrences(s, p) * (|r| - |p|)
    decreases |s|
  {
    var d := |r| - |p|;
    if |s| < |p| {
      assert Occurrences(s, p) == 0;
    } else if s[..|p|] == p {
      var rest := s[|p|..];
      ReplaceAllLength(rest, p, r);
      var k := Occurrences(rest, p);
      assert |ReplaceAll(rest, p, r)| == |rest| + k * d;
      MulSucc(k, d);
    } else {
      ReplaceAllLength(s[1..], p, r);
    }
  }

  lemma MulSucc(k: int, d: int)
    ensures (k + 1) * d == k * d + d
  {
  }

  /** Text that is exactly the pattern is replaced as a whole. */
  lemma ReplaceAllWhole(p: string, r: string)
    requires p != []
    ensures ReplaceAll(p, p, r) == r
  {
    assert p[..|p|] == p && p[|p|..] == [];
    assert ReplaceAll(p, p, r) == r + ReplaceAll([], p, r);
  }

  /** Text in which `p` does not occur is left as it is. */
  lemma {:induction false} ReplaceAllAbsent(s: string, p: string, r: string)
    requires p != []
    requires !Contains(s, p)
    ensures ReplaceAll(s, p, r) == s
    decreases |s|
  {
    if |s| >= |p| {
      assert !OccursAt(s, p, 0);
      assert !Contains(s[1..], p) by {
        if Contains(s[1..], p) {
          var i := IndexOf(s[1..], p, 0).value;
          assert s[1..][i..i + |p|] == s[i + 1..i + 1 + |p|];
          ContainsAt(s, p, i + 1);
        }
      }
      ReplaceAllAbsent(s[1..], p, r);
    }
  }

  // ----- white-space runs --------------------------------------------------------

  /** `s.replace(/\s+/g, sep)`: every maximal run of white space becomes `sep`. */
  function ReplaceSpaceRuns(s: string, sep: string): (r: string)
    decreases |s|
  {
    if s == [] then []
    else if IsSpace(s[0]) then sep + ReplaceSpaceRuns(s[LeadingSpaces(s)..], sep)
    else [s[0]] + ReplaceSpaceRuns(s[1..], sep)
  }

  /** When the separator holds no white space, neither does the result. */
  lemma {:induction false} ReplaceSpaceRunsNoSpace(s: string, sep: string)
    requires NoSpace(sep)
    ensures NoSpace(ReplaceSpaceRuns(s, sep))
    decreases |s|
  {
    if s == [] {
    } else if IsSpace(s[0]) {
      ReplaceSpaceRunsNoSpace(s[LeadingSpaces(s)..], sep);
    } else {
      ReplaceSpaceRunsNoSpace(s[1..], sep);
    }
  }

  /** Text without white space has no run to replace. */
  lemma {:induction false} ReplaceSpaceRunsNone(s: string, sep: string)
    requires NoSpace(s)
    ensures ReplaceSpaceRuns(s, sep) == s
    decreases |s|
  {
    if s != [] {
      ReplaceSpaceRunsNone(s[1..], sep);
    }
  }

  /** A non-empty white-space prefix followed by a non-space character is exactly one run. */
  lemma {:induction false} LeadingSpacesOfRun(w: string, b: string)
    requires forall k :: 0 <= k < |w| ==> IsSpace(w[k])
    requires b == [] || !IsSpace(b[0])
    ensures LeadingSpaces(w + b) == |w|
    decreases |w|
  {
    if w != [] {
      assert (w + b)[1..] == w[1..] + b;
      LeadingSpacesOfRun(w[1..], b);
    }
  }

  /**
   * The `g` flag and `\s+` together: a space-free head, one maximal run `w` and the rest
   * become the head, one `sep` and the rest's replacement.
   */
  lemma {:induction false} ReplaceSpaceRunsSplit(a: string, w: string, b: string, sep: string)
    requires NoSpace(a)
    requires |w| > 0 && forall k :: 0 <= k < |w| ==> IsSpace(w[k])
    requires b == [] || !IsSpace(b[0])
    ensures ReplaceSpaceRuns(a + w + b, sep) == a + sep + ReplaceSpaceRuns(b, sep)
    decreases |a|
  {
    if a == [] {
      assert a + w + b == w + b;
      LeadingSpacesOfRun(w, b);
      assert (w + b)[|w|..] == b;
    } else {
      assert (a + w + b)[0] == a[0];
      assert (a + w + b)[1..] == a[1..] + w + b;
      ReplaceSpaceRunsSplit(a[1..], w, b, sep);
      assert a == [a[0]] + a[1..];
    }
  }

  /** Lower-casing neither creates nor removes white space. */
  lemma LowerKeepsSpace(c: char)
    ensures IsSpace(LowerChar(c)) <==> IsSpace(c)
  {
  }

  /** Removing every run (`sep` empty) keeps exactly the non-space characters, in order. */
  lemma {:induction false} RemoveSpaceRunsFilters(s: string)
    ensures ReplaceSpaceRuns(s, "") == NonSpace(s)
    decreases |s|
  {
    if s == [] {
    } else if IsSpace(s[0]) {
      var n := LeadingSpaces(s);
      NonSpaceSkip(s, n);
      RemoveSpaceRunsFilters(s[n..]);
    } else {
      RemoveSpaceRunsFilters(s[1..]);
    }
  }

  /** The non-space characters of `s`, in order. */
  function NonSpace(s: string): (r: string)
  {
    if s == [] then [] else (if IsSpace(s[0]) then [] else [s[0]]) + NonSpace(s[1..])
  }

  lemma {:induction false} NonSpaceSkip(s: string, n: nat)
    requires n <= |s|
    requires forall k :: 0 <= k < n ==> IsSpace(s[k])
    ensures NonSpace(s) == NonSpace(s[n..])
  {
    if n > 0 {
      assert s[1..][n - 1..] == s[n..];
      NonSpaceSkip(s[1..], n - 1);
    }
  }

  // ----- en-US digit grouping --------------------------------------------------------

  function Pad3(n: nat): (r: string)
    requires n < 1000
    ensures |r| == 3
  {
    [DigitChar(n / 100), DigitChar(n / 10 % 10), DigitChar(n % 10)]
  }

  /** `n.toLocaleString('en-US')` for an integer: digits grouped in threes by commas. */
  function Grouped(n: int): string
  {
    if n < 0 then "-" + GroupedNat(-n) else GroupedNat(n)
  }

  function GroupedNat(n: nat): string
  {
    if n < 1000 then NatToString(n) else GroupedNat(n / 1000) + "," + Pad3(n % 1000)
  }
}
