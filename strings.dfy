/**
 * The string helpers the models rely on: trim_whitespace from
 * next/misc/string_tools.h, decimal rendering of numbers (the `<<` of a
 * stringstream), substring search (`std::string::find`), ASCII case folding
 * and case-insensitive comparison (Poco's toLower and icompare), the tab
 * separated tag list of a time entry, and the lexicographic order that
 * `std::sort` uses on strings.
 */
module Strings {

  // ---------------------------------------------------------------- trim

  /** The characters trim_whitespace strips: a space and a tab. */
  predicate IsWhitespace(c: char) {
    c == ' ' || c == '\t'
  }

  /** Every character of `s` from index `i` up to `j` is whitespace. */
  predicate WhitespaceBetween(s: string, i: nat, j: nat)
    requires i <= j <= |s|
  {
    forall m :: i <= m < j ==> IsWhitespace(s[m])
  }

  /** The index of the first non-whitespace character at or after `i`, or |s|. */
  function FirstNonWhitespace(s: string, i: nat): (k: nat)
    requires i <= |s|
    ensures i <= k <= |s|
    ensures WhitespaceBetween(s, i, k)
    ensures k < |s| ==> !IsWhitespace(s[k])
    decreases |s| - i
  {
    if i == |s| || !IsWhitespace(s[i]) then i else FirstNonWhitespace(s, i + 1)
  }

  /** One past the last non-whitespace character before `j`, or 0. */
  function EndOfNonWhitespace(s: string, j: nat): (k: nat)
    requires j <= |s|
    ensures k <= j
    ensures WhitespaceBetween(s, k, j)
    ensures k > 0 ==> !IsWhitespace(s[k - 1])
  {
    if j == 0 || !IsWhitespace(s[j - 1]) then j else EndOfNonWhitespace(s, j - 1)
  }

  /**
   * trim_whitespace: the text between the first and the last character that
   * is neither a space nor a tab; the empty string when there is none.
   */
  function TrimWhitespace(s: string): (r: string)
    ensures r == "" <==> WhitespaceBetween(s, 0, |s|)
    ensures r != "" ==> !IsWhitespace(r[0]) && !IsWhitespace(r[|r| - 1])
    ensures exists b :: 0 <= b <= |s| - |r| && r == s[b..b + |r|]
                        && WhitespaceBetween(s, 0, b) && WhitespaceBetween(s, b + |r|, |s|)
  {
    var b := FirstNonWhitespace(s, 0);
    if b == |s| then
      assert WhitespaceBetween(s, 0, 0) && WhitespaceBetween(s, |s|, |s|);
      ""
    else
      var e := EndOfNonWhitespace(s, |s|);
      assert b < e;
      s[b..e]
  }

  /** Trimming twice is trimming once. */
  lemma TrimIdempotent(s: string)
    ensures TrimWhitespace(TrimWhitespace(s)) == TrimWhitespace(s)
  {
    var r := TrimWhitespace(s);
    if r != "" {
      assert FirstNonWhitespace(r, 0) == 0;
      assert EndOfNonWhitespace(r, |r|) == |r|;
      assert r[0..|r|] == r;
    }
  }

  // ------------------------------------------------------------- numbers

  predicate IsDigit(c: char) {
    '0' <= c <= '9'
  }

  function DigitChar(d: nat): (c: char)
    requires d < 10
    ensures IsDigit(c)
  {
    (d + '0' as int) as char
  }

  function DigitValue(c: char): (d: nat)
    requires IsDigit(c)
    ensures d < 10
  {
    c as int - '0' as int
  }

  /** The decimal text of a non-negative number, as a stream prints it. */
  function NatToString(n: nat): (r: string)
    ensures |r| >= 1
    ensures forall i :: 0 <= i < |r| ==> IsDigit(r[i])
    ensures |r| > 1 ==> r[0] != '0'
  {
    if n < 10 then [DigitChar(n)] else NatToString(n / 10) + [DigitChar(n % 10)]
  }

  /** The decimal text of a signed number: a minus sign before a negative one. */
  function IntToString(n: int): (r: string)
    ensures |r| >= 1
    ensures r[0] == '-' <==> n < 0
  {
    if n < 0 then "-" + NatToString(-n) else NatToString(n)
  }

  /** Reads a string of digits back as a number. */
  function ParseDigits(s: string): nat
    requires forall i :: 0 <= i < |s| ==> IsDigit(s[i])
  {
    if s == [] then 0 else ParseDigits(s[..|s| - 1]) * 10 + DigitValue(s[|s| - 1])
  }

  /** Rendering a number in decimal loses nothing: it reads back as the same number. */
  lemma {:induction false} NatToStringRoundTrip(n: nat)
    ensures ParseDigits(NatToString(n)) == n
  {
    if n >= 10 {
      NatToStringRoundTrip(n / 10);
      var r := NatToString(n);
      assert r[..|r| - 1] == NatToString(n / 10);
    }
  }

  /** Different numbers have different decimal texts (so an ID in a URL is unambiguous). */
  lemma NatToStringInjective(m: nat, n: nat)
    requires NatToString(m) == NatToString(n)
    ensures m == n
  {
    NatToStringRoundTrip(m);
    NatToStringRoundTrip(n);
  }

  // ------------------------------------------------------ substring search

  /** `pat` occurs in `text` starting at index `i`. */
  predicate OccursAt(text: string, pat: string, i: nat) {
    i + |pat| <= |text| && text[i..i + |pat|] == pat
  }

  /** `text.find(pat) != std::string::npos`. */
  predicate Contains(text: string, pat: string) {
    exists i: nat | i <= |text| :: OccursAt(text, pat, i)
  }

  /** Every string contains the empty string; a longer string never occurs in a shorter one. */
  lemma ContainsBounds(text: string, pat: string)
    ensures Contains(text, "")
    ensures Contains(text, pat) ==> |pat| <= |text|
  {
    assert OccursAt(text, "", 0);
  }

  // ------------------------------------------------------------ case folding

  predicate IsUpperAscii(c: char) {
    'A' <= c <= 'Z'
  }

  /** ASCII lower-casing of one character; every other character is kept. */
  function LowerChar(c: char): (d: char)
    ensures !IsUpperAscii(d)
    ensures !IsUpperAscii(c) ==> d == c
    ensures IsUpperAscii(c) ==> d as int == c as int + 32
  {
    if IsUpperAscii(c) then (c as int + 32) as char else c
  }

  function ToLower(s: string): (r: string)
    ensures |r| == |s|
    ensures forall i :: 0 <= i < |s| ==> r[i] == LowerChar(s[i])
  {
    seq(|s|, i requires 0 <= i < |s| => LowerChar(s[i]))
  }

  predicate HasUpperAscii(s: string) {
    exists i :: 0 <= i < |s| && IsUpperAscii(s[i])
  }

  /** A pattern with an upper-case ASCII letter never occurs in lower-cased text. */
  lemma {:induction false} NoUpperInLowered(text: string, pat: string)
    requires HasUpperAscii(pat)
    ensures !Contains(ToLower(text), pat)
  {
    var k :| 0 <= k < |pat| && IsUpperAscii(pat[k]);
    var lowered := ToLower(text);
    forall i: nat | i <= |lowered| ensures !OccursAt(lowered, pat, i) {
      if i + |pat| <= |lowered| {
        assert lowered[i..i + |pat|][k] == LowerChar(text[i + k]);
      }
    }
  }

  /**
   * Poco's icompare: the first differing character after ASCII lower-casing
   * decides; a proper prefix sorts first. The result is -1, 0 or 1.
   */
  function ICompare(a: string, b: string): (r: int)
    ensures -1 <= r <= 1
    ensures r == 0 <==> ToLower(a) == ToLower(b)
  {
    if a == [] then (if b == [] then 0 else -1)
    else if b == [] then 1
    else if LowerChar(a[0]) < LowerChar(b[0]) then -1
    else if LowerChar(a[0]) > LowerChar(b[0]) then 1
    else
      assert ToLower(a) == [LowerChar(a[0])] + ToLower(a[1..]);
      assert ToLower(b) == [LowerChar(b[0])] + ToLower(b[1..]);
      ICompare(a[1..], b[1..])
  }

  /** Swapping the arguments of icompare negates its result. */
  lemma {:induction false} ICompareAntisymmetric(a: string, b: string)
    ensures ICompare(b, a) == -ICompare(a, b)
  {
    if a != [] && b != [] && LowerChar(a[0]) == LowerChar(b[0]) {
      ICompareAntisymmetric(a[1..], b[1..]);
    }
  }

  // ------------------------------------------------ lexicographic ordering

  /** `std::string::operator<`: the first differing character decides; a proper prefix is smaller. */
  predicate Less(a: string, b: string) {
    if a == [] then b != []
    else if b == [] then false
    else if a[0] != b[0] then a[0] < b[0]
    else Less(a[1..], b[1..])
  }

  lemma {:induction false} LessIrreflexive(a: string)
    ensures !Less(a, a)
  {
    if a != [] {
      LessIrreflexive(a[1..]);
    }
  }

  lemma {:induction false} LessTotal(a: string, b: string)
    ensures a == b || Less(a, b) || Less(b, a)
  {
    if a != [] && b != [] && a[0] == b[0] {
      LessTotal(a[1..], b[1..]);
      if a[1..] == b[1..] {
        assert a == [a[0]] + a[1..] && b == [b[0]] + b[1..];
      }
    }
  }

  lemma {:induction false} LessAsymmetric(a: string, b: string)
    ensures !(Less(a, b) && Less(b, a))
  {
    if a != [] && b != [] && a[0] == b[0] {
      LessAsymmetric(a[1..], b[1..]);
    }
  }

  lemma {:induction false} LessTransitive(a: string, b: string, c: string)
    requires Less(a, b) && Less(b, c)
    ensures Less(a, c)
  {
    if a != [] && b != [] && c != [] && a[0] == b[0] && b[0] == c[0] {
      LessTransitive(a[1..], b[1..], c[1..]);
    }
  }

  predicate SortedStrings(s: seq<string>) {
    forall i, j :: 0 <= i < j < |s| ==> !Less(s[j], s[i])
  }

  /** Inserts `x` into a sorted sequence, keeping it sorted. */
  function InsertSorted(x: string, s: seq<string>): (r: seq<string>)
    requires SortedStrings(s)
    ensures SortedStrings(r)
    ensures multiset(r) == multiset(s) + multiset{x}
  {
    if s == [] then [x]
    else if !Less(s[0], x) then
      assert forall j :: 0 < j < |s| ==> !Less(s[j], x) by {
        forall j | 0 < j < |s| ensures !Less(s[j], x) {
          LessTotal(s[0], x);
          if Less(s[j], x) {
            LessTotal(s[j], s[0]);
            if s[j] != s[0] { LessTransitive(s[0], s[j], x); }
          }
        }
      }
      [x] + s
    else
      var t := InsertSorted(x, s[1..]);
      assert s == [s[0]] + s[1..];
      assert forall k :: 0 <= k < |t| ==> !Less(t[k], s[0]) by {
        forall k | 0 <= k < |t| ensures !Less(t[k], s[0]) {
          assert t[k] in multiset(t);
          assert t[k] == x || t[k] in multiset(s[1..]);
          if t[k] == x {
            LessAsymmetric(x, s[0]);
            LessTotal(x, s[0]);
          } else {
            var j :| 0 <= j < |s[1..]| && s[1..][j] == t[k];
            assert s[j + 1] == t[k];
          }
        }
      }
      [s[0]] + t
  }

  /** `std::sort` on strings: the sorted permutation of its input. */
  function SortStrings(s: seq<string>): (r: seq<string>)
    ensures SortedStrings(r)
    ensures multiset(r) == multiset(s)
  {
    if s == [] then []
    else
      assert s == [s[0]] + s[1..];
      InsertSorted(s[0], SortStrings(s[1..]))
  }

  /** The head of a sorted sequence is not above any of its elements. */
  lemma SortedHeadIsLeast(a: seq<string>, x: string)
    requires SortedStrings(a) && x in multiset(a)
    ensures !Less(x, a[0])
  {
    var j :| 0 <= j < |a| && a[j] == x;
    if j == 0 { LessIrreflexive(x); }
  }

  /** Two sorted sequences holding the same strings are the same sequence. */
  lemma {:induction false} SortedUnique(a: seq<string>, b: seq<string>)
    requires SortedStrings(a) && SortedStrings(b)
    requires multiset(a) == multiset(b)
    ensures a == b
    decreases |a|
  {
    if a != [] {
      assert |b| == |multiset(b)| == |multiset(a)| == |a|;
      SortedHeadIsLeast(a, b[0]);
      SortedHeadIsLeast(b, a[0]);
      LessTotal(a[0], b[0]);
      var x := a[0];
      assert a == [x] + a[1..] && b == [x] + b[1..];
      assert multiset(a[1..]) == multiset(a) - multiset{x};
      assert multiset(b[1..]) == multiset(b) - multiset{x};
      SortedUnique(a[1..], b[1..]);
    }
  }

  /** Sorting forgets the order of its input: permutations sort to the same sequence. */
  lemma SortIgnoresOrder(a: seq<string>, b: seq<string>)
    requires multiset(a) == multiset(b)
    ensures SortStrings(a) == SortStrings(b)
  {
    SortedUnique(SortStrings(a), SortStrings(b));
  }

  // ------------------------------------------------------ separated lists

  /** The parts written one after another with `sep` between neighbours. */
  function Join(parts: seq<string>, sep: char): (r: string)
  {
    if |parts| == 0 then ""
    else if |parts| == 1 then parts[0]
    else Join(parts[..|parts| - 1], sep) + [sep] + parts[|parts| - 1]
  }

  /**
   * The pieces of `s` between occurrences of `sep`, as a stringstream read
   * with getline while it is good yields them: a leading or trailing
   * separator gives an empty piece, and the empty string gives one empty piece.
   */
  function Split(s: string, sep: char): (r: seq<string>)
    ensures |r| >= 1
    ensures forall i :: 0 <= i < |r| ==> sep !in r[i]
  {
    if |s| == 0 then [""]
    else
      var p := Split(s[..|s| - 1], sep);
      var c := s[|s| - 1];
      if c == sep then p + [""] else p[..|p| - 1] + [p[|p| - 1] + [c]]
  }

  /** Extending the last piece by one character extends the joined text by it. */
  lemma JoinExtendLast(p: seq<string>, sep: char, c: char)
    requires |p| >= 1
    ensures Join(p[..|p| - 1] + [p[|p| - 1] + [c]], sep) == Join(p, sep) + [c]
  {
    var q := p[..|p| - 1] + [p[|p| - 1] + [c]];
    assert q[..|q| - 1] == p[..|p| - 1];
  }

  /** Appending an empty piece appends a separator. */
  lemma JoinAppendEmpty(p: seq<string>, sep: char)
    requires |p| >= 1
    ensures Join(p + [""], sep) == Join(p, sep) + [sep]
  {
    assert (p + [""])[..|p|] == p;
  }

  /** Joining the pieces with the separator gives the original string back. */
  lemma {:induction false} JoinSplit(s: string, sep: char)
    ensures Join(Split(s, sep), sep) == s
  {
    if |s| > 0 {
      var init := s[..|s| - 1];
      var c := s[|s| - 1];
      JoinSplit(init, sep);
      if c == sep {
        JoinAppendEmpty(Split(init, sep), sep);
      } else {
        JoinExtendLast(Split(init, sep), sep, c);
      }
      assert s == init + [c];
    }
  }

  /** A string without the separator is one piece. */
  lemma {:induction false} SplitWithoutSeparator(s: string, sep: char)
    requires sep !in s
    ensures Split(s, sep) == [s]
  {
    if |s| > 0 {
      SplitWithoutSeparator(s[..|s| - 1], sep);
      assert s[..|s| - 1] + [s[|s| - 1]] == s;
    }
  }

  /** Appending a separator and a piece without separators appends that piece. */
  lemma {:induction false} SplitAppend(x: string, sep: char, last: string)
    requires sep !in last
    ensures Split(x + [sep] + last, sep) == Split(x, sep) + [last]
    decreases |last|
  {
    var s := x + [sep] + last;
    if |last| == 0 {
      assert s[..|s| - 1] == x;
    } else {
      var init := last[..|last| - 1];
      SplitAppend(x, sep, init);
      assert s[..|s| - 1] == x + [sep] + init;
      assert init + [last[|last| - 1]] == last;
    }
  }

  /** Splitting a join of separator-free pieces gives the pieces back. */
  lemma {:induction false} SplitJoin(parts: seq<string>, sep: char)
    requires |parts| >= 1
    requires forall i :: 0 <= i < |parts| ==> sep !in parts[i]
    ensures Split(Join(parts, sep), sep) == parts
  {
    if |parts| == 1 {
      SplitWithoutSeparator(parts[0], sep);
    } else {
      var init := parts[..|parts| - 1];
      SplitJoin(init, sep);
      SplitAppend(Join(init, sep), sep, parts[|parts| - 1]);
      assert init + [parts[|parts| - 1]] == parts;
    }
  }
}
