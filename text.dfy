/**
 * The string operations the Python agent relies on: substring search (`in`,
 * `str.find`), `str.split(sep)`, `str.strip()`, `sep.join(...)`, `str(int)`,
 * the `{:,}` thousands format and ASCII `str.lower()`.
 */
module Text {
  import opened Wrappers

  /** `pat` occurs in `s` starting at position `j`. */
  predicate OccursAt(s: string, pat: string, j: int)
  {
    0 <= j && j + |pat| <= |s| && s[j..j + |pat|] == pat
  }

  /** Position of the first occurrence of `pat` in `s` at or after `from`. */
  function FindFrom(s: string, pat: string, from: nat): (r: Option<nat>)
    ensures r.Some? ==> from <= r.value && OccursAt(s, pat, r.value)
    ensures r.Some? ==> forall j :: from <= j < r.value ==> !OccursAt(s, pat, j)
    ensures r.None? ==> forall j :: from <= j ==> !OccursAt(s, pat, j)
    decreases |s| - from
  {
    if from + |pat| > |s| then None
    else if s[from..from + |pat|] == pat then Some(from)
    else FindFrom(s, pat, from + 1)
  }

  /** `s.find(pat)`, as an optional position. */
  function Find(s: string, pat: string): Option<nat>
  {
    FindFrom(s, pat, 0)
  }

  /** Python's `pat in s`. */
  predicate Contains(s: string, pat: string)
  {
    Find(s, pat).Some?
  }

  /** `pat in s` holds exactly when `pat` occurs at some position of `s`. */
  lemma ContainsIff(s: string, pat: string)
    ensures Contains(s, pat) <==> exists j :: OccursAt(s, pat, j)
  {
  }

  /** An occurrence inside a slice is an occurrence in the whole string. */
  lemma OccursInSlice(s: string, pat: string, a: nat, c: nat, j: int)
    requires a <= c <= |s|
    requires OccursAt(s[a..c], pat, j)
    ensures OccursAt(s, pat, a + j)
  {
    var u, w := s[a..c][j..j + |pat|], s[a + j..a + j + |pat|];
    forall k | 0 <= k < |pat| ensures u[k] == w[k] {
      assert u[k] == s[a + j + k];
    }
    assert u == w;
  }

  /** A slice of a string that does not contain `pat` does not contain it either. */
  lemma NotContainsSlice(s: string, pat: string, a: nat, c: nat)
    requires a <= c <= |s|
    requires !Contains(s, pat)
    ensures !Contains(s[a..c], pat)
  {
    if Contains(s[a..c], pat) {
      var j := Find(s[a..c], pat).value;
      OccursInSlice(s, pat, a, c, j);
      assert false;
    }
  }

  /**
   * If `pat` first occurs right after `a`, searching `a + pat + b` finds it there.
   * A prefix free of `pat`'s first character cannot hide an earlier occurrence.
   */
  lemma FindAfterPrefix(a: string, pat: string, b: string)
    requires |pat| > 0
    requires pat[0] !in a
    ensures Find(a + pat + b, pat) == Some(|a|)
  {
    var s := a + pat + b;
    assert s[|a|..|a| + |pat|] == pat;
    assert OccursAt(s, pat, |a|);
  }

  /** Python's `s.split(sep)` for a non-empty separator: the pieces between non-overlapping occurrences, left to right. */
  function Split(s: string, sep: string): (parts: seq<string>)
    requires |sep| > 0
    ensures |parts| >= 1
    ensures !Contains(parts[0], sep)
    ensures |parts| == 1 <==> !Contains(s, sep)
    decreases |s|
  {
    match Find(s, sep)
    case None => [s]
    case Some(i) =>
      assert !Contains(s[..i], sep) by {
        if Contains(s[..i], sep) {
          var j := Find(s[..i], sep).value;
          OccursInSlice(s, sep, 0, i, j);
        }
      }
      [s[..i]] + Split(s[i + |sep|..], sep)
  }


  /** `m` occurs in `a + m + b` right after `a`. */
  lemma OccursInMiddle(a: string, m: string, b: string)
    ensures OccursAt(a + m + b, m, |a|)
  {
    assert (a + m + b)[|a|..|a| + |m|] == m;
  }

  /** The first piece of a split is a prefix that ends at the end of the string or at an occurrence of the separator. */
  lemma SplitFirst(s: string, sep: string)
    requires |sep| > 0
    ensures var p := Split(s, sep)[0];
            |p| <= |s| && p == s[..|p|] && (|p| == |s| || OccursAt(s, sep, |p|))
  {
  }

  /** The text of `s` before the first occurrence of `pat`, or all of `s` when `pat` does not occur. */
  function UpTo(s: string, pat: string): (r: string)
    ensures r <= s
    ensures Contains(s, pat) ==> |r| == Find(s, pat).value
    ensures !Contains(s, pat) ==> r == s
  {
    match Find(s, pat)
    case None => s
    case Some(i) => s[..i]
  }

  /** The text of `s` after the first occurrence of `pat`. */
  function AfterFirst(s: string, pat: string): (r: string)
    requires Contains(s, pat)
    ensures s == s[..Find(s, pat).value] + pat + r
  {
    var i := Find(s, pat).value;
    assert s == s[..i] + s[i..i + |pat|] + s[i + |pat|..];
    s[i + |pat|..]
  }

  /** An occurrence with none before it is the one `find` reports. */
  lemma FindIsFirst(s: string, pat: string, k: int)
    requires OccursAt(s, pat, k)
    requires forall j :: 0 <= j < k ==> !OccursAt(s, pat, j)
    ensures Find(s, pat) == Some(k)
  {
  }

  /** An occurrence inside the prefix `s[..m]` is an occurrence in `s` that ends by `m`, and conversely. */
  lemma OccursInPrefix(s: string, pat: string, m: nat, j: int)
    requires m <= |s|
    ensures OccursAt(s[..m], pat, j) <==> OccursAt(s, pat, j) && j + |pat| <= m
  {
    if 0 <= j && j + |pat| <= m {
      assert s[..m][j..j + |pat|] == s[j..j + |pat|];
    }
  }

  /** When `pat` first occurs in `a + pat` right after `a`, that stays its first occurrence whatever follows. */
  lemma FindAfterFirst(a: string, pat: string, b: string)
    requires Find(a + pat, pat) == Some(|a|)
    ensures Find(a + pat + b, pat) == Some(|a|)
  {
    var s := a + pat + b;
    forall j | 0 <= j < |a| ensures !OccursAt(s, pat, j) {
      OccursInPrefix(s, pat, |a| + |pat|, j);
      assert s[..|a| + |pat|] == a + pat;
    }
    OccursInMiddle(a, pat, b);
    FindIsFirst(s, pat, |a|);
  }

  /** When `pat` first occurs in `a + pat` right after `a`, `a` does not contain it. */
  lemma NotBeforeFirst(a: string, pat: string)
    requires |pat| > 0
    requires Find(a + pat, pat) == Some(|a|)
    ensures !Contains(a, pat)
  {
    assert (a + pat)[..|a|] == a;
    forall j | 0 <= j ensures !OccursAt(a, pat, j) {
      OccursInPrefix(a + pat, pat, |a|, j);
    }
  }

  /** The first piece of `s.split(sep)` is the text before the first separator, and the second the first piece of what follows it. */
  lemma SplitPieces(s: string, sep: string)
    requires |sep| > 0
    ensures Split(s, sep)[0] == UpTo(s, sep)
    ensures Contains(s, sep) ==> Split(s, sep)[1] == UpTo(AfterFirst(s, sep), sep)
  {
    if Contains(s, sep) {
      SplitPieces(AfterFirst(s, sep), sep);
    }
  }

  /** Python's `str.isspace()` on one character. */
  predicate IsSpace(c: char)
  {
    ('\U{9}' <= c <= '\U{D}') || ('\U{1C}' <= c <= '\U{20}') || c == '\U{85}' || c == '\U{A0}'
    || c == '\U{1680}' || ('\U{2000}' <= c <= '\U{200A}') || c == '\U{2028}' || c == '\U{2029}'
    || c == '\U{202F}' || c == '\U{205F}' || c == '\U{3000}'
  }

  /** The number of whitespace characters at the start of `s`. */
  function LeadingSpaces(s: string): (n: nat)
    ensures n <= |s|
    ensures forall k :: 0 <= k < n ==> IsSpace(s[k])
    ensures n < |s| ==> !IsSpace(s[n])
  {
    if s != [] && IsSpace(s[0]) then 1 + LeadingSpaces(s[1..]) else 0
  }

  /** The number of whitespace characters at the end of `s`. */
  function TrailingSpaces(s: string): (n: nat)
    ensures n <= |s|
    ensures forall k :: |s| - n <= k < |s| ==> IsSpace(s[k])
    ensures n < |s| ==> !IsSpace(s[|s| - 1 - n])
  {
    if s != [] && IsSpace(s[|s| - 1]) then 1 + TrailingSpaces(s[..|s| - 1]) else 0
  }

  /** Python's `s.strip()`: the slice `s[a..c]` left after removing leading and trailing whitespace. */
  function Strip(s: string): (r: string)
  {
    var a := LeadingSpaces(s);
    s[a..][..|s[a..]| - TrailingSpaces(s[a..])]
  }

  /** `strip()` keeps a slice of its input that starts and ends with a non-space character, and removes only whitespace. */
  lemma StripSlice(s: string) returns (a: nat, c: nat)
    ensures a <= c <= |s| && Strip(s) == s[a..c]
    ensures forall k :: 0 <= k < a || c <= k < |s| ==> IsSpace(s[k])
    ensures a < c ==> !IsSpace(s[a]) && !IsSpace(s[c - 1])
  {
    a := LeadingSpaces(s);
    var t := s[a..];
    var b := TrailingSpaces(t);
    c := |s| - b;
    assert Strip(s) == t[..|t| - b];
    assert t[..|t| - b] == s[a..c];
    forall k | 0 <= k < a || c <= k < |s| ensures IsSpace(s[k]) {
      if c <= k {
        assert s[k] == t[k - a];
      }
    }
    if a < c {
      assert s[a] == t[0];
      assert s[c - 1] == t[|t| - 1 - b];
    }
  }

  /** Stripping never introduces `pat`. */
  lemma StripNotContains(s: string, pat: string)
    requires !Contains(s, pat)
    ensures !Contains(Strip(s), pat)
  {
    var a, c := StripSlice(s);
    NotContainsSlice(s, pat, a, c);
  }

  /** Python's `sep.join(parts)`. */
  function Join(parts: seq<string>, sep: string): string
  {
    if |parts| == 0 then ""
    else if |parts| == 1 then parts[0]
    else parts[0] + sep + Join(parts[1..], sep)
  }

  /** A joined non-empty list starts with its first part. */
  lemma JoinStartsWithFirst(parts: seq<string>, sep: string)
    requires |parts| > 0
    ensures |parts[0]| <= |Join(parts, sep)| && Join(parts, sep)[..|parts[0]|] == parts[0]
  {
  }

  /** The decimal digit character for `d`. */
  function Digit(d: nat): char
    requires d < 10
  {
    (48 + d) as char
  }

  /** Python's `str(n)` for a natural number. */
  function NatToString(n: nat): (s: string)
    ensures |s| > 0
    ensures forall k :: 0 <= k < |s| ==> '0' <= s[k] <= '9'
    decreases n
  {
    if n < 10 then [Digit(n)] else NatToString(n / 10) + [Digit(n % 10)]
  }

  /** Python's `str(n)` for an integer. */
  function IntToString(n: int): string
  {
    if n < 0 then "-" + NatToString(-n) else NatToString(n)
  }

  /** The value of a string of decimal digits. */
  function DigitsValue(s: string): nat
    requires forall k :: 0 <= k < |s| ==> '0' <= s[k] <= '9'
  {
    if s == [] then 0 else DigitsValue(s[..|s| - 1]) * 10 + (s[|s| - 1] as int - 48)
  }

  /** Reading back the decimal text of `n` gives `n`. */
  lemma {:induction false} NatToStringValue(n: nat)
    ensures DigitsValue(NatToString(n)) == n
  {
    var s := NatToString(n);
    if n >= 10 {
      NatToStringValue(n / 10);
      assert s[..|s| - 1] == NatToString(n / 10);
    }
  }

  /** The decimal text of `n` has no leading zero, except for `n == 0` itself. */
  lemma {:induction false} NatToStringNoLeadingZero(n: nat)
    ensures NatToString(n)[0] == '0' <==> n == 0
  {
    if n >= 10 {
      NatToStringNoLeadingZero(n / 10);
      assert NatToString(n)[0] == NatToString(n / 10)[0];
    }
  }

  /** Three digits, zero-padded. */
  function Pad3(m: nat): string
    requires m < 1000
  {
    [Digit(m / 100), Digit(m / 10 % 10), Digit(m % 10)]
  }

  /** Python's `f"{n:,}"` for a natural number: digits grouped by three with commas. */
  function GroupedNat(n: nat): string
    decreases n
  {
    if n < 1000 then NatToString(n) else GroupedNat(n / 1000) + "," + Pad3(n % 1000)
  }

  /** Python's `f"{n:,}"`. */
  function Grouped(n: int): string
  {
    if n < 0 then "-" + GroupedNat(-n) else GroupedNat(n)
  }

  /** `s` with every comma removed. */
  function DropCommas(s: string): string
  {
    if s == [] then [] else DropCommas(s[..|s| - 1]) + (if s[|s| - 1] == ',' then [] else [s[|s| - 1]])
  }

  lemma {:induction false} DropCommasAppend(s: string, t: string)
    ensures DropCommas(s + t) == DropCommas(s) + DropCommas(t)
    decreases |t|
  {
    if t != [] {
      assert (s + t)[..|s + t| - 1] == s + t[..|t| - 1];
      DropCommasAppend(s, t[..|t| - 1]);
    } else {
      assert s + t == s;
    }
  }

  lemma {:induction false} DropCommasDigits(s: string)
    requires forall k :: 0 <= k < |s| ==> '0' <= s[k] <= '9'
    ensures DropCommas(s) == s
  {
    if s != [] {
      DropCommasDigits(s[..|s| - 1]);
    }
  }

  lemma NatToStringStep(q: nat, d: nat, n: nat)
    requires 1 <= q && d < 10 && n == q * 10 + d
    ensures NatToString(n) == NatToString(q) + [Digit(d)]
  {
    assert n / 10 == q && n % 10 == d;
  }

  lemma NatToStringThousands(q: nat, m: nat)
    requires 1 <= q && m < 1000
    ensures NatToString(q * 1000 + m) == NatToString(q) + Pad3(m)
  {
    var a, b, c := m / 100, m / 10 % 10, m % 10;
    assert m == a * 100 + b * 10 + c;
    var q1 := q * 10 + a;
    var q2 := q1 * 10 + b;
    var n := q2 * 10 + c;
    assert n == q * 1000 + m;
    NatToStringStep(q, a, q1);
    NatToStringStep(q1, b, q2);
    NatToStringStep(q2, c, n);
  }

  /** Removing the group separators from `f"{n:,}"` gives `str(n)`. */
  lemma {:induction false} GroupedNatDigits(n: nat)
    ensures DropCommas(GroupedNat(n)) == NatToString(n)
    decreases n
  {
    if n < 1000 {
      DropCommasDigits(NatToString(n));
    } else {
      GroupedNatDigits(n / 1000);
      DropCommasAppend(GroupedNat(n / 1000) + ",", Pad3(n % 1000));
      DropCommasAppend(GroupedNat(n / 1000), ",");
      DropCommasDigits(Pad3(n % 1000));
      NatToStringThousands(n / 1000, n % 1000);
    }
  }

  /** Removing the group separators from `f"{n:,}"` gives `str(n)`, for every integer. */
  lemma GroupedDigits(n: int)
    ensures DropCommas(Grouped(n)) == IntToString(n)
  {
    if n < 0 {
      var g := GroupedNat(-n);
      assert Grouped(n) == "-" + g;
      GroupedNatDigits(-n);
      DropCommasAppend("-", g);
      assert DropCommas("-") == "-" by {
        assert "-"[..0] == [];
      }
      assert IntToString(n) == "-" + NatToString(-n);
    } else {
      GroupedNatDigits(n);
    }
  }

  /** ASCII lower-casing of one character. */
  function LowerChar(c: char): char
  {
    if 'A' <= c <= 'Z' then (c as int + 32) as char else c
  }

  /** `s.lower()` restricted to ASCII letters. */
  function LowerAscii(s: string): (r: string)
    ensures |r| == |s|
    ensures forall k :: 0 <= k < |s| ==> r[k] == LowerChar(s[k])
  {
    seq(|s|, k requires 0 <= k < |s| => LowerChar(s[k]))
  }
}
