/**
  The handful of Python `str` operations the bot relies on, over Dafny strings
  (`seq<char>`): substring membership (`needle in hay`), `startswith`/`endswith`,
  `split(" ")` and its inverse `" ".join`, `replace`, `lower`, `strip`, `str(int)`
  and the first-digit search `re.search(r"\d", s)`.
 */
module Strings {
  import opened Wrappers

  predicate StartsWith(s: string, prefix: string) {
    |prefix| <= |s| && s[..|prefix|] == prefix
  }

  predicate EndsWith(s: string, suffix: string) {
    |suffix| <= |s| && s[|s| - |suffix|..] == suffix
  }

  /** Python's `needle in hay` on strings: `needle` occurs somewhere in `hay`. */
  predicate Contains(hay: string, needle: string)
    decreases |hay|
  {
    StartsWith(hay, needle) || (|hay| > 0 && Contains(hay[1..], needle))
  }

  /** An occurrence at any offset makes `needle in hay` true. */
  lemma {:induction false} ContainsAt(hay: string, needle: string, i: nat)
    requires i <= |hay| && StartsWith(hay[i..], needle)
    ensures Contains(hay, needle)
    decreases i
  {
    if i > 0 {
      assert hay[1..][i - 1..] == hay[i..];
      ContainsAt(hay[1..], needle, i - 1);
    } else {
      assert hay[0..] == hay;
    }
  }

  predicate IsDigit(c: char) {
    '0' <= c <= '9'
  }

  /** `re.search(r"\d", s)`: the first decimal digit of `s`, if any (ASCII digits only). */
  function FirstDigit(s: string): (r: Option<char>)
    ensures r.Some? ==> IsDigit(r.value) && r.value in s
    ensures r.None? <==> forall i :: 0 <= i < |s| ==> !IsDigit(s[i])
    ensures r.Some? ==> exists i :: (0 <= i < |s| && s[i] == r.value &&
      forall j :: 0 <= j < i ==> !IsDigit(s[j]))
  {
    if s == [] then None
    else if IsDigit(s[0]) then Some(s[0])
    else
      var r := FirstDigit(s[1..]);
      if r.Some? then
        var i :| 0 <= i < |s[1..]| && s[1..][i] == r.value &&
          forall j :: 0 <= j < i ==> !IsDigit(s[1..][j]);
        assert s[i + 1] == r.value;
        assert forall j :: 0 <= j < i + 1 ==> !IsDigit(s[j]) by {
          forall j | 0 <= j < i + 1 ensures !IsDigit(s[j]) {
            if j > 0 { assert s[j] == s[1..][j - 1]; }
          }
        }
        r
      else
        r
  }

  function DigitChar(d: nat): (c: char)
    requires d < 10
    ensures IsDigit(c)
  {
    ['0', '1', '2', '3', '4', '5', '6', '7', '8', '9'][d]
  }

  /** Python's `str(n)` for a natural number: its decimal digits, no leading zero. */
  function NatToString(n: nat): (r: string)
    ensures |r| >= 1
    ensures forall i :: 0 <= i < |r| ==> IsDigit(r[i])
    ensures n < 10 ==> r == [DigitChar(n)]
  {
    if n < 10 then [DigitChar(n)] else NatToString(n / 10) + [DigitChar(n % 10)]
  }

  /** Python's `str(i)` for an integer (chat ids of groups are negative). */
  function IntToString(i: int): (r: string)
    ensures |r| >= 1
    ensures i < 0 <==> r[0] == '-'
  {
    if i < 0 then "-" + NatToString(-i) else NatToString(i)
  }

  /** Python's `s.replace(pat, rep)` for a non-empty pattern: every non-overlapping
      occurrence, scanning left to right, is replaced. */
  function ReplaceAll(s: string, pat: string, rep: string): string
    requires |pat| > 0
    decreases |s|
  {
    if |s| < |pat| then s
    else if s[..|pat|] == pat then rep + ReplaceAll(s[|pat|..], pat, rep)
    else [s[0]] + ReplaceAll(s[1..], pat, rep)
  }

  /** Replacing leaves alone a prefix at none of whose offsets the pattern starts. */
  lemma {:induction false} ReplaceAllSkips(p: string, q: string, pat: string, rep: string)
    requires |pat| > 0
    requires forall i :: 0 <= i < |p| ==> !StartsWith((p + q)[i..], pat)
    ensures ReplaceAll(p + q, pat, rep) == p + ReplaceAll(q, pat, rep)
    decreases |p|
  {
    if p != [] {
      var s := p + q;
      assert !StartsWith(s[0..], pat);
      assert s[0..] == s;
      assert s[1..] == p[1..] + q;
      if |s| < |pat| {
        assert ReplaceAll(q, pat, rep) == q;
        assert ReplaceAll(s, pat, rep) == s;
      } else {
        assert s[..|pat|] != pat;
        forall i | 0 <= i < |p[1..]| ensures !StartsWith((p[1..] + q)[i..], pat) {
          assert (p[1..] + q)[i..] == s[i + 1..];
        }
        ReplaceAllSkips(p[1..], q, pat, rep);
        calc {
          ReplaceAll(s, pat, rep);
          [s[0]] + ReplaceAll(s[1..], pat, rep);
          [p[0]] + (p[1..] + ReplaceAll(q, pat, rep));
          { assert [p[0]] + p[1..] == p; }
          p + ReplaceAll(q, pat, rep);
        }
      }
    } else {
      assert p + q == q;
      assert p + ReplaceAll(q, pat, rep) == ReplaceAll(q, pat, rep);
    }
  }

  /** When the string is exactly the pattern, it becomes the replacement. */
  lemma ReplaceAllWhole(pat: string, rep: string)
    requires |pat| > 0
    ensures ReplaceAll(pat, pat, rep) == rep
  {
    assert pat[..|pat|] == pat;
    assert pat[|pat|..] == [];
  }

  /** Python's `s.split(" ")`: the pieces between single spaces, empty pieces kept. */
  function Split(s: string): (ws: seq<string>)
    ensures |ws| >= 1
    ensures forall k :: 0 <= k < |ws| ==> ' ' !in ws[k]
    decreases |s|
  {
    if s == [] then [""]
    else
      var r := Split(s[..|s| - 1]);
      var c := s[|s| - 1];
      if c == ' ' then r + [""]
      else r[..|r| - 1] + [r[|r| - 1] + [c]]
  }

  /** Python's `" ".join(ws)`. */
  function Join(ws: seq<string>): string
    requires |ws| >= 1
  {
    if |ws| == 1 then ws[0] else Join(ws[..|ws| - 1]) + " " + ws[|ws| - 1]
  }

  /** Joining the pieces of a split with single spaces gives the string back. */
  lemma {:induction false} JoinSplit(s: string)
    ensures Join(Split(s)) == s
    decreases |s|
  {
    if s != [] {
      var init := s[..|s| - 1];
      var r := Split(init);
      var c := s[|s| - 1];
      JoinSplit(init);
      assert s == init + [c];
      if c == ' ' {
        var ws := r + [""];
        assert ws[..|ws| - 1] == r;
      } else {
        var last := r[|r| - 1];
        var ws := r[..|r| - 1] + [last + [c]];
        assert ws[|ws| - 1] == last + [c];
        if |r| > 1 {
          var front := Join(r[..|r| - 1]);
          assert ws[..|ws| - 1] == r[..|r| - 1];
          assert Join(ws) == front + " " + (last + [c]);
          assert Join(r) == front + " " + last;
          assert front + " " + (last + [c]) == (front + " " + last) + [c];
        }
      }
    }
  }

  /** A string without a space splits into itself alone. */
  lemma {:induction false} SplitNoSpace(s: string)
    requires ' ' !in s
    ensures Split(s) == [s]
    decreases |s|
  {
    if s != [] {
      assert s == s[..|s| - 1] + [s[|s| - 1]];
      SplitNoSpace(s[..|s| - 1]);
    }
  }

  predicate IsUpper(c: char) {
    'A' <= c <= 'Z'
  }

  function LowerChar(c: char): char {
    if IsUpper(c) then (c as int + 32) as char else c
  }

  /** Python's `s.lower()`, on ASCII letters. */
  function Lower(s: string): (r: string)
    ensures |r| == |s|
    ensures forall i :: 0 <= i < |r| ==> !IsUpper(r[i])
    ensures forall i :: 0 <= i < |s| && !IsUpper(s[i]) ==> r[i] == s[i]
  {
    seq(|s|, i requires 0 <= i < |s| => LowerChar(s[i]))
  }

  /** Python's `str.isspace` on one character (ASCII and Latin-1 whitespace). */
  predicate IsSpace(c: char) {
    (9 <= c as int <= 13) || (28 <= c as int <= 32) || c as int == 0x85 || c as int == 0xA0
  }

  function TrimLeft(s: string): (r: string)
    ensures |r| <= |s| && r == s[|s| - |r|..]
    ensures r == [] || !IsSpace(r[0])
    ensures forall i :: 0 <= i < |s| - |r| ==> IsSpace(s[i])
    decreases |s|
  {
    if s != [] && IsSpace(s[0]) then
      var r := TrimLeft(s[1..]);
      assert forall i :: 1 <= i < |s| - |r| ==> s[i] == s[1..][i - 1];
      r
    else s
  }

  function TrimRight(s: string): (r: string)
    ensures |r| <= |s| && r == s[..|r|]
    ensures r == [] || !IsSpace(r[|r| - 1])
    ensures forall i :: |r| <= i < |s| ==> IsSpace(s[i])
    decreases |s|
  {
    if s != [] && IsSpace(s[|s| - 1]) then TrimRight(s[..|s| - 1]) else s
  }

  /** The number of whitespace characters `strip` removes from the front. */
  function LeadingSpaces(s: string): nat {
    |s| - |TrimLeft(s)|
  }

  /** Python's `s.strip()`: what is left of `s` once the whitespace at both ends is
      removed; the result neither starts nor ends with whitespace. */
  function Strip(s: string): (r: string)
    ensures |r| <= |s|
    ensures r == [] || (!IsSpace(r[0]) && !IsSpace(r[|r| - 1]))
  {
    var l := TrimLeft(s);
    assert l == [] || !IsSpace(l[0]);
    TrimRight(l)
  }

  /** What `strip` keeps is one slice of `s`, and everything it drops is
      whitespace. */
  lemma StripSlice(s: string)
    ensures LeadingSpaces(s) + |Strip(s)| <= |s|
    ensures Strip(s) == s[LeadingSpaces(s)..LeadingSpaces(s) + |Strip(s)|]
    ensures forall k :: 0 <= k < LeadingSpaces(s) ==> IsSpace(s[k])
    ensures forall k :: LeadingSpaces(s) + |Strip(s)| <= k < |s| ==> IsSpace(s[k])
  {
    StripKeeps(s);
    StripDrops(s);
  }

  lemma StripKeeps(s: string)
    ensures LeadingSpaces(s) + |Strip(s)| <= |s|
    ensures Strip(s) == s[LeadingSpaces(s)..LeadingSpaces(s) + |Strip(s)|]
  {
    var l := TrimLeft(s);
    var r := TrimRight(l);
    var i := |s| - |l|;
    assert Strip(s) == r && LeadingSpaces(s) == i;
    assert l == s[i..] && r == l[..|r|];
    assert r == s[i..i + |r|];
  }

  lemma StripDrops(s: string)
    ensures forall k :: 0 <= k < LeadingSpaces(s) ==> IsSpace(s[k])
    ensures forall k :: LeadingSpaces(s) + |Strip(s)| <= k < |s| ==> IsSpace(s[k])
  {
    var l := TrimLeft(s);
    var r := TrimRight(l);
    var i := |s| - |l|;
    forall k | i + |r| <= k < |s|
      ensures IsSpace(s[k])
    {
      assert s[k] == l[k - i];
    }
  }
}
