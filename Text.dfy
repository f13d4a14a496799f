/** Small value types shared by every component. */
module Wrappers {

  datatype Option<+T> = None | Some(value: T)

  /** An 8-bit unsigned byte, as in `byte[]`. */
  newtype byte = b: int | 0 <= b < 256
}

/**
 * The string operations of the .NET base library that the downloader
 * calls (`Contains`, `IndexOf`, `Trim`, `ToLower`, `Replace`, `EndsWith`,
 * `string.Join`) and the two `System.IO.Path` helpers it uses, all compared
 * character by character. `IndexOf(string)` and `EndsWith(string)` compare
 * by the current culture in .NET; for the ASCII text the downloader passes
 * them the two comparisons agree, which this model assumes. Case mapping
 * covers ASCII letters only.
 */
module Text {

  /** `pat` occurs in `s` starting at index `i`. */
  predicate OccursAt(s: string, pat: string, i: nat)
  {
    i + |pat| <= |s| && s[i..i + |pat|] == pat
  }

  /** Ordinal `String.Contains(string)`. */
  predicate Contains(s: string, pat: string)
    decreases |s|
  {
    |pat| <= |s| && (s[..|pat|] == pat || Contains(s[1..], pat))
  }

  /** An occurrence at any index makes `Contains` hold. */
  lemma {:induction false} OccursImpliesContains(s: string, pat: string, i: nat)
    requires OccursAt(s, pat, i)
    ensures Contains(s, pat)
    decreases i
  {
    if i == 0 {
      assert s[..|pat|] == s[0..|pat|];
    } else {
      assert s[1..][i - 1..i - 1 + |pat|] == s[i..i + |pat|];
      OccursImpliesContains(s[1..], pat, i - 1);
    }
  }

  /** `Contains` holds exactly when the pattern occurs at some index. */
  lemma {:induction false} ContainsIff(s: string, pat: string)
    ensures Contains(s, pat) <==> exists i: nat :: OccursAt(s, pat, i)
    decreases |s|
  {
    if Contains(s, pat) {
      if s[..|pat|] == pat {
        assert OccursAt(s, pat, 0);
      } else {
        ContainsIff(s[1..], pat);
        var i: nat :| OccursAt(s[1..], pat, i);
        assert s[i + 1..i + 1 + |pat|] == s[1..][i..i + |pat|];
        assert OccursAt(s, pat, i + 1);
      }
    }
    forall i: nat | OccursAt(s, pat, i)
      ensures Contains(s, pat)
    {
      OccursImpliesContains(s, pat, i);
    }
  }

  /** Every character of a pattern that `s` contains is a character of `s`. */
  lemma ContainedCharsOccur(s: string, pat: string)
    requires Contains(s, pat)
    ensures forall c :: c in pat ==> c in s
  {
    ContainsIff(s, pat);
    var i: nat :| OccursAt(s, pat, i);
    forall c | c in pat
      ensures c in s
    {
      var j :| 0 <= j < |pat| && pat[j] == c;
      assert s[i + j] == s[i..i + |pat|][j];
    }
  }

  /** `String.IndexOf` of a one-character string: the first index of `c`, or -1. */
  function IndexOf(s: string, c: char): (r: int)
    ensures -1 <= r < |s|
    ensures r == -1 <==> c !in s
    ensures r >= 0 ==> s[r] == c && c !in s[..r]
  {
    if |s| == 0 then -1
    else if s[0] == c then 0
    else
      var k := IndexOf(s[1..], c);
      assert s == [s[0]] + s[1..];
      if k == -1 then -1
      else
        assert s[..k + 1] == [s[0]] + s[1..][..k];
        k + 1
  }

  /** ASCII lower-casing of one character. */
  function LowerChar(c: char): char
  {
    if 'A' <= c <= 'Z' then (c as int + 32) as char else c
  }

  /** `String.ToLower()` restricted to ASCII case mapping. */
  function ToLower(s: string): (r: string)
    ensures |r| == |s|
    ensures forall i :: 0 <= i < |s| ==> r[i] == LowerChar(s[i])
  {
    if s == [] then [] else [LowerChar(s[0])] + ToLower(s[1..])
  }

  /** Lower-casing twice changes nothing more than lower-casing once. */
  lemma ToLowerIdempotent(s: string)
    ensures ToLower(ToLower(s)) == ToLower(s)
  {
    var t := ToLower(s);
    assert forall i :: 0 <= i < |t| ==> ToLower(t)[i] == t[i];
  }

  /** `Char.IsWhiteSpace`: the Unicode separator and control white space. */
  predicate IsWhiteSpace(c: char)
  {
    ('\U{9}' <= c <= '\U{D}') || c == ' ' || c == '\U{85}' || c == '\U{A0}'
    || c == '\U{1680}' || ('\U{2000}' <= c <= '\U{200A}') || c == '\U{2028}'
    || c == '\U{2029}' || c == '\U{202F}' || c == '\U{205F}' || c == '\U{3000}'
  }

  /** `String.IsNullOrWhiteSpace` (a null string is not representable here). */
  predicate IsBlank(s: string)
  {
    forall i :: 0 <= i < |s| ==> IsWhiteSpace(s[i])
  }

  /** Number of leading characters of `s` that `drop` removes. */
  function LeadingCount(s: string, drop: char -> bool): (n: nat)
    ensures n <= |s|
    ensures forall k :: 0 <= k < n ==> drop(s[k])
    ensures n < |s| ==> !drop(s[n])
  {
    if s == [] || !drop(s[0]) then 0 else 1 + LeadingCount(s[1..], drop)
  }

  /** Length of `s` once the trailing characters that `drop` removes are gone. */
  function KeptLength(s: string, drop: char -> bool): (n: nat)
    ensures n <= |s|
    ensures forall k :: n <= k < |s| ==> drop(s[k])
    ensures n > 0 ==> !drop(s[n - 1])
  {
    if s == [] || !drop(s[|s| - 1]) then |s| else KeptLength(s[..|s| - 1], drop)
  }

  /** Removes the leading and trailing characters that `drop` selects. */
  function TrimBy(s: string, drop: char -> bool): (r: string)
    ensures |r| <= |s| - LeadingCount(s, drop)
    ensures r == s[LeadingCount(s, drop)..][..|r|]
    ensures forall k :: LeadingCount(s, drop) + |r| <= k < |s| ==> drop(s[k])
    ensures |r| > 0 ==> !drop(r[0]) && !drop(r[|r| - 1])
  {
    var t := s[LeadingCount(s, drop)..];
    t[..KeptLength(t, drop)]
  }

  /** `String.Trim()`. */
  function Trim(s: string): string
  {
    TrimBy(s, IsWhiteSpace)
  }

  /** Trimming a string that has nothing to drop at either end gives it back. */
  lemma TrimByUnchanged(s: string, drop: char -> bool)
    requires |s| > 0 ==> !drop(s[0]) && !drop(s[|s| - 1])
    ensures TrimBy(s, drop) == s
  {
  }

  /** Helper: a piece of the text between two indexes is a slice of the whole text. */
  lemma PieceOfSlice(line: string, s: nat, e: nat, lead: nat, t: string)
    requires s <= e <= |line|
    requires lead + |t| <= e - s && t == line[s..e][lead..][..|t|]
    ensures t == line[s + lead..s + lead + |t|]
  {
    SliceOfSlice(line, s, e, lead, |t|);
  }

  /** A piece of a slice is a slice of the whole. */
  lemma SliceOfSlice<X>(a: seq<X>, s: nat, e: nat, i: nat, n: nat)
    requires s <= e <= |a| && i + n <= e - s
    ensures a[s..e][i..][..n] == a[s + i..s + i + n]
  {
  }

  /** Everything trimmed off either end of a piece of a longer text is dropped. */
  lemma TrimByMargins(line: string, i: nat, j: nat, drop: char -> bool)
    requires i <= j <= |line|
    ensures var n := |TrimBy(line[i..j], drop)|;
      var lead := LeadingCount(line[i..j], drop);
      && (forall k :: i <= k < i + lead ==> drop(line[k]))
      && (forall k :: i + lead + n <= k < j ==> drop(line[k]))
  {
    var piece := line[i..j];
    var n := |TrimBy(piece, drop)|;
    var lead := LeadingCount(piece, drop);
    forall k | i <= k < i + lead ensures drop(line[k]) {
      assert line[k] == piece[k - i];
    }
    forall k | i + lead + n <= k < j ensures drop(line[k]) {
      assert line[k] == piece[k - i];
    }
  }

  /** `String.Replace(string, "")` with a one-character pattern: drops every `c`. */
  function RemoveAll(s: string, c: char): (r: string)
    ensures c !in r
    ensures |r| <= |s|
    ensures forall x :: x in r <==> x in s && x != c
  {
    if s == [] then []
    else
      assert s == [s[0]] + s[1..];
      (if s[0] == c then [] else [s[0]]) + RemoveAll(s[1..], c)
  }

  /** A string without `c` comes back unchanged from `RemoveAll`. */
  lemma {:induction false} RemoveAllAbsent(s: string, c: char)
    requires c !in s
    ensures RemoveAll(s, c) == s
  {
    if s != [] {
      assert s[0] != c;
      RemoveAllAbsent(s[1..], c);
    }
  }

  /** `RemoveAll` distributes over concatenation. */
  lemma {:induction false} RemoveAllAppend(a: string, b: string, c: char)
    ensures RemoveAll(a + b, c) == RemoveAll(a, c) + RemoveAll(b, c)
  {
    if a == [] {
      assert a + b == b;
    } else {
      var h := if a[0] == c then [] else [a[0]];
      var ab := a + b;
      assert ab[0] == a[0];
      assert ab[1..] == a[1..] + b;
      RemoveAllAppend(a[1..], b, c);
      calc {
        RemoveAll(ab, c);
        h + RemoveAll(a[1..] + b, c);
        h + (RemoveAll(a[1..], c) + RemoveAll(b, c));
        (h + RemoveAll(a[1..], c)) + RemoveAll(b, c);
        RemoveAll(a, c) + RemoveAll(b, c);
      }
    }
  }

  /** Lower-casing distributes over concatenation. */
  lemma ToLowerAppend(a: string, b: string)
    ensures ToLower(a + b) == ToLower(a) + ToLower(b)
  {
    assert forall i :: 0 <= i < |a + b| ==> ToLower(a + b)[i] == (ToLower(a) + ToLower(b))[i];
  }

  /** `String.EndsWith(string)`, character by character. */
  predicate EndsWith(s: string, suffix: string)
  {
    |suffix| <= |s| && s[|s| - |suffix|..] == suffix
  }

  /** `String.StartsWith(string)`, character by character. */
  predicate StartsWith(s: string, prefix: string)
  {
    |prefix| <= |s| && s[..|prefix|] == prefix
  }

  /** `string.Join(sep, xs)`. */
  function Join(xs: seq<string>, sep: string): (r: string)
    ensures xs == [] ==> r == ""
    ensures xs != [] ==> StartsWith(r, xs[0]) && EndsWith(r, xs[|xs| - 1])
  {
    if xs == [] then ""
    else if |xs| == 1 then xs[0]
    else
      var rest := Join(xs[1..], sep);
      assert xs[1..][|xs[1..]| - 1] == xs[|xs| - 1];
      assert (xs[0] + sep + rest)[..|xs[0]|] == xs[0];
      assert (xs[0] + sep + rest)[|xs[0] + sep + rest| - |xs[|xs| - 1]|..]
          == rest[|rest| - |xs[|xs| - 1]|..];
      xs[0] + sep + rest
  }

  /** Joining two or more pieces puts the separator right after the first piece. */
  lemma JoinHead(xs: seq<string>, sep: string)
    requires |xs| >= 2
    ensures StartsWith(Join(xs, sep), xs[0] + sep + xs[1])
  {
    var rest := Join(xs[1..], sep);
    assert StartsWith(rest, xs[1]);
    assert Join(xs, sep) == xs[0] + sep + rest;
    assert (xs[0] + sep + rest)[..|xs[0] + sep + xs[1]|] == xs[0] + sep + rest[..|xs[1]|];
  }

  /**
   * Joining one more piece appends the separator and that piece: every
   * piece appears once, in order, with one separator between neighbours.
   */
  lemma {:induction false} JoinAppend(xs: seq<string>, x: string, sep: string)
    requires xs != []
    ensures Join(xs + [x], sep) == Join(xs, sep) + sep + x
    decreases |xs|
  {
    if |xs| == 1 {
      JoinPair(xs, x, sep);
    } else {
      JoinAppend(xs[1..], x, sep);
      JoinAppendStep(xs, x, sep);
    }
  }

  /** Helper: one piece joined with one more is the two around the separator. */
  lemma JoinPair(xs: seq<string>, x: string, sep: string)
    requires |xs| == 1
    ensures Join(xs + [x], sep) == Join(xs, sep) + sep + x
  {
    var ys := xs + [x];
    assert ys[0] == xs[0] && ys[1..] == [x];
  }

  /** Helper: the append law for the rest of a list carries over to the whole list. */
  lemma JoinAppendStep(xs: seq<string>, x: string, sep: string)
    requires |xs| >= 2
    requires Join(xs[1..] + [x], sep) == Join(xs[1..], sep) + sep + x
    ensures Join(xs + [x], sep) == Join(xs, sep) + sep + x
  {
    var ys := xs + [x];
    assert ys[0] == xs[0] && ys[1..] == xs[1..] + [x];
    JoinCons(ys, sep);
    JoinCons(xs, sep);
    RegroupAround(xs[0], sep, Join(xs[1..], sep), x);
  }

  /** Helper: two or more pieces join as the first, the separator, and the rest joined. */
  lemma JoinCons(xs: seq<string>, sep: string)
    requires |xs| >= 2
    ensures Join(xs, sep) == xs[0] + sep + Join(xs[1..], sep)
  {
  }

  /** Helper: regrouping a concatenation around the middle separator. */
  lemma RegroupAround(a: string, sep: string, j: string, x: string)
    ensures a + sep + (j + sep + x) == a + sep + j + sep + x
  {
  }

  /** A Windows directory separator, the alternative separator `/`, or the volume separator `:`. */
  predicate IsSeparator(c: char)
  {
    c == '\\' || c == '/' || c == ':'
  }

  /** `Path.Combine(dir, name)` for a relative `name`. */
  function PathCombine(dir: string, name: string): (r: string)
    ensures EndsWith(r, name)
    ensures dir != [] ==> StartsWith(r, dir)
  {
    if dir == [] then name
    else if IsSeparator(dir[|dir| - 1]) then
      assert (dir + name)[..|dir|] == dir;
      assert (dir + name)[|dir + name| - |name|..] == name;
      dir + name
    else
      assert (dir + "\\" + name)[..|dir|] == dir;
      assert (dir + "\\" + name)[|dir + "\\" + name| - |name|..] == name;
      dir + "\\" + name
  }

  /** `Path.GetFileName(path)`: the part after the last directory or volume separator. */
  function FileName(path: string): (r: string)
    ensures |r| <= |path|
    ensures forall c :: c in r ==> !IsSeparator(c)
    ensures EndsWith(path, r)
    ensures |r| == |path| || IsSeparator(path[|path| - |r| - 1])
  {
    if path == [] then []
    else if IsSeparator(path[|path| - 1]) then
      assert path[|path|..] == [];
      []
    else
      var r := FileName(path[..|path| - 1]) + [path[|path| - 1]];
      assert path[..|path| - 1][|path| - 1 - (|r| - 1)..] + [path[|path| - 1]] == path[|path| - |r|..];
      r
  }
}
