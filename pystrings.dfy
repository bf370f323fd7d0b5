/**
 * The parts of Python's `str` that the core relies on, over `seq<char>`:
 * `find`/`in`, `split`, `rsplit(sep, 1)`, `join`, `replace`, `strip`, `lower`,
 * `startswith`/`endswith` and slicing with clamped bounds.
 */
module PyStrings {
  import opened Common

  /** `pat` occurs in `s` starting at index `i`. */
  predicate IsAt(s: string, pat: string, i: nat)
  {
    i + |pat| <= |s| && s[i..i + |pat|] == pat
  }

  /** The first index at or after `i` where `pat` occurs, or -1. */
  function FindFrom(s: string, pat: string, i: nat): (r: int)
    requires i <= |s|
    ensures r == -1 || (i <= r <= |s| && IsAt(s, pat, r))
    ensures forall j: nat :: i <= j <= |s| && (r == -1 || j < r) ==> !IsAt(s, pat, j)
    decreases |s| - i
  {
    if IsAt(s, pat, i) then i
    else if i == |s| then -1
    else FindFrom(s, pat, i + 1)
  }

  /** Python's `s.find(pat)`. */
  function Find(s: string, pat: string): int
  {
    FindFrom(s, pat, 0)
  }

  /** Python's `pat in s`. */
  predicate Contains(s: string, pat: string)
  {
    Find(s, pat) >= 0
  }

  /** The first occurrence is the one at k when nothing occurs earlier. */
  lemma FindIs(s: string, pat: string, k: nat)
    requires IsAt(s, pat, k)
    requires forall j: nat :: j < k ==> !IsAt(s, pat, j)
    ensures Find(s, pat) == k
  {
  }

  /** `pat in s` holds exactly when some index carries an occurrence. */
  lemma ContainsIff(s: string, pat: string)
    ensures Contains(s, pat) <==> exists j: nat :: j <= |s| && IsAt(s, pat, j)
  {
    if Contains(s, pat) {
      assert IsAt(s, pat, Find(s, pat) as nat);
    }
  }

  /** For a one-character pattern, occurrence is membership. */
  lemma ContainsChar(s: string, c: char)
    ensures Contains(s, [c]) <==> c in s
  {
    ContainsIff(s, [c]);
    if c in s {
      var j :| 0 <= j < |s| && s[j] == c;
      assert IsAt(s, [c], j);
    }
    if Contains(s, [c]) {
      var j := Find(s, [c]);
      assert s[j..j + 1] == [c];
      assert s[j] == c;
    }
  }

  /** Python's `s.split(sep)` for a non-empty separator. */
  function SplitOn(s: string, sep: string): (r: seq<string>)
    requires |sep| > 0
    ensures |r| >= 1
    ensures |r| >= 2 <==> Contains(s, sep)
    decreases |s|
  {
    var i := Find(s, sep);
    if i < 0 then [s] else [s[..i]] + SplitOn(s[i + |sep|..], sep)
  }

  /** When the first occurrence of `sep` follows `pre`, the first piece is `pre` and the rest is split again. */
  lemma SplitFirst(pre: string, sep: string, post: string)
    requires |sep| > 0 && Find(pre + sep + post, sep) == |pre|
    ensures SplitOn(pre + sep + post, sep) == [pre] + SplitOn(post, sep)
  {
    var s := pre + sep + post;
    assert s[..|pre|] == pre;
    assert s[|pre| + |sep|..] == post;
  }

  /** The first piece of a split: everything before the first occurrence, or the whole string. */
  lemma SplitHead(s: string, sep: string)
    requires |sep| > 0
    ensures Find(s, sep) < 0 ==> SplitOn(s, sep) == [s]
    ensures Find(s, sep) >= 0 ==> SplitOn(s, sep)[0] == s[..Find(s, sep)]
  {
  }

  /** Python's `sep.join(parts)`. */
  function Join(parts: seq<string>, sep: string): string
  {
    if |parts| == 0 then ""
    else if |parts| == 1 then parts[0]
    else parts[0] + sep + Join(parts[1..], sep)
  }

  /** No part contains the separator character. */
  ghost predicate NoneContains(parts: seq<string>, c: char)
  {
    forall i :: 0 <= i < |parts| ==> c !in parts[i]
  }

  /** Splitting a join on the same character gives the parts back (`s.split(c)` inverts `c.join`). */
  lemma {:induction false} SplitJoinRoundTrip(parts: seq<string>, c: char)
    requires |parts| >= 1
    requires NoneContains(parts, c)
    ensures SplitOn(Join(parts, [c]), [c]) == parts
    decreases |parts|
  {
    var s := Join(parts, [c]);
    var p := parts[0];
    if |parts| == 1 {
      ContainsChar(p, c);
    } else {
      var rest := Join(parts[1..], [c]);
      assert s == p + [c] + rest;
      assert IsAt(s, [c], |p|) by { assert s[|p|..|p| + 1] == [c]; }
      forall j: nat | j < |p| ensures !IsAt(s, [c], j) {
        assert s[j..j + 1] == [p[j]];
        assert p[j] != c;
      }
      FindIs(s, [c], |p|);
      assert s[..|p|] == p;
      assert s[|p| + 1..] == rest;
      SplitJoinRoundTrip(parts[1..], c);
    }
  }

  /** Each part with `pad` in front. */
  function PadAll(xs: seq<string>, pad: string): (r: seq<string>)
    ensures |r| == |xs|
    ensures forall i :: 0 <= i < |xs| ==> r[i] == pad + xs[i]
  {
    seq(|xs|, i requires 0 <= i < |xs| => pad + xs[i])
  }

  /** Joining with `sep` followed by `pad` is joining the padded parts with `sep`, after a leading `pad`. */
  lemma {:induction false} JoinPadded(xs: seq<string>, sep: string, pad: string)
    requires |xs| >= 1
    ensures Join(PadAll(xs, pad), sep) == pad + Join(xs, sep + pad)
    decreases |xs|
  {
    if |xs| > 1 {
      assert PadAll(xs, pad)[1..] == PadAll(xs[1..], pad);
      JoinPadded(xs[1..], sep, pad);
    }
  }

  /** A join with `sep` followed by `pad` keeps the first part and pads every later one. */
  lemma JoinAsPadded(xs: seq<string>, full: string, sep: string, pad: string)
    requires |xs| >= 1 && full == sep + pad
    ensures Join(xs, full) == Join([xs[0]] + PadAll(xs[1..], pad), sep)
  {
    var parts := [xs[0]] + PadAll(xs[1..], pad);
    if |xs| > 1 {
      JoinPadded(xs[1..], sep, pad);
      assert parts[1..] == PadAll(xs[1..], pad);
    }
  }

  /** Python's `s.replace(target, replacement)`, which is `replacement.join(s.split(target))`. */
  function Replace(s: string, target: string, replacement: string): string
    requires |target| > 0
  {
    Join(SplitOn(s, target), replacement)
  }

  /** Replacing a substring that does not occur changes nothing. */
  lemma ReplaceAbsent(s: string, target: string, replacement: string)
    requires |target| > 0
    requires !Contains(s, target)
    ensures Replace(s, target, replacement) == s
  {
  }

  /** Python's `s.split(sep, 1)[1]`: the text after the first occurrence, `None` for an IndexError. */
  function AfterFirst(s: string, sep: string): (r: Option<string>)
    requires |sep| > 0
    ensures r.None? <==> !Contains(s, sep)
    ensures r.Some? ==> |r.value| <= |s| - |sep|
  {
    var i := Find(s, sep);
    if i < 0 then None else Some(s[i + |sep|..])
  }

  /** Splitting once at a character that the text before it lacks gives the text after it. */
  lemma AfterFirstCharAt(pre: string, c: char, post: string)
    requires c !in pre
    ensures AfterFirst(pre + [c] + post, [c]) == Some(post)
  {
    var s := pre + [c] + post;
    assert IsAt(s, [c], |pre|) by { assert s[|pre|..|pre| + 1] == [c]; }
    forall j: nat | j < |pre| ensures !IsAt(s, [c], j) {
      assert s[j..j + 1] == [pre[j]];
    }
    FindIs(s, [c], |pre|);
    assert s[|pre| + 1..] == post;
  }

  /** The last index below `hi` holding `c`, or -1. */
  function LastIndexBelow(s: string, c: char, hi: nat): (r: int)
    requires hi <= |s|
    ensures -1 <= r < hi
    ensures r >= 0 ==> s[r] == c
    ensures forall j :: r < j < hi ==> s[j] != c
  {
    if hi == 0 then -1
    else if s[hi - 1] == c then hi - 1
    else LastIndexBelow(s, c, hi - 1)
  }

  /** Python's `s.rsplit(c, 1)[0]`: the text before the last `c`, or all of `s` when there is none. */
  function BeforeLast(s: string, c: char): (r: string)
    ensures |r| <= |s| && r == s[..|r|]
    ensures c !in s ==> r == s
    ensures c in s ==> |r| < |s| && s[|r|] == c && c !in s[|r| + 1..]
  {
    var i := LastIndexBelow(s, c, |s|);
    if i < 0 then s else s[..i]
  }

  /** `rsplit` at a character that the text after it lacks gives the text before it. */
  lemma BeforeLastCharAt(pre: string, c: char, post: string)
    requires c !in post
    ensures BeforeLast(pre + [c] + post, c) == pre
  {
    var s := pre + [c] + post;
    var r := BeforeLast(s, c);
    assert s[|pre|] == c;
    assert forall k :: |r| < k < |s| ==> s[k] != c by {
      forall k | |r| < k < |s| ensures s[k] != c {
        assert s[k] == s[|r| + 1..][k - |r| - 1];
      }
    }
    assert forall k :: |pre| < k < |s| ==> s[k] != c by {
      forall k | |pre| < k < |s| ensures s[k] != c {
        assert s[k] == post[k - |pre| - 1];
      }
    }
    assert |r| == |pre|;
    assert s[..|pre|] == pre;
  }

  predicate StartsWith(s: string, p: string)
  {
    |p| <= |s| && s[..|p|] == p
  }

  predicate EndsWith(s: string, p: string)
  {
    |p| <= |s| && s[|s| - |p|..] == p
  }

  /** Characters Python's argument-less `strip()` removes (the ASCII ones). */
  const Whitespace: set<char> := {' ', '\t', '\n', '\r', '\U{000B}', '\U{000C}', '\U{001C}', '\U{001D}', '\U{001E}', '\U{001F}'}

  /** Python's `s.lstrip(chars)`. */
  function LStrip(s: string, cs: set<char>): (r: string)
    ensures |r| <= |s| && r == s[|s| - |r|..]
    ensures forall i :: 0 <= i < |s| - |r| ==> s[i] in cs
    ensures |r| > 0 ==> r[0] !in cs
    decreases |s|
  {
    if |s| > 0 && s[0] in cs then LStrip(s[1..], cs) else s
  }

  /** Python's `s.rstrip(chars)`. */
  function RStrip(s: string, cs: set<char>): (r: string)
    ensures |r| <= |s| && r == s[..|r|]
    ensures forall i :: |r| <= i < |s| ==> s[i] in cs
    ensures |r| > 0 ==> r[|r| - 1] !in cs
    decreases |s|
  {
    if |s| > 0 && s[|s| - 1] in cs then RStrip(s[..|s| - 1], cs) else s
  }

  /** Python's `s.strip(chars)`: both ends, no character of `cs` left at either end. */
  function Strip(s: string, cs: set<char>): (r: string)
    ensures |r| <= |s|
    ensures |r| > 0 ==> r[0] !in cs && r[|r| - 1] !in cs
  {
    RStrip(LStrip(s, cs), cs)
  }

  /** Python's `s.strip()`. */
  function Trim(s: string): string
  {
    Strip(s, Whitespace)
  }

  /** A string whose ends are already clean is its own strip. */
  lemma StripClean(s: string, cs: set<char>)
    requires |s| > 0 ==> s[0] !in cs && s[|s| - 1] !in cs
    ensures Strip(s, cs) == s
  {
  }

  /** `s.strip()` is empty exactly when every character of `s` is whitespace. */
  lemma TrimBlank(s: string)
    ensures Trim(s) == "" <==> forall i :: 0 <= i < |s| ==> s[i] in Whitespace
  {
  }

  /** Lower-casing commutes with slicing. */
  lemma ToLowerSlice(s: string, i: nat, j: nat)
    requires i <= j <= |s|
    ensures ToLower(s)[i..j] == ToLower(s[i..j])
  {
  }

  /** Neither end of `s` is whitespace, so `s.strip()` leaves it alone. */
  predicate Trimmed(s: string)
  {
    |s| > 0 ==> s[0] !in Whitespace && s[|s| - 1] !in Whitespace
  }

  /** Stripping a part that follows a blank gives the part back. */
  lemma TrimAfterBlank(s: string)
    requires Trimmed(s)
    ensures Trim(" " + s) == s
  {
    assert (" " + s)[1..] == s;
    assert LStrip(" " + s, Whitespace) == LStrip(s, Whitespace);
  }

  function LowerChar(c: char): char
  {
    if 'A' <= c <= 'Z' then (c as int + 32) as char else c
  }

  /** Python's `s.lower()` on ASCII letters. */
  function ToLower(s: string): (r: string)
    ensures |r| == |s|
    ensures forall i :: 0 <= i < |s| ==> r[i] == LowerChar(s[i])
  {
    seq(|s|, i requires 0 <= i < |s| => LowerChar(s[i]))
  }

  /** Python's `s[i:j]` for non-negative bounds, which clamps both to the length. */
  function Slice(s: string, i: nat, j: nat): (r: string)
    ensures |r| <= |s|
    ensures i <= j <= |s| ==> r == s[i..j]
    ensures j <= i || |s| <= i ==> r == ""
  {
    var lo := if i < |s| then i else |s|;
    var hi := if j < |s| then j else |s|;
    if lo < hi then s[lo..hi] else ""
  }
}
