/**
 * The handful of Python `str` operations the scrapers rely on, on `seq<char>`.
 * `IsSpace` is Python's `str.isspace`; case mapping and `isdigit` are ASCII-only.
 */
module Text {

  /** The characters for which Python's `str.isspace()` holds (also what `\s` matches in `re`). */
  predicate IsSpace(c: char) {
    || c in {'\t', '\n', '\U{000B}', '\U{000C}', '\r', ' ', '\U{0085}', '\U{00A0}', '\U{1680}',
             '\U{2028}', '\U{2029}', '\U{202F}', '\U{205F}', '\U{3000}'}
    || ('\U{001C}' <= c <= '\U{001F}')
    || ('\U{2000}' <= c <= '\U{200A}')
  }

  predicate IsDigit(c: char) { '0' <= c <= '9' }

  function LowerChar(c: char): char { if 'A' <= c <= 'Z' then (c as int + 32) as char else c }

  function UpperChar(c: char): char { if 'a' <= c <= 'z' then (c as int - 32) as char else c }

  /** `s.lower()` restricted to ASCII letters. */
  function Lower(s: string): (r: string)
    ensures |r| == |s| && forall i :: 0 <= i < |s| ==> r[i] == LowerChar(s[i])
  {
    seq(|s|, i requires 0 <= i < |s| => LowerChar(s[i]))
  }

  /** `s.upper()` restricted to ASCII letters. */
  function Upper(s: string): (r: string)
    ensures |r| == |s| && forall i :: 0 <= i < |s| ==> r[i] == UpperChar(s[i])
  {
    seq(|s|, i requires 0 <= i < |s| => UpperChar(s[i]))
  }

  /** `s` without its leading run of characters of the class `inRun`. */
  function DropRun(s: string, inRun: char -> bool): (r: string)
    ensures |r| <= |s| && r == s[|s| - |r|..]
    ensures r == [] || !inRun(r[0])
    ensures forall i :: 0 <= i < |s| - |r| ==> inRun(s[i])
  {
    if s != [] && inRun(s[0]) then
      var r := DropRun(s[1..], inRun);
      assert s[1..][|s| - 1 - |r|..] == s[|s| - |r|..];
      assert forall i :: 0 <= i < |s| - |r| ==> inRun(s[i]) by {
        forall i | 0 < i < |s| - |r| ensures inRun(s[i]) {
          assert s[i] == s[1..][i - 1];
        }
      }
      r
    else s
  }

  /** `s.lstrip()`: drops the leading whitespace and nothing else. */
  function TrimLeft(s: string): string {
    DropRun(s, IsSpace)
  }

  /** `s.rstrip()`: drops the trailing whitespace and nothing else. */
  function TrimRight(s: string): (r: string)
    ensures |r| <= |s| && r == s[..|r|]
    ensures r == [] || !IsSpace(r[|r| - 1])
    ensures forall i :: |r| <= i < |s| ==> IsSpace(s[i])
  {
    if s != [] && IsSpace(s[|s| - 1]) then TrimRight(s[..|s| - 1]) else s
  }

  /** `s.strip()`. */
  function Strip(s: string): (r: string)
    ensures |r| <= |s|
    ensures r == [] || (!IsSpace(r[0]) && !IsSpace(r[|r| - 1]))
  {
    TrimRight(TrimLeft(s))
  }

  /** A text that neither starts nor ends with whitespace is its own `strip()`. */
  lemma StripUnspaced(s: string)
    requires s != [] && !IsSpace(s[0]) && !IsSpace(s[|s| - 1])
    ensures Strip(s) == s
  {
    assert TrimLeft(s) == s;
  }

  /** `strip()` keeps the slice between a leading and a trailing run of whitespace. */
  lemma StripSlice(s: string)
    ensures var k := |s| - |TrimLeft(s)|;
      && k + |Strip(s)| <= |s| && Strip(s) == s[k..k + |Strip(s)|]
      && (forall i :: 0 <= i < k ==> IsSpace(s[i]))
      && (forall i :: k + |Strip(s)| <= i < |s| ==> IsSpace(s[i]))
  {
    var left := TrimLeft(s);
    var r := TrimRight(left);
    var k := |s| - |left|;
    assert left == s[k..];
    assert r == left[..|r|];
    assert forall i :: k + |r| <= i < |s| ==> s[i] == left[i - k];
  }

  /** The length of the run of `c` that `s` starts with. */
  function LeadingRun(s: string, c: char): (n: nat)
    ensures n <= |s|
    ensures forall i :: 0 <= i < n ==> s[i] == c
    ensures n < |s| ==> s[n] != c
  {
    if s != [] && s[0] == c then 1 + LeadingRun(s[1..], c) else 0
  }

  /** The length of the run of `c` that `s` ends with. */
  function TrailingRun(s: string, c: char): (n: nat)
    ensures n <= |s|
    ensures forall i :: |s| - n <= i < |s| ==> s[i] == c
    ensures n < |s| ==> s[|s| - 1 - n] != c
  {
    if s != [] && s[|s| - 1] == c then 1 + TrailingRun(s[..|s| - 1], c) else 0
  }

  /**
   * `s.strip(c)` for one character `c`: the slice of `s` between its leading run of `c` and
   * its trailing run of `c`.
   */
  function StripChar(s: string, c: char): (r: string)
    ensures LeadingRun(s, c) + |r| <= |s| && r == s[LeadingRun(s, c)..LeadingRun(s, c) + |r|]
    ensures forall i :: LeadingRun(s, c) + |r| <= i < |s| ==> s[i] == c
    ensures r == [] || (r[0] != c && r[|r| - 1] != c)
  {
    var n := LeadingRun(s, c);
    var rest := s[n..];
    var t := TrailingRun(rest, c);
    assert forall i :: n + |rest| - t <= i < |s| ==> s[i] == rest[i - n];
    rest[..|rest| - t]
  }

  // ---------------------------------------------------------------------------------------
  // `re.sub("[class]+", fill, s)`

  /** The characters of `s` outside the class `inRun`, in order. */
  function Kept(s: string, inRun: char -> bool): (r: string)
    ensures |r| <= |s|
  {
    if s == [] then [] else (if inRun(s[0]) then [] else [s[0]]) + Kept(s[1..], inRun)
  }

  lemma {:induction false} KeptAppend(a: string, b: string, inRun: char -> bool)
    ensures Kept(a + b, inRun) == Kept(a, inRun) + Kept(b, inRun)
    decreases |a|
  {
    if a == [] {
      assert a + b == b;
    } else {
      HeadTailAppend(a, b);
      KeptAppend(a[1..], b, inRun);
    }
  }

  lemma {:induction false} KeptOfRun(w: string, inRun: char -> bool)
    requires forall i :: 0 <= i < |w| ==> inRun(w[i])
    ensures Kept(w, inRun) == []
    decreases |w|
  {
    if w != [] {
      assert inRun(w[0]);
      KeptOfRun(w[1..], inRun);
    }
  }

  /** Cutting runs of the class off both ends keeps the same characters. */
  lemma KeptSlice(s: string, inRun: char -> bool, i: nat, j: nat)
    requires i <= j <= |s|
    requires forall k :: 0 <= k < i ==> inRun(s[k])
    requires forall k :: j <= k < |s| ==> inRun(s[k])
    ensures Kept(s[i..j], inRun) == Kept(s, inRun)
  {
    KeptDropBack(s, inRun, j);
    KeptDropFront(s[..j], inRun, i);
    assert s[..j][i..] == s[i..j];
  }

  /** Dropping a leading run of the class keeps the same characters. */
  lemma {:induction false} KeptDropFront(s: string, inRun: char -> bool, i: nat)
    requires i <= |s|
    requires forall k :: 0 <= k < i ==> inRun(s[k])
    ensures Kept(s[i..], inRun) == Kept(s, inRun)
    decreases i
  {
    if i > 0 {
      assert inRun(s[0]);
      assert Kept(s, inRun) == Kept(s[1..], inRun);
      assert forall k :: 0 <= k < i - 1 ==> s[1..][k] == s[k + 1];
      KeptDropFront(s[1..], inRun, i - 1);
      assert s[1..][i - 1..] == s[i..];
    }
  }

  /** Dropping a trailing run of the class keeps the same characters. */
  lemma {:induction false} KeptDropBack(s: string, inRun: char -> bool, j: nat)
    requires j <= |s|
    requires forall k :: j <= k < |s| ==> inRun(s[k])
    ensures Kept(s[..j], inRun) == Kept(s, inRun)
    decreases |s|
  {
    if j == 0 {
      KeptOfRun(s, inRun);
    } else {
      assert s[..j][0] == s[0] && s[..j][1..] == s[1..][..j - 1];
      assert forall k :: j - 1 <= k < |s| - 1 ==> s[1..][k] == s[k + 1];
      KeptDropBack(s[1..], inRun, j - 1);
    }
  }

  lemma KeptDropRun(s: string, inRun: char -> bool)
    ensures Kept(DropRun(s, inRun), inRun) == Kept(s, inRun)
  {
    var r := DropRun(s, inRun);
    KeptSlice(s, inRun, |s| - |r|, |s|);
  }

  /**
   * `re.sub("[class]+", fill, s)`: every maximal run of class characters becomes one `fill`
   * (what that keeps and what it leaves is `SubRunsShape`).
   */
  function SubRuns(s: string, inRun: char -> bool, fill: char): (r: string)
    ensures r != [] && s != [] && !inRun(s[0]) ==> r[0] == s[0]
    ensures r != [] && s != [] && inRun(s[0]) ==> r[0] == fill
    ensures r == [] <==> s == []
    decreases |s|
  {
    if s == [] then []
    else if !inRun(s[0]) then [s[0]] + SubRuns(s[1..], inRun, fill)
    else [fill] + SubRuns(DropRun(s[1..], inRun), inRun, fill)
  }

  /** The characters outside the class are kept, in order. */
  lemma {:induction false} SubRunsKept(s: string, inRun: char -> bool, fill: char)
    requires inRun(fill)
    ensures Kept(SubRuns(s, inRun, fill), inRun) == Kept(s, inRun)
    decreases |s|
  {
    if s != [] {
      var r := SubRuns(s, inRun, fill);
      if !inRun(s[0]) {
        var rest := SubRuns(s[1..], inRun, fill);
        SubRunsKept(s[1..], inRun, fill);
        assert r == [s[0]] + rest && r[1..] == rest;
      } else {
        var tail := DropRun(s[1..], inRun);
        KeptDropRun(s[1..], inRun);
        SubRunsKept(tail, inRun, fill);
        assert r == [fill] + SubRuns(tail, inRun, fill) && r[1..] == SubRuns(tail, inRun, fill);
      }
    }
  }

  /** The class characters of `r` are all `fill`, and no two of them are adjacent. */
  predicate RunsFilled(r: string, inRun: char -> bool, fill: char) {
    && (forall i :: 0 <= i < |r| ==> inRun(r[i]) ==> r[i] == fill)
    && (forall i :: 0 <= i < |r| - 1 ==> !(inRun(r[i]) && inRun(r[i + 1])))
  }

  lemma RunsFilledCons(x: char, rest: string, inRun: char -> bool, fill: char)
    requires RunsFilled(rest, inRun, fill)
    requires inRun(x) ==> x == fill && (rest == [] || !inRun(rest[0]))
    ensures RunsFilled([x] + rest, inRun, fill)
  {
    var r := [x] + rest;
    forall i | 0 <= i < |r| && inRun(r[i]) ensures r[i] == fill {
      if i > 0 {
        assert r[i] == rest[i - 1];
      }
    }
    forall i | 0 <= i < |r| - 1 ensures !(inRun(r[i]) && inRun(r[i + 1])) {
      assert r[i + 1] == rest[i];
      if i > 0 {
        assert r[i] == rest[i - 1];
      }
    }
  }

  lemma RunsFilledSlice(r: string, inRun: char -> bool, fill: char, i: nat, j: nat)
    requires RunsFilled(r, inRun, fill) && i <= j <= |r|
    ensures RunsFilled(r[i..j], inRun, fill)
  {
    var t := r[i..j];
    assert forall k :: 0 <= k < |t| ==> t[k] == r[i + k];
  }

  /** The class characters `SubRuns` leaves are all `fill`, and no two of them are adjacent. */
  lemma {:induction false} SubRunsForm(s: string, inRun: char -> bool, fill: char)
    requires inRun(fill)
    ensures RunsFilled(SubRuns(s, inRun, fill), inRun, fill)
    decreases |s|
  {
    if s != [] {
      if !inRun(s[0]) {
        SubRunsForm(s[1..], inRun, fill);
        RunsFilledCons(s[0], SubRuns(s[1..], inRun, fill), inRun, fill);
      } else {
        var tail := DropRun(s[1..], inRun);
        SubRunsForm(tail, inRun, fill);
        RunsFilledCons(fill, SubRuns(tail, inRun, fill), inRun, fill);
      }
    }
  }

  /** `DropRun` of a concatenation: the first part's remainder followed by the second, or the second's. */
  lemma {:induction false} DropRunAppend(a: string, b: string, inRun: char -> bool)
    ensures DropRun(a + b, inRun) == if DropRun(a, inRun) != [] then DropRun(a, inRun) + b else DropRun(b, inRun)
    decreases |a|
  {
    if a == [] {
      assert a + b == b;
    } else {
      HeadTailAppend(a, b);
      DropRunAppend(a[1..], b, inRun);
    }
  }

  /** A run of class characters followed by a text that does not start with one. */
  lemma RunThen(a: string, b: string, inRun: char -> bool, fill: char)
    requires inRun(fill) && a != []
    requires forall k :: 0 <= k < |a| ==> inRun(a[k])
    requires b == [] || !inRun(b[0])
    ensures SubRuns(a + b, inRun, fill) == [fill] + SubRuns(b, inRun, fill)
  {
    HeadTailAppend(a, b);
    DropRunAppend(a[1..], b, inRun);
    assert DropRun(a[1..], inRun) == [];
    assert DropRun(b, inRun) == b;
  }

  /** Cutting a text where a run of the class does not continue across the cut commutes with `SubRuns`. */
  lemma {:induction false} SubRunsAppend(a: string, b: string, inRun: char -> bool, fill: char)
    requires inRun(fill)
    requires a == [] || b == [] || !inRun(a[|a| - 1]) || !inRun(b[0])
    ensures SubRuns(a + b, inRun, fill) == SubRuns(a, inRun, fill) + SubRuns(b, inRun, fill)
    decreases |a|, 1
  {
    if a == [] {
      assert a + b == b;
    } else if !inRun(a[0]) {
      SubRunsAppendKept(a, b, inRun, fill);
    } else if DropRun(a[1..], inRun) != [] {
      SubRunsAppendRun(a, b, inRun, fill);
    } else {
      SubRunsAppendWholeRun(a, b, inRun, fill);
    }
  }

  lemma {:induction false} SubRunsAppendKept(a: string, b: string, inRun: char -> bool, fill: char)
    requires inRun(fill) && a != [] && !inRun(a[0])
    requires b == [] || !inRun(a[|a| - 1]) || !inRun(b[0])
    ensures SubRuns(a + b, inRun, fill) == SubRuns(a, inRun, fill) + SubRuns(b, inRun, fill)
    decreases |a|, 0
  {
    KeptHead(a, b, inRun, fill);
    var rest := a[1..];
    assert rest == [] || rest[|rest| - 1] == a[|a| - 1];
    SubRunsAppend(rest, b, inRun, fill);
    ConsAssociates(a[0], SubRuns(rest, inRun, fill), SubRuns(b, inRun, fill));
  }

  /** A leading run becomes one `fill`, and the cut after it commutes with `SubRuns`. */
  lemma {:induction false} SubRunsAppendRun(a: string, b: string, inRun: char -> bool, fill: char)
    requires inRun(fill) && a != [] && inRun(a[0]) && DropRun(a[1..], inRun) != []
    requires b == [] || !inRun(a[|a| - 1]) || !inRun(b[0])
    ensures SubRuns(a + b, inRun, fill) == SubRuns(a, inRun, fill) + SubRuns(b, inRun, fill)
    decreases |a|, 0
  {
    var tail := DropRun(a[1..], inRun);
    RunTail(a, b, inRun, fill);
    SubRunsAppend(tail, b, inRun, fill);
    ConsAssociates(fill, SubRuns(tail, inRun, fill), SubRuns(b, inRun, fill));
  }

  lemma HeadTailAppend<T>(a: seq<T>, b: seq<T>)
    requires a != []
    ensures (a + b)[0] == a[0] && (a + b)[1..] == a[1..] + b
  {
  }

  lemma ConsAssociates<T>(x: T, p: seq<T>, q: seq<T>)
    ensures [x] + (p + q) == ([x] + p) + q
  {
  }

  /** A character outside the class is copied, and `SubRuns` goes on after it. */
  lemma KeptHead(a: string, b: string, inRun: char -> bool, fill: char)
    requires inRun(fill) && a != [] && !inRun(a[0])
    ensures SubRuns(a + b, inRun, fill) == [a[0]] + SubRuns(a[1..] + b, inRun, fill)
    ensures SubRuns(a, inRun, fill) == [a[0]] + SubRuns(a[1..], inRun, fill)
  {
    HeadTailAppend(a, b);
  }

  /** A text that is one run of the class becomes one `fill`, whatever follows the cut. */
  lemma SubRunsAppendWholeRun(a: string, b: string, inRun: char -> bool, fill: char)
    requires inRun(fill) && a != [] && inRun(a[0]) && DropRun(a[1..], inRun) == []
    requires b == [] || !inRun(a[|a| - 1]) || !inRun(b[0])
    ensures SubRuns(a + b, inRun, fill) == SubRuns(a, inRun, fill) + SubRuns(b, inRun, fill)
  {
    AllRun(a, inRun);
    SubRunsOfRun(a, inRun, fill);
    if b == [] {
      assert a + b == a && SubRuns(a, inRun, fill) + [] == SubRuns(a, inRun, fill);
    } else {
      assert inRun(a[|a| - 1]);
      RunThen(a, b, inRun, fill);
    }
  }

  lemma AllRun(a: string, inRun: char -> bool)
    requires a != [] && inRun(a[0]) && DropRun(a[1..], inRun) == []
    ensures forall k :: 0 <= k < |a| ==> inRun(a[k])
  {
    forall k | 0 <= k < |a| ensures inRun(a[k]) {
      if k > 0 {
        assert a[1..][k - 1] == a[k];
      }
    }
  }

  /** A leading run followed by more of `a`: `SubRuns` restarts after the run, in `a` alone or with `b` after it. */
  lemma RunTail(a: string, b: string, inRun: char -> bool, fill: char)
    requires inRun(fill) && a != [] && inRun(a[0]) && DropRun(a[1..], inRun) != []
    ensures var tail := DropRun(a[1..], inRun);
      && tail[|tail| - 1] == a[|a| - 1]
      && SubRuns(a + b, inRun, fill) == [fill] + SubRuns(tail + b, inRun, fill)
      && SubRuns(a, inRun, fill) == [fill] + SubRuns(tail, inRun, fill)
  {
    HeadTailAppend(a, b);
    DropRunAppend(a[1..], b, inRun);
  }

  /** A non-empty run of class characters becomes one `fill`. */
  lemma SubRunsOfRun(w: string, inRun: char -> bool, fill: char)
    requires inRun(fill) && w != []
    requires forall i :: 0 <= i < |w| ==> inRun(w[i])
    ensures SubRuns(w, inRun, fill) == [fill]
  {
    assert DropRun(w[1..], inRun) == [];
  }

  /** Text whose class characters are single `fill`s is left as it is. */
  lemma {:induction false} SubRunsNormal(s: string, inRun: char -> bool, fill: char)
    requires inRun(fill)
    requires RunsFilled(s, inRun, fill)
    ensures SubRuns(s, inRun, fill) == s
    decreases |s|
  {
    if s != [] {
      if inRun(s[0]) {
        assert s[1..] == [] || !inRun(s[1..][0]);
        assert DropRun(s[1..], inRun) == s[1..];
      }
      SubRunsNormal(s[1..], inRun, fill);
    }
  }

  predicate StartsWith(s: string, prefix: string) {
    |prefix| <= |s| && s[..|prefix|] == prefix
  }

  predicate EndsWith(s: string, suffix: string) {
    |suffix| <= |s| && s[|s| - |suffix|..] == suffix
  }

  /** Python's `needle in hay` for strings. */
  predicate Contains(hay: string, needle: string) {
    StartsWith(hay, needle) || (hay != [] && Contains(hay[1..], needle))
  }

  /** `needle` sits at offset `i` of `hay`. */
  predicate OccursAt(hay: string, needle: string, i: nat) {
    i + |needle| <= |hay| && hay[i..i + |needle|] == needle
  }

  /** `needle in hay` holds exactly when `needle` occurs at some offset. */
  lemma {:induction false} ContainsOffset(hay: string, needle: string)
    ensures Contains(hay, needle) <==> exists i: nat :: OccursAt(hay, needle, i)
    decreases |hay|
  {
    if hay != [] {
      ContainsOffset(hay[1..], needle);
      if exists i: nat :: OccursAt(hay, needle, i) {
        var i: nat :| OccursAt(hay, needle, i);
        if i > 0 {
          assert OccursAt(hay[1..], needle, i - 1) by {
            assert hay[1..][i - 1..i - 1 + |needle|] == hay[i..i + |needle|];
          }
        }
      }
      if exists i: nat :: OccursAt(hay[1..], needle, i) {
        var i: nat :| OccursAt(hay[1..], needle, i);
        assert hay[i + 1..i + 1 + |needle|] == hay[1..][i..i + |needle|];
        assert OccursAt(hay, needle, i + 1);
      }
      if StartsWith(hay, needle) {
        assert OccursAt(hay, needle, 0);
      }
    } else if needle == [] {
      assert OccursAt(hay, needle, 0);
    }
  }

  /** `inner in outer` and `outer in hay` give `inner in hay`. */
  lemma ContainsTransitive(hay: string, outer: string, inner: string)
    requires Contains(hay, outer) && Contains(outer, inner)
    ensures Contains(hay, inner)
  {
    ContainsOffset(hay, outer);
    ContainsOffset(outer, inner);
    var i: nat :| OccursAt(hay, outer, i);
    var j: nat :| OccursAt(outer, inner, j);
    var window := hay[i + j..i + j + |inner|];
    forall k | 0 <= k < |inner| ensures window[k] == inner[k] {
      assert window[k] == hay[i..i + |outer|][j + k] == outer[j..j + |inner|][k];
    }
    assert window == inner;
    assert OccursAt(hay, inner, i + j);
    ContainsOffset(hay, inner);
  }

  /** Index of the first `c` in `s`, or `|s|` when there is none. */
  function IndexOf(s: string, c: char): (i: nat)
    ensures i <= |s| && c !in s[..i]
    ensures i < |s| ==> s[i] == c
  {
    if s == [] then 0 else if s[0] == c then 0 else 1 + IndexOf(s[1..], c)
  }

  /** `s.split(sep)` for a one-character separator. */
  function Split(s: string, sep: char): (parts: seq<string>)
    ensures |parts| >= 1
    ensures forall k :: 0 <= k < |parts| ==> sep !in parts[k]
    decreases |s|
  {
    var i := IndexOf(s, sep);
    if i == |s| then [s] else [s[..i]] + Split(s[i + 1..], sep)
  }

  /** The last element of `s.split(sep)`, i.e. `s.split(sep)[-1]`. */
  function LastSegment(s: string, sep: char): (r: string)
    ensures sep !in r
  {
    var parts := Split(s, sep);
    parts[|parts| - 1]
  }

  /** `sep.join(parts)`. */
  function Join(parts: seq<string>, sep: string): string {
    if parts == [] then "" else if |parts| == 1 then parts[0] else parts[0] + sep + Join(parts[1..], sep)
  }

  /** `s.replace(target, replacement)`: replaces non-overlapping occurrences, left to right. */
  function Replace(s: string, target: string, replacement: string): string
    requires target != ""
    decreases |s|
  {
    if |s| < |target| then s
    else if s[..|target|] == target then replacement + Replace(s[|target|..], target, replacement)
    else [s[0]] + Replace(s[1..], target, replacement)
  }

  /** `s[:limit]`: a negative limit counts from the end. */
  function PyPrefix<T>(s: seq<T>, limit: int): (r: seq<T>)
    ensures limit >= 0 ==> |r| == if limit < |s| then limit else |s|
    ensures limit < 0 ==> |r| == if |s| + limit > 0 then |s| + limit else 0
    ensures r == s[..|r|]
  {
    if limit >= 0 then (if limit < |s| then s[..limit] else s)
    else if |s| + limit > 0 then s[..|s| + limit] else []
  }

  /** Replacing never brings in a character that neither `s` nor the replacement has. */
  lemma {:induction false} ReplaceKeepsAbsent(s: string, target: string, replacement: string, c: char)
    requires target != "" && c !in s && c !in replacement
    ensures c !in Replace(s, target, replacement)
    decreases |s|
  {
    if s != [] {
      if StartsWith(s, target) {
        ReplaceKeepsAbsent(s[|target|..], target, replacement, c);
      } else {
        ReplaceKeepsAbsent(s[1..], target, replacement, c);
      }
    }
  }

  /** Replacing every `c` by a text without `c` leaves no `c`. */
  lemma {:induction false} ReplaceRemovesChar(s: string, c: char, replacement: string)
    requires c !in replacement
    ensures c !in Replace(s, [c], replacement)
    decreases |s|
  {
    if |s| >= 1 {
      ReplaceRemovesChar(s[1..], c, replacement);
    }
  }
}
