/** The `String.prototype` operations the core uses, with the semantics ECMAScript gives them:
    `startsWith`, `endsWith`, `includes`, `indexOf`, `lastIndexOf`, `trim`, `split(sep, 2)`,
    `replace` and `replaceAll` with a string pattern (including the `$` patterns of a replacement
    string), and `Array.prototype.join`. */
module Text {
  import opened Js

  predicate IsPrefix(p: string, s: string) {
    |p| <= |s| && s[..|p|] == p
  }

  /** `s.startsWith(p)` */
  predicate StartsWith(s: string, p: string) {
    IsPrefix(p, s)
  }

  /** `s.endsWith(p)` */
  predicate EndsWith(s: string, p: string) {
    |p| <= |s| && s[|s| - |p|..] == p
  }

  /** `p` occurs in `s` at index `i`. */
  predicate Occurs(s: string, p: string, i: int) {
    0 <= i && i + |p| <= |s| && s[i..i + |p|] == p
  }

  /** `s.includes(p)`; Prisma's `contains` filter, taken as plain substring search. */
  predicate Contains(s: string, p: string) {
    exists i | 0 <= i <= |s| - |p| :: Occurs(s, p, i)
  }

  /** The abstract operation StringIndexOf(s, p, from): the first occurrence at or after `from`, or -1. */
  function IndexOfFrom(s: string, p: string, from: nat): (r: int)
    ensures -1 <= r
    ensures r >= 0 ==> from <= r && r + |p| <= |s|
    decreases |s| - from
  {
    if from + |p| > |s| then -1
    else if s[from..from + |p|] == p then from
    else IndexOfFrom(s, p, from + 1)
  }

  /** `IndexOfFrom` finds an occurrence, and the first one at or after `from`. */
  lemma {:induction false} IndexOfFromFirst(s: string, p: string, from: nat)
    ensures IndexOfFrom(s, p, from) >= 0 ==> Occurs(s, p, IndexOfFrom(s, p, from))
    ensures IndexOfFrom(s, p, from) >= 0 ==> forall i | from <= i < IndexOfFrom(s, p, from) :: !Occurs(s, p, i)
    ensures IndexOfFrom(s, p, from) == -1 ==> forall i | from <= i :: !Occurs(s, p, i)
    decreases |s| - from
  {
    if from + |p| <= |s| && s[from..from + |p|] != p {
      IndexOfFromFirst(s, p, from + 1);
    }
  }

  /** `s.indexOf(p)` */
  function IndexOf(s: string, p: string): int {
    IndexOfFrom(s, p, 0)
  }

  lemma ContainsIffIndexOf(s: string, p: string)
    ensures Contains(s, p) <==> IndexOf(s, p) >= 0
  {
    IndexOfFromFirst(s, p, 0);
    if IndexOf(s, p) >= 0 {
      assert Occurs(s, p, IndexOf(s, p));
    }
  }

  lemma OccursInContains(s: string, p: string, i: int)
    requires Occurs(s, p, i)
    ensures Contains(s, p)
  {
  }

  /** The last occurrence of `p` in `s` at or before index `k`, or -1. */
  function LastIndexOfAt(s: string, p: string, k: int): (r: int)
    ensures r == -1 || 0 <= r <= k
    ensures r >= 0 ==> Occurs(s, p, r)
    ensures forall i | r < i <= k :: !Occurs(s, p, i)
    decreases k + 1
  {
    if k < 0 then -1
    else if Occurs(s, p, k) then k
    else LastIndexOfAt(s, p, k - 1)
  }

  /** A one-character pattern is found only where that character is. */
  lemma IndexOfChar(s: string, c: char)
    ensures IndexOf(s, [c]) >= 0 ==> IndexOf(s, [c]) < |s| && s[IndexOf(s, [c])] == c
  {
    IndexOfFromFirst(s, [c], 0);
    var i := IndexOf(s, [c]);
    assert i >= 0 ==> s[i..i + 1][0] == s[i];
  }

  /** `s.lastIndexOf(p)` */
  function LastIndexOf(s: string, p: string): int {
    LastIndexOfAt(s, p, |s| - |p|)
  }

  lemma LastIndexOfSuffix(s: string, p: string)
    requires EndsWith(s, p)
    ensures LastIndexOf(s, p) == |s| - |p|
  {
    assert Occurs(s, p, |s| - |p|);
  }

  /** WhiteSpace and LineTerminator code points, which `trim` removes. */
  predicate IsJsSpace(c: char) {
    c == '\t' || c == '\n' || c == '\U{000B}' || c == '\U{000C}' || c == '\r' || c == ' '
    || c == '\U{00A0}' || c == '\U{1680}' || ('\U{2000}' <= c <= '\U{200A}')
    || c == '\U{2028}' || c == '\U{2029}' || c == '\U{202F}' || c == '\U{205F}'
    || c == '\U{3000}' || c == '\U{FEFF}'
  }

  /** The end of the run of white space starting at `k`. */
  function SpacesFrom(s: string, k: nat): (e: nat)
    requires k <= |s|
    ensures k <= e <= |s| && forall i | k <= i < e :: IsJsSpace(s[i])
    ensures e < |s| ==> !IsJsSpace(s[e])
    decreases |s| - k
  {
    if k < |s| && IsJsSpace(s[k]) then SpacesFrom(s, k + 1) else k
  }

  /** The start of the run of white space ending at `e`, going no further back than `lo`. */
  function SpacesBack(s: string, lo: nat, e: nat): (b: nat)
    requires lo <= e <= |s|
    ensures lo <= b <= e && forall i | b <= i < e :: IsJsSpace(s[i])
    ensures b > lo ==> !IsJsSpace(s[b - 1])
    decreases e
  {
    if e > lo && IsJsSpace(s[e - 1]) then SpacesBack(s, lo, e - 1) else e
  }

  /** `s` is `k` white-space characters, then `r`, then only white space. */
  predicate PaddedAt(s: string, r: string, k: int) {
    && 0 <= k && k + |r| <= |s| && s[k..k + |r|] == r
    && (forall i | 0 <= i < k :: IsJsSpace(s[i]))
    && (forall i | k + |r| <= i < |s| :: IsJsSpace(s[i]))
  }

  /** `s.trim()`: `s` is some white space, then the result, then some white space, and the
      result neither starts nor ends with white space. */
  function Trim(s: string): (r: string)
    ensures exists k :: PaddedAt(s, r, k)
    ensures |r| > 0 ==> !IsJsSpace(r[0]) && !IsJsSpace(r[|r| - 1])
  {
    var a := SpacesFrom(s, 0);
    var b := SpacesBack(s, a, |s|);
    assert PaddedAt(s, s[a..b], a);
    s[a..b]
  }

  lemma TrimNoSpaceEnds(s: string)
    requires |s| > 0 ==> !IsJsSpace(s[0]) && !IsJsSpace(s[|s| - 1])
    ensures Trim(s) == s
  {
    assert s[0..|s|] == s;
  }

  /** Element 1 of `s.split([sep], 2)`: the text between the first and the second `sep`
      (or to the end), `None` (JavaScript's `undefined`) when `s` has no `sep`. */
  function SecondPiece(s: string, sep: char): (r: Option<string>)
  {
    var i := IndexOf(s, [sep]);
    if i < 0 then None
    else
      var rest := s[i + 1..];
      var j := IndexOf(rest, [sep]);
      Some(if j < 0 then rest else rest[..j])
  }

  /** `v` is the second piece of `s`: it follows the first `sep` and runs to the next one or the end. */
  predicate SecondPieceAt(s: string, sep: char, v: string, k: int) {
    && 0 <= k < |s| && sep !in s[..k] && s[k] == sep
    && k + 1 + |v| <= |s| && s[k + 1..k + 1 + |v|] == v && sep !in v
    && (k + 1 + |v| == |s| || s[k + 1 + |v|] == sep)
  }

  lemma SecondPieceSpec(s: string, sep: char)
    ensures SecondPiece(s, sep).None? <==> sep !in s
    ensures SecondPiece(s, sep).Some? ==> exists k :: SecondPieceAt(s, sep, SecondPiece(s, sep).value, k)
  {
    var i := IndexOf(s, [sep]);
    IndexOfFromFirst(s, [sep], 0);
    if i < 0 {
      CharAbsentBefore(s, sep, |s|);
      assert s[..|s|] == s;
    } else {
      SecondPieceFound(s, sep);
    }
  }

  /** The second piece, when there is a separator, starts after the first one. */
  lemma SecondPieceFound(s: string, sep: char)
    requires IndexOf(s, [sep]) >= 0
    ensures SecondPiece(s, sep).Some? && SecondPieceAt(s, sep, SecondPiece(s, sep).value, IndexOf(s, [sep]))
  {
    var i := IndexOf(s, [sep]);
    IndexOfFromFirst(s, [sep], 0);
    IndexOfChar(s, sep);
    CharAbsentBefore(s, sep, i);
    var rest := s[i + 1..];
    var j := IndexOf(rest, [sep]);
    IndexOfFromFirst(rest, [sep], 0);
    IndexOfChar(rest, sep);
    var v := if j < 0 then rest else rest[..j];
    CharAbsentBefore(rest, sep, |v|);
    assert rest[..|v|] == v;
    assert s[i + 1..i + 1 + |v|] == v;
  }

  /** No one-character occurrence before `n` means the character is not in the first `n`. */
  lemma CharAbsentBefore(s: string, c: char, n: int)
    requires 0 <= n <= |s| && forall i | 0 <= i < n :: !Occurs(s, [c], i)
    ensures c !in s[..n]
  {
    forall k | 0 <= k < n ensures s[k] != c {
      assert !Occurs(s, [c], k);
      assert s[k..k + 1][0] == s[k];
    }
  }

  /** GetSubstitution for a string pattern (no capture groups): `$$` gives `$`, `$&` the match,
      `` $` `` the text before it, `$'` the text after it; any other `$` is kept. */
  function Expand(rep: string, before: string, matched: string, after: string): string
    decreases |rep|
  {
    if |rep| == 0 then ""
    else if rep[0] == '$' && |rep| >= 2 then
      if rep[1] == '$' then "$" + Expand(rep[2..], before, matched, after)
      else if rep[1] == '&' then matched + Expand(rep[2..], before, matched, after)
      else if rep[1] == '`' then before + Expand(rep[2..], before, matched, after)
      else if rep[1] == '\'' then after + Expand(rep[2..], before, matched, after)
      else "$" + Expand(rep[1..], before, matched, after)
    else [rep[0]] + Expand(rep[1..], before, matched, after)
  }

  lemma {:induction false} ExpandPlain(rep: string, before: string, matched: string, after: string)
    requires '$' !in rep
    ensures Expand(rep, before, matched, after) == rep
    decreases |rep|
  {
    if |rep| > 0 {
      assert rep == [rep[0]] + rep[1..];
      ExpandPlain(rep[1..], before, matched, after);
    }
  }

  /** `s.replace(p, rep)` with a string pattern: only the first occurrence is replaced. */
  function Replace(s: string, p: string, rep: string): string {
    var i := IndexOf(s, p);
    if i < 0 then s
    else s[..i] + Expand(rep, s[..i], p, s[i + |p|..]) + s[i + |p|..]
  }

  function Max1(n: nat): nat { if n == 0 then 1 else n }

  /** The remaining work of `s.replaceAll(p, rep)`: the text from `keep` on is still to be copied,
      and the next occurrence is searched for from `search` on. */
  function ReplaceAllAt(s: string, p: string, rep: string, keep: nat, search: nat): string
    requires keep <= search && keep <= |s|
    requires search <= |s| + 1
    decreases |s| + 1 - search
  {
    var pos := IndexOfFrom(s, p, search);
    if pos < 0 then s[keep..]
    else
      s[keep..pos] + Expand(rep, s[..pos], p, s[pos + |p|..])
      + ReplaceAllAt(s, p, rep, pos + |p|, pos + Max1(|p|))
  }

  /** `s.replaceAll(p, rep)` with a string pattern: every occurrence found scanning left to right. */
  function ReplaceAll(s: string, p: string, rep: string): string {
    ReplaceAllAt(s, p, rep, 0, 0)
  }

  /** `parts.join(sep)` */
  function Join(parts: seq<string>, sep: string): string
    decreases |parts|
  {
    if |parts| == 0 then ""
    else if |parts| == 1 then parts[0]
    else parts[0] + sep + Join(parts[1..], sep)
  }

  /** Joining one more part adds the separator and the part at the end. */
  lemma {:induction false} JoinAppend(parts: seq<string>, x: string, sep: string)
    requires |parts| > 0
    ensures Join(parts + [x], sep) == Join(parts, sep) + sep + x
    decreases |parts|
  {
    var all := parts + [x];
    if |parts| == 1 {
      assert all[1..] == [x];
    } else {
      assert all[1..] == parts[1..] + [x];
      JoinAppend(parts[1..], x, sep);
    }
  }

  lemma OccursPrepend(a: string, s: string, p: string, i: int)
    requires Occurs(s, p, i)
    ensures Occurs(a + s, p, |a| + i)
  {
    assert (a + s)[|a| + i..|a| + i + |p|] == s[i..i + |p|];
  }

  lemma OccursAppend(s: string, b: string, p: string, i: int)
    requires Occurs(s, p, i)
    ensures Occurs(s + b, p, i)
  {
    assert (s + b)[i..i + |p|] == s[i..i + |p|];
  }

  /** A template literal: `quasis[0]`, then `values[0]`, then `quasis[1]`, and so on, ending with
      the last of the literal pieces. */
  function Interpolate(quasis: seq<string>, values: seq<string>): string
    requires |quasis| == |values| + 1
    decreases |values|
  {
    if |values| == 0 then quasis[0]
    else quasis[0] + values[0] + Interpolate(quasis[1..], values[1..])
  }

  /** Where `values[k]` starts in the interpolated text. */
  function InterpolateOffset(quasis: seq<string>, values: seq<string>, k: nat): nat
    requires |quasis| == |values| + 1 && k < |values|
    decreases k
  {
    |quasis[0]| + if k == 0 then 0 else |values[0]| + InterpolateOffset(quasis[1..], values[1..], k - 1)
  }

  /** Each value occurs in the interpolated text at its offset. */
  lemma {:induction false} InterpolateOccurs(quasis: seq<string>, values: seq<string>, k: nat)
    requires |quasis| == |values| + 1 && k < |values|
    ensures Occurs(Interpolate(quasis, values), values[k], InterpolateOffset(quasis, values, k))
    decreases |values|
  {
    var rest := Interpolate(quasis[1..], values[1..]);
    if k == 0 {
      assert (quasis[0] + values[0] + rest)[|quasis[0]|..|quasis[0]| + |values[0]|] == values[0];
    } else {
      InterpolateOccurs(quasis[1..], values[1..], k - 1);
      OccursPrepend(quasis[0] + values[0], rest, values[k], InterpolateOffset(quasis[1..], values[1..], k - 1));
    }
  }

  /** Later values start after the end of earlier ones. */
  lemma {:induction false} InterpolateOrdered(quasis: seq<string>, values: seq<string>, i: nat, j: nat)
    requires |quasis| == |values| + 1 && i < j < |values|
    ensures InterpolateOffset(quasis, values, i) + |values[i]| <= InterpolateOffset(quasis, values, j)
    decreases i
  {
    if i > 0 {
      InterpolateOrdered(quasis[1..], values[1..], i - 1, j - 1);
    }
  }

  /** `p` occurs at two places that do not overlap. */
  predicate OccursTwice(s: string, p: string) {
    exists i, j | 0 <= i && i + |p| <= j <= |s| :: Occurs(s, p, i) && Occurs(s, p, j)
  }

  /** Every value occurs in the interpolated text. */
  lemma InterpolateContains(quasis: seq<string>, values: seq<string>)
    requires |quasis| == |values| + 1
    ensures forall k | 0 <= k < |values| :: Contains(Interpolate(quasis, values), values[k])
  {
    forall k | 0 <= k < |values| ensures Contains(Interpolate(quasis, values), values[k]) {
      InterpolateOccurs(quasis, values, k);
    }
  }

  /** A value interpolated at two places occurs twice. */
  lemma InterpolateTwice(quasis: seq<string>, values: seq<string>, i: nat, j: nat)
    requires |quasis| == |values| + 1 && i < j < |values| && values[i] == values[j]
    ensures OccursTwice(Interpolate(quasis, values), values[i])
  {
    InterpolateOccurs(quasis, values, i);
    InterpolateOccurs(quasis, values, j);
    InterpolateOrdered(quasis, values, i, j);
  }

  /** The first index of `c` in `s`. */
  function CharIndex(s: string, c: char): (i: nat)
    requires c in s
    ensures i < |s| && s[i] == c && c !in s[..i]
    decreases |s|
  {
    if s[0] == c then 0
    else
      var i := 1 + CharIndex(s[1..], c);
      assert s[..i] == [s[0]] + s[1..][..i - 1];
      i
  }

  /** `s.split(c)` for a one-character separator. */
  function SplitOn(s: string, c: char): (r: seq<string>)
    ensures |r| > 0
    decreases |s|
  {
    if c !in s then [s]
    else
      var i := CharIndex(s, c);
      [s[..i]] + SplitOn(s[i + 1..], c)
  }

  /** Splitting the join of parts free of the separator gives the parts back. */
  lemma {:induction false} SplitJoin(parts: seq<string>, c: char)
    requires |parts| > 0
    requires forall k | 0 <= k < |parts| :: c !in parts[k]
    ensures SplitOn(Join(parts, [c]), c) == parts
    decreases |parts|
  {
    if |parts| > 1 {
      var rest := Join(parts[1..], [c]);
      var s := parts[0] + [c] + rest;
      assert s[|parts[0]|] == c;
      assert s[..|parts[0]|] == parts[0];
      var i := CharIndex(s, c);
      assert i == |parts[0]|;
      assert s[i + 1..] == rest;
      SplitJoin(parts[1..], c);
    }
  }

  // ---------------------------------------------------------------------------------------------
  // Where an occurrence can start, and what `replace` and `replaceAll` do on a concatenation.

  /** Neither of `x` and `p` is a prefix of the other: `p` cannot occur at the start of `x + y`,
      whatever follows. */
  predicate Mismatch(x: string, p: string) {
    !IsPrefix(p, x) && !IsPrefix(x, p)
  }

  /** No occurrence of `p` can start inside `a`, whatever follows `a`. */
  predicate Inert(a: string, p: string) {
    forall i | 0 <= i < |a| :: Mismatch(a[i..], p)
  }

  lemma MismatchNoOccurrence(x: string, y: string, p: string)
    requires Mismatch(x, p)
    ensures !IsPrefix(p, x + y)
  {
    if |p| <= |x| {
      assert (x + y)[..|p|] == x[..|p|];
    } else if |p| <= |x| + |y| {
      assert (x + y)[..|p|][..|x|] == x;
    }
  }

  lemma InertNoOccurrence(a: string, b: string, p: string, i: int)
    requires Inert(a, p) && 0 <= i < |a|
    ensures !Occurs(a + b, p, i)
  {
    assert Mismatch(a[i..], p);
    MismatchNoOccurrence(a[i..], b, p);
    assert (a + b)[i..] == a[i..] + b;
    if i + |p| <= |a + b| {
      assert (a + b)[i..][..|p|] == (a + b)[i..i + |p|];
    }
  }

  lemma InertAppend(a: string, b: string, p: string)
    requires Inert(a, p) && Inert(b, p)
    ensures Inert(a + b, p)
  {
    forall i | 0 <= i < |a + b| ensures Mismatch((a + b)[i..], p) {
      if i < |a| {
        var x := a[i..];
        assert (a + b)[i..] == x + b;
        MismatchNoOccurrence(x, b, p);
        assert (x + b)[..|x|] == x;
      } else {
        assert (a + b)[i..] == b[i - |a|..];
      }
    }
  }

  /** Searching from any point before the end of `a` finds the same as searching from the end. */
  lemma {:induction false} IndexOfSkipInert(a: string, b: string, p: string, from: nat)
    requires Inert(a, p) && from <= |a|
    ensures IndexOfFrom(a + b, p, from) == IndexOfFrom(a + b, p, |a|)
    decreases |a| - from
  {
    if from < |a| {
      InertNoOccurrence(a, b, p, from);
      IndexOfSkipInert(a, b, p, from + 1);
    }
  }

  /** Searching `a + b` after `a` is searching `b`, shifted. */
  lemma {:induction false} IndexOfShift(a: string, b: string, p: string, m: nat)
    ensures IndexOfFrom(a + b, p, |a| + m) == (if IndexOfFrom(b, p, m) < 0 then -1 else |a| + IndexOfFrom(b, p, m))
    decreases |b| - m
  {
    if m + |p| <= |b| {
      assert (a + b)[|a| + m..|a| + m + |p|] == b[m..m + |p|];
      if b[m..m + |p|] != p {
        IndexOfShift(a, b, p, m + 1);
      }
    }
  }

  /** `s` with `p` at index `i` (if `i` is not -1) replaced by `rep` taken literally. */
  function SpliceAt(s: string, p: string, rep: string, i: int): string
    requires i == -1 || (0 <= i && i + |p| <= |s|)
  {
    if i < 0 then s else s[..i] + rep + s[i + |p|..]
  }

  lemma ReplacePlain(s: string, p: string, rep: string)
    requires '$' !in rep
    ensures Replace(s, p, rep) == SpliceAt(s, p, rep, IndexOf(s, p))
  {
    var i := IndexOf(s, p);
    if i >= 0 {
      ExpandPlain(rep, s[..i], p, s[i + |p|..]);
    }
  }

  /** After a prefix no occurrence can start in, the first occurrence is the first one in `b`. */
  lemma IndexOfInertPrefix(a: string, b: string, p: string)
    requires Inert(a, p)
    ensures IndexOf(a + b, p) == (if IndexOf(b, p) < 0 then -1 else |a| + IndexOf(b, p))
  {
    IndexOfSkipInert(a, b, p, 0);
    IndexOfShift(a, b, p, 0);
  }

  lemma ReplaceShifted(a: string, b: string, p: string, rep: string)
    requires '$' !in rep
    requires IndexOf(a + b, p) == (if IndexOf(b, p) < 0 then -1 else |a| + IndexOf(b, p))
    ensures Replace(a + b, p, rep) == a + Replace(b, p, rep)
  {
    ReplacePlain(a + b, p, rep);
    ReplacePlain(b, p, rep);
    SpliceShifted(a, b, p, rep, IndexOf(b, p));
  }

  /** Splicing behind a prefix. */
  lemma SpliceShifted(a: string, b: string, p: string, rep: string, j: int)
    requires j == -1 || (0 <= j && j + |p| <= |b|)
    ensures SpliceAt(a + b, p, rep, if j < 0 then -1 else |a| + j) == a + SpliceAt(b, p, rep, j)
  {
    if j >= 0 {
      PrefixSlices(a, b, j, |p|);
    }
  }

  lemma ReplaceInertPrefix(a: string, b: string, p: string, rep: string)
    requires Inert(a, p) && '$' !in rep
    ensures Replace(a + b, p, rep) == a + Replace(b, p, rep)
  {
    IndexOfInertPrefix(a, b, p);
    ReplaceShifted(a, b, p, rep);
  }

  lemma ReplaceAtHead(p: string, b: string, rep: string)
    requires '$' !in rep
    ensures Replace(p + b, p, rep) == rep + b
  {
    var s := p + b;
    assert s[0..|p|] == p;
    assert IndexOf(s, p) == 0;
    ReplacePlain(s, p, rep);
    assert s[|p|..] == b;
  }

  lemma ReplaceAbsent(s: string, p: string, rep: string)
    requires IndexOf(s, p) < 0
    ensures Replace(s, p, rep) == s
  {
  }

  /** `replaceAll` with a non-empty pattern and a replacement taken literally, written on suffixes. */
  function PlainReplaceAll(s: string, p: string, rep: string): string
    requires |p| > 0
    decreases |s|
  {
    var i := IndexOf(s, p);
    if i < 0 then s else s[..i] + rep + PlainReplaceAll(s[i + |p|..], p, rep)
  }

  /** Searching `s` from `k` on is searching its suffix from `k`. */
  lemma IndexOfFromSuffix(s: string, p: string, k: nat)
    requires k <= |s|
    ensures IndexOfFrom(s, p, k) == (if IndexOf(s[k..], p) < 0 then -1 else k + IndexOf(s[k..], p))
  {
    assert s == s[..k] + s[k..];
    IndexOfShift(s[..k], s[k..], p, 0);
  }

  lemma {:induction false} ReplaceAllAtIsPlain(s: string, p: string, rep: string, k: nat)
    requires '$' !in rep && |p| > 0 && k <= |s|
    ensures ReplaceAllAt(s, p, rep, k, k) == PlainReplaceAll(s[k..], p, rep)
    decreases |s| - k
  {
    var pos := IndexOfFrom(s, p, k);
    if pos >= 0 {
      ReplaceAllAtIsPlain(s, p, rep, pos + |p|);
      ReplaceAllAtFound(s, p, rep, k);
    } else {
      IndexOfFromSuffix(s, p, k);
      ReplaceAllAtDone(s, p, rep, k);
      PlainReplaceAllAbsent(s[k..], p, rep);
    }
  }

  /** The inductive step of `ReplaceAllAtIsPlain`: one occurrence is replaced the same way. */
  lemma ReplaceAllAtFound(s: string, p: string, rep: string, k: nat)
    requires '$' !in rep && |p| > 0 && k <= |s| && IndexOfFrom(s, p, k) >= 0
    requires var pos := IndexOfFrom(s, p, k);
      ReplaceAllAt(s, p, rep, pos + |p|, pos + |p|) == PlainReplaceAll(s[pos + |p|..], p, rep)
    ensures ReplaceAllAt(s, p, rep, k, k) == PlainReplaceAll(s[k..], p, rep)
  {
    var pos := IndexOfFrom(s, p, k);
    IndexOfFromSuffix(s, p, k);
    ReplaceAllAtStep(s, p, rep, k);
    PlainReplaceAllSuffixStep(s, p, rep, k, pos);
  }

  lemma ReplaceAllAtDone(s: string, p: string, rep: string, k: nat)
    requires k <= |s| && IndexOfFrom(s, p, k) < 0
    ensures ReplaceAllAt(s, p, rep, k, k) == s[k..]
  {
  }

  /** One step of `replaceAll` with a literal replacement, when an occurrence remains. */
  lemma ReplaceAllAtStep(s: string, p: string, rep: string, k: nat)
    requires '$' !in rep && |p| > 0 && k <= |s| && IndexOfFrom(s, p, k) >= 0
    ensures var pos := IndexOfFrom(s, p, k);
      ReplaceAllAt(s, p, rep, k, k) == s[k..pos] + rep + ReplaceAllAt(s, p, rep, pos + |p|, pos + |p|)
  {
    var pos := IndexOfFrom(s, p, k);
    ExpandPlain(rep, s[..pos], p, s[pos + |p|..]);
    assert Max1(|p|) == |p|;
  }

  /** One step of `PlainReplaceAll` on a suffix whose first occurrence is at `pos`. */
  lemma PlainReplaceAllSuffixStep(s: string, p: string, rep: string, k: nat, pos: int)
    requires |p| > 0 && k <= pos && pos + |p| <= |s| && IndexOf(s[k..], p) == pos - k
    ensures PlainReplaceAll(s[k..], p, rep) == s[k..pos] + rep + PlainReplaceAll(s[pos + |p|..], p, rep)
  {
    SuffixSlices(s, k, pos - k, pos - k + |p|);
    PlainReplaceAllSplit(s[k..], p, rep, pos - k, s[k..pos], s[pos + |p|..]);
  }

  /** Slicing a suffix is slicing the whole. */
  lemma SuffixSlices(s: string, k: nat, j: nat, m: nat)
    requires k + j <= |s| && k + m <= |s|
    ensures s[k..][..j] == s[k..k + j] && s[k..][m..] == s[k + m..]
  {
  }

  /** Slicing behind a prefix is slicing the rest. */
  lemma PrefixSlices(a: string, b: string, j: nat, n: nat)
    requires j + n <= |b|
    ensures (a + b)[..|a| + j] == a + b[..j] && (a + b)[|a| + j + n..] == b[j + n..]
  {
    assert (a + b)[..|a| + j] == a + b[..j];
    assert (a + b)[|a| + j + n..] == b[j + n..];
  }

  lemma ReplaceAllIsPlain(s: string, p: string, rep: string)
    requires '$' !in rep && |p| > 0
    ensures ReplaceAll(s, p, rep) == PlainReplaceAll(s, p, rep)
  {
    ReplaceAllAtIsPlain(s, p, rep, 0);
    assert s[0..] == s;
  }

  lemma PlainReplaceAllInertPrefix(a: string, b: string, p: string, rep: string)
    requires Inert(a, p) && |p| > 0
    ensures PlainReplaceAll(a + b, p, rep) == a + PlainReplaceAll(b, p, rep)
  {
    IndexOfInertPrefix(a, b, p);
    PlainReplaceAllShift(a, b, p, rep);
  }

  /** `PlainReplaceAll` at its first match `i`, with the text around the match given. */
  lemma PlainReplaceAllSplit(s: string, p: string, rep: string, i: nat, before: string, after: string)
    requires |p| > 0 && IndexOf(s, p) == i && before == s[..i] && after == s[i + |p|..]
    ensures PlainReplaceAll(s, p, rep) == before + rep + PlainReplaceAll(after, p, rep)
  {
  }

  /** Where the first match in `a + b` is the first match in `b`, moved by `|a|`. */
  lemma PlainReplaceAllShift(a: string, b: string, p: string, rep: string)
    requires |p| > 0
    requires IndexOf(a + b, p) == (if IndexOf(b, p) < 0 then -1 else |a| + IndexOf(b, p))
    ensures PlainReplaceAll(a + b, p, rep) == a + PlainReplaceAll(b, p, rep)
  {
    var j := IndexOf(b, p);
    if j >= 0 {
      PrefixSlices(a, b, j, |p|);
      PlainReplaceAllSplit(a + b, p, rep, |a| + j, a + b[..j], b[j + |p|..]);
      PlainReplaceAllSplit(b, p, rep, j, b[..j], b[j + |p|..]);
      ConcatAssoc3(a, b[..j], rep, PlainReplaceAll(b[j + |p|..], p, rep));
    } else {
      PlainReplaceAllAbsent(a + b, p, rep);
      PlainReplaceAllAbsent(b, p, rep);
    }
  }

  lemma PlainReplaceAllAbsent(s: string, p: string, rep: string)
    requires |p| > 0 && IndexOf(s, p) < 0
    ensures PlainReplaceAll(s, p, rep) == s
  {
  }

  lemma ConcatAssoc3(w: string, x: string, y: string, z: string)
    ensures (w + x) + y + z == w + (x + y + z)
  {
  }

  lemma ReplaceAllInertPrefix(a: string, b: string, p: string, rep: string)
    requires Inert(a, p) && '$' !in rep && |p| > 0
    ensures ReplaceAll(a + b, p, rep) == a + ReplaceAll(b, p, rep)
  {
    ReplaceAllIsPlain(a + b, p, rep);
    ReplaceAllIsPlain(b, p, rep);
    PlainReplaceAllInertPrefix(a, b, p, rep);
  }

  lemma ReplaceAllAtHead(p: string, b: string, rep: string)
    requires '$' !in rep && |p| > 0
    ensures ReplaceAll(p + b, p, rep) == rep + ReplaceAll(b, p, rep)
  {
    var s := p + b;
    ReplaceAllIsPlain(s, p, rep);
    ReplaceAllIsPlain(b, p, rep);
    assert s[0..|p|] == p;
    assert IndexOf(s, p) == 0;
    assert s[|p|..] == b;
  }

  lemma {:induction false} ReplaceAllAtAbsent(s: string, p: string, rep: string, keep: nat, search: nat)
    requires keep <= search && keep <= |s| && search <= |s| + 1
    requires IndexOfFrom(s, p, search) < 0
    ensures ReplaceAllAt(s, p, rep, keep, search) == s[keep..]
  {
  }

  lemma ReplaceAllAbsent(s: string, p: string, rep: string)
    requires IndexOf(s, p) < 0
    ensures ReplaceAll(s, p, rep) == s
  {
  }
}
