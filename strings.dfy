/**
  The few Python `str` operations the formatting code relies on: `sep.join(parts)`,
  `s.split(c)` (used only to state what the joined output contains), `s[:n]` and `s.strip()`.
 */
module Strings {

  /** `sep.join(parts)`. */
  function Join(parts: seq<string>, sep: string): string
    decreases |parts|
  {
    if |parts| == 0 then ""
    else if |parts| == 1 then parts[0]
    else parts[0] + sep + Join(parts[1..], sep)
  }

  /** `s.split(c)` with a one-character separator: never empty, and no piece holds the separator. */
  function Split(s: string, c: char): (pieces: seq<string>)
    ensures |pieces| >= 1
    ensures forall k :: 0 <= k < |pieces| ==> c !in pieces[k]
    decreases |s|
  {
    if s == [] then [""]
    else
      var rest := Split(s[1..], c);
      if s[0] == c then [""] + rest else [[s[0]] + rest[0]] + rest[1..]
  }

  /** `s[:n]`: the first n characters, or all of s when it is shorter. */
  function Slice(s: string, n: nat): (r: string)
    ensures |r| <= n && r <= s
    ensures |s| <= n ==> r == s
    ensures |s| >= n ==> |r| == n
  {
    if |s| <= n then s else s[..n]
  }

  /** The characters Python's `str.strip()` removes (those for which `str.isspace()` holds). */
  const Whitespace: set<char> :=
    {'\t', '\n', '\U{B}', '\U{C}', '\r', '\U{1C}', '\U{1D}', '\U{1E}', '\U{1F}', ' ',
     '\U{85}', '\U{A0}', '\U{1680}', '\U{2000}', '\U{2001}', '\U{2002}', '\U{2003}', '\U{2004}', '\U{2005}', '\U{2006}',
     '\U{2007}', '\U{2008}', '\U{2009}', '\U{200A}', '\U{2028}', '\U{2029}', '\U{202F}', '\U{205F}', '\U{3000}'}

  predicate IsSpace(ch: char)
  {
    ch in Whitespace
  }

  /** `s.lstrip()`: the suffix left after dropping the leading whitespace, all of it. */
  function TrimStart(s: string): (r: string)
    ensures |r| <= |s| && r == s[|s| - |r|..]
    ensures forall i :: 0 <= i < |s| - |r| ==> IsSpace(s[i])
    ensures r != [] ==> !IsSpace(r[0])
    decreases |s|
  {
    if s != [] && IsSpace(s[0]) then TrimStart(s[1..]) else s
  }

  /** `s.rstrip()`: the prefix left after dropping the trailing whitespace, all of it. */
  function TrimEnd(s: string): (r: string)
    ensures |r| <= |s| && r == s[..|r|]
    ensures forall i :: |r| <= i < |s| ==> IsSpace(s[i])
    ensures r != [] ==> !IsSpace(r[|r| - 1])
    decreases |s|
  {
    if s != [] && IsSpace(s[|s| - 1]) then TrimEnd(s[..|s| - 1]) else s
  }

  /** `s.strip()`. */
  function Strip(s: string): string
  {
    TrimEnd(TrimStart(s))
  }

  // ----- join and split are inverse to each other -----

  /** A string without the separator splits into itself alone. */
  lemma {:induction false} SplitWithout(a: string, c: char)
    requires c !in a
    ensures Split(a, c) == [a]
    decreases |a|
  {
    if a != [] {
      SplitWithout(a[1..], c);
      assert a[0] != c && [a[0]] + a[1..] == a;
    }
  }

  /** Splitting `a + c + b`, where `a` has no separator, yields `a` followed by the pieces of `b`. */
  lemma {:induction false} SplitAfter(a: string, b: string, c: char)
    requires c !in a
    ensures Split(a + [c] + b, c) == [a] + Split(b, c)
    decreases |a|
  {
    var s := a + [c] + b;
    if a == [] {
      assert s[0] == c && s[1..] == b;
    } else {
      assert s[0] == a[0] && s[1..] == a[1..] + [c] + b;
      SplitAfter(a[1..], b, c);
      assert [a[0]] + a[1..] == a;
    }
  }

  /** Joining lines with a separator they do not contain, then splitting, gives the lines back. */
  lemma {:induction false} SplitJoin(lines: seq<string>, c: char)
    requires |lines| >= 1
    requires forall k :: 0 <= k < |lines| ==> c !in lines[k]
    ensures Split(Join(lines, [c]), c) == lines
    decreases |lines|
  {
    if |lines| == 1 {
      SplitWithout(lines[0], c);
    } else {
      SplitJoin(lines[1..], c);
      SplitAfter(lines[0], Join(lines[1..], [c]), c);
      assert [lines[0]] + lines[1..] == lines;
    }
  }

  /** Prefixing the first part is prefixing the joined text. */
  lemma JoinPrefix(x: string, parts: seq<string>, sep: string)
    requires |parts| >= 1
    ensures Join([x + parts[0]] + parts[1..], sep) == x + Join(parts, sep)
  {
    var ps := [x + parts[0]] + parts[1..];
    assert ps[1..] == parts[1..];
  }

  /** Splitting a string and joining the pieces with the separator gives the string back. */
  lemma {:induction false} JoinSplit(s: string, c: char)
    ensures Join(Split(s, c), [c]) == s
    decreases |s|
  {
    if s != [] {
      var rest := Split(s[1..], c);
      JoinSplit(s[1..], c);
      if s[0] == c {
        assert ([""] + rest)[1..] == rest;
      } else {
        JoinPrefix([s[0]], rest, [c]);
      }
    }
  }

  /** Splitting `a + c + b`, where `b` has no separator, yields the pieces of `a` followed by `b`. */
  lemma {:induction false} SplitBefore(a: string, b: string, c: char)
    requires c !in b
    ensures Split(a + [c] + b, c) == Split(a, c) + [b]
    decreases |a|
  {
    var s := a + [c] + b;
    if a == [] {
      assert s[0] == c && s[1..] == b;
      SplitWithout(b, c);
    } else {
      assert s[0] == a[0] && s[1..] == a[1..] + [c] + b;
      SplitBefore(a[1..], b, c);
    }
  }

  /** Five separator-free lines joined by the separator split back into those lines. */
  lemma SplitFive(l0: string, l1: string, l2: string, l3: string, l4: string, c: char)
    requires c !in l0 && c !in l1 && c !in l2 && c !in l3 && c !in l4
    ensures Split(l0 + [c] + l1 + [c] + l2 + [c] + l3 + [c] + l4, c) == [l0, l1, l2, l3, l4]
  {
    SplitWithout(l0, c);
    SplitBefore(l0, l1, c);
    SplitBefore(l0 + [c] + l1, l2, c);
    SplitBefore(l0 + [c] + l1 + [c] + l2, l3, c);
    SplitBefore(l0 + [c] + l1 + [c] + l2 + [c] + l3, l4, c);
  }

  /** Proof helper: regrouping a concatenation of four strings. */
  lemma Regroup(x: string, p: string, q: string, r: string)
    ensures x + p + q + r == x + (p + q + r)
  {
  }

  // ----- join laws -----

  /** Appending a part appends the separator and that part. */
  lemma {:induction false} JoinAppend(parts: seq<string>, x: string, sep: string)
    requires |parts| >= 1
    ensures Join(parts + [x], sep) == Join(parts, sep) + sep + x
    decreases |parts|
  {
    if |parts| > 1 {
      JoinAppend(parts[1..], x, sep);
      assert (parts + [x])[1..] == parts[1..] + [x];
    }
  }

  /** The joined text begins with the first part. */
  lemma {:induction false} JoinStartsWith(parts: seq<string>, sep: string)
    requires |parts| >= 1
    ensures parts[0] <= Join(parts, sep)
  {
  }

  /** The joined text ends with the last part. */
  lemma {:induction false} JoinEndsWith(parts: seq<string>, sep: string)
    requires |parts| >= 1
    ensures var j := Join(parts, sep); var z := parts[|parts| - 1];
      |z| <= |j| && j[|j| - |z|..] == z
    decreases |parts|
  {
    if |parts| > 1 {
      JoinEndsWith(parts[1..], sep);
    }
  }

  /** A character found in neither the parts nor the separator is not in the joined text. */
  lemma {:induction false} JoinAvoids(parts: seq<string>, sep: string, c: char)
    requires c !in sep
    requires forall k :: 0 <= k < |parts| ==> c !in parts[k]
    ensures c !in Join(parts, sep)
    decreases |parts|
  {
    if |parts| > 1 {
      JoinAvoids(parts[1..], sep, c);
    }
  }

  // ----- framing -----

  /** Each part preceded and followed by `brk`, concatenated in order. */
  function Surround(parts: seq<string>, brk: string): string
    decreases |parts|
  {
    if parts == [] then ""
    else Surround(parts[..|parts| - 1], brk) + brk + parts[|parts| - 1] + brk
  }

  /** Appending a part appends it between two copies of `brk`. */
  lemma SurroundSnoc(parts: seq<string>, x: string, brk: string)
    ensures Surround(parts + [x], brk) == Surround(parts, brk) + brk + x + brk
  {
    assert (parts + [x])[..|parts|] == parts;
  }

  /** The framed parts are `brk`, the parts joined by two copies of `brk`, and `brk`. */
  lemma {:induction false} SurroundJoin(parts: seq<string>, brk: string)
    requires parts != []
    ensures Surround(parts, brk) == brk + Join(parts, brk + brk) + brk
    decreases |parts|
  {
    var n := |parts|;
    var init, z := parts[..n - 1], parts[n - 1];
    if n == 1 {
      assert init == [];
    } else {
      SurroundJoin(init, brk);
      JoinAppend(init, z, brk + brk);
      assert init + [z] == parts;
      SurroundSnoc(init, z, brk);
      FrameRegroup(brk, Join(init, brk + brk), z);
    }
  }

  /** Proof helper: the regrouping of a concatenation that SurroundJoin's inductive step needs. */
  lemma FrameRegroup(b: string, j: string, z: string)
    ensures b + j + b + b + z + b == b + (j + (b + b) + z) + b
  {
  }

  // ----- strip -----

  /** Leading whitespace makes no difference to `lstrip`. */
  lemma {:induction false} TrimStartSkips(w: string, x: string)
    requires forall i :: 0 <= i < |w| ==> IsSpace(w[i])
    ensures TrimStart(w + x) == TrimStart(x)
    decreases |w|
  {
    if w != [] {
      var s := w + x;
      assert s[0] == w[0] && IsSpace(s[0]);
      assert s[1..] == w[1..] + x;
      assert TrimStart(s) == TrimStart(s[1..]);
      TrimStartSkips(w[1..], x);
    } else {
      assert w + x == x;
    }
  }

  /** Trailing whitespace makes no difference to `rstrip`. */
  lemma {:induction false} TrimEndSkips(x: string, w: string)
    requires forall i :: 0 <= i < |w| ==> IsSpace(w[i])
    ensures TrimEnd(x + w) == TrimEnd(x)
    decreases |w|
  {
    if w != [] {
      var s := x + w;
      assert s[|s| - 1] == w[|w| - 1] && IsSpace(s[|s| - 1]);
      assert s[..|s| - 1] == x + w[..|w| - 1];
      assert TrimEnd(s) == TrimEnd(s[..|s| - 1]);
      TrimEndSkips(x, w[..|w| - 1]);
    } else {
      assert x + w == x;
    }
  }

  /** Stripping text framed by whitespace, whose own ends are not whitespace, leaves that text. */
  lemma StripFramed(w1: string, x: string, w2: string)
    requires forall i :: 0 <= i < |w1| ==> IsSpace(w1[i])
    requires forall i :: 0 <= i < |w2| ==> IsSpace(w2[i])
    requires x != [] && !IsSpace(x[0]) && !IsSpace(x[|x| - 1])
    ensures Strip(w1 + x + w2) == x
  {
    assert w1 + x + w2 == w1 + (x + w2);
    TrimStartSkips(w1, x + w2);
    TrimEndSkips(x, w2);
  }
}
