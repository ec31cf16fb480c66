/**
 * The few pieces of Python string behaviour the application depends on:
 * `str.lower`, `str.replace`, `str.split()` (no argument), `str.split(",")`,
 * `",".join(...)` and the substring test `t in s`.
 */
module Text {

  /** The characters for which Python's `str.isspace()` holds. */
  predicate IsSpace(c: char)
  {
    c == ' ' || c == '\t' || c == '\n' || c == '\r' || c == '\U{B}' || c == '\U{C}'
    || ('\U{1C}' <= c <= '\U{1F}') || c == '\U{85}' || c == '\U{A0}' || c == '\U{1680}'
    || ('\U{2000}' <= c <= '\U{200A}') || c == '\U{2028}' || c == '\U{2029}' || c == '\U{202F}'
    || c == '\U{205F}' || c == '\U{3000}'
  }

  predicate NoSpace(w: string)
  {
    forall i :: 0 <= i < |w| ==> !IsSpace(w[i])
  }

  /** Lower-casing of one character; only the ASCII letters are mapped. */
  function LowerChar(c: char): char
  {
    if 'A' <= c <= 'Z' then (c as int + 32) as char else c
  }

  function Lower(s: string): (r: string)
    ensures |r| == |s|
  {
    seq(|s|, i requires 0 <= i < |s| => LowerChar(s[i]))
  }

  /** `s.replace(from, to)` for single characters. */
  function ReplaceChar(s: string, from: char, to: char): (r: string)
    ensures |r| == |s|
  {
    seq(|s|, i requires 0 <= i < |s| => if s[i] == from then to else s[i])
  }

  lemma LowerAppend(a: string, b: string)
    ensures Lower(a + b) == Lower(a) + Lower(b)
  {
  }

  lemma ReplaceCharAppend(a: string, b: string, from: char, to: char)
    ensures ReplaceChar(a + b, from, to) == ReplaceChar(a, from, to) + ReplaceChar(b, from, to)
  {
  }

  /** Length of the run of non-space characters at the start of `s`. */
  function WordLength(s: string): (n: nat)
    ensures n <= |s|
    ensures NoSpace(s[..n])
    ensures n < |s| ==> IsSpace(s[n])
    ensures s != [] && !IsSpace(s[0]) ==> n > 0
  {
    if s == [] || IsSpace(s[0]) then 0
    else
      var n := 1 + WordLength(s[1..]);
      assert s[..n] == [s[0]] + s[1..][..n - 1];
      n
  }

  /** `s.split()`: the maximal runs of non-space characters, in order. */
  function Split(s: string): (words: seq<string>)
    ensures forall w :: w in words ==> w != [] && NoSpace(w)
    ensures forall w, c :: w in words && c in w ==> c in s
    decreases |s|
  {
    if s == [] then []
    else if IsSpace(s[0]) then Split(s[1..])
    else
      var n := WordLength(s);
      [s[..n]] + Split(s[n..])
  }

  /** A space character separates words: splitting around it splits each side on its own. */
  lemma {:induction false} SplitAtSpace(a: string, c: char, b: string)
    requires IsSpace(c)
    ensures Split(a + [c] + b) == Split(a) + Split(b)
    decreases |a|, 1
  {
    var s := a + [c] + b;
    if a == [] {
      assert s[1..] == b;
    } else if IsSpace(a[0]) {
      SplitAtSpaceSkip(a, c, b);
    } else {
      SplitAtSpaceWord(a, c, b);
    }
  }

  lemma {:induction false} SplitAtSpaceSkip(a: string, c: char, b: string)
    requires IsSpace(c) && a != [] && IsSpace(a[0])
    ensures Split(a + [c] + b) == Split(a) + Split(b)
    decreases |a|, 0
  {
    var s := a + [c] + b;
    assert s[0] == a[0];
    assert s[1..] == a[1..] + [c] + b;
    SplitAtSpace(a[1..], c, b);
  }

  lemma {:induction false} SplitAtSpaceWord(a: string, c: char, b: string)
    requires IsSpace(c) && a != [] && !IsSpace(a[0])
    ensures Split(a + [c] + b) == Split(a) + Split(b)
    decreases |a|, 0
  {
    var s := a + [c] + b;
    var n := WordLength(a);
    WordLengthPrefix(a, [c] + b);
    assert s == a + ([c] + b);
    assert s[0] == a[0];
    assert s[..n] == a[..n];
    assert s[n..] == a[n..] + [c] + b;
    SplitAtSpace(a[n..], c, b);
  }

  /** The first word of `a` is not lengthened by what follows a space. */
  lemma {:induction false} WordLengthPrefix(a: string, rest: string)
    requires rest != [] && IsSpace(rest[0])
    ensures WordLength(a + rest) == WordLength(a)
    decreases |a|
  {
    if a != [] && !IsSpace(a[0]) {
      assert (a + rest)[1..] == a[1..] + rest;
      WordLengthPrefix(a[1..], rest);
    } else if a == [] {
      assert a + rest == rest;
    }
  }

  /** A single word splits into itself. */
  lemma {:induction false} SplitWord(w: string)
    requires w != [] && NoSpace(w)
    ensures Split(w) == [w]
  {
    WordLengthAll(w);
    assert w[..|w|] == w;
    assert w[|w|..] == [];
  }

  lemma {:induction false} WordLengthAll(w: string)
    requires NoSpace(w)
    ensures WordLength(w) == |w|
    decreases |w|
  {
    if w != [] {
      assert NoSpace(w[1..]) by {
        forall i | 0 <= i < |w[1..]| ensures !IsSpace(w[1..][i]) { assert w[1..][i] == w[i + 1]; }
      }
      WordLengthAll(w[1..]);
    }
  }

  /** A run of `k > 0` non-space characters at position `i` lies inside a word of `s.split()` at least `k` long. */
  lemma {:induction false} RunGivesWord(s: string, i: nat, k: nat)
    requires 0 < k && i + k <= |s|
    requires forall j :: i <= j < i + k ==> !IsSpace(s[j])
    ensures exists w :: w in Split(s) && |w| >= k
    decreases |s|
  {
    if IsSpace(s[0]) {
      forall j | i - 1 <= j < i - 1 + k ensures !IsSpace(s[1..][j]) {
        assert s[1..][j] == s[j + 1];
      }
      RunGivesWord(s[1..], i - 1, k);
    } else {
      var n := WordLength(s);
      if i < n {
        assert n == |s| || IsSpace(s[n]);
        assert n >= i + k;
        assert s[..n] in Split(s);
      } else {
        forall j | i - n <= j < i - n + k ensures !IsSpace(s[n..][j]) {
          assert s[n..][j] == s[j + n];
        }
        RunGivesWord(s[n..], i - n, k);
        var w :| w in Split(s[n..]) && |w| >= k;
        assert w in Split(s);
      }
    }
  }

  predicate IsPrefix(t: string, s: string)
  {
    |t| <= |s| && s[..|t|] == t
  }

  /** Python's `t in s` on strings. */
  predicate Contains(s: string, t: string)
    decreases |s|
  {
    IsPrefix(t, s) || (s != [] && Contains(s[1..], t))
  }

  /** `t` occurs in `s` starting at position `i`. */
  predicate OccursAt(s: string, t: string, i: int)
  {
    0 <= i <= |s| - |t| && s[i..i + |t|] == t
  }

  /** `t` placed between `a` and `b` occurs right after `a`. */
  lemma Framed(a: string, t: string, b: string)
    ensures IsPrefix(a, a + t + b) && OccursAt(a + t + b, t, |a|)
  {
    assert (a + t + b)[..|a|] == a;
    assert (a + t + b)[|a|..|a| + |t|] == t;
  }

  /** `t` placed after `a` and `b` and before `c` is contained in the whole. */
  lemma FramedContains(a: string, b: string, t: string, c: string)
    ensures Contains(a + (b + t + c), t)
  {
    var s := a + (b + t + c);
    assert s == (a + b) + t + c;
    Framed(a + b, t, c);
    ContainsAt(s, t);
  }

  /** `t in s` holds exactly when `t` occurs at some position of `s`. */
  lemma {:induction false} ContainsAt(s: string, t: string)
    ensures Contains(s, t) <==> exists i :: OccursAt(s, t, i)
    decreases |s|
  {
    if IsPrefix(t, s) {
      assert OccursAt(s, t, 0);
    } else if s == [] {
    } else {
      ContainsAt(s[1..], t);
      if exists i :: OccursAt(s, t, i) {
        var i :| OccursAt(s, t, i);
        assert i != 0;
        assert OccursAt(s[1..], t, i - 1);
      }
      if exists i :: OccursAt(s[1..], t, i) {
        var i :| OccursAt(s[1..], t, i);
        assert s[1..][i..i + |t|] == s[i + 1..i + 1 + |t|];
        assert OccursAt(s, t, i + 1);
      }
    }
  }

  /** `sep.join(parts)` for a one-character separator. */
  function Join(parts: seq<string>, sep: char): string
  {
    if parts == [] then []
    else if |parts| == 1 then parts[0]
    else parts[0] + [sep] + Join(parts[1..], sep)
  }

  /** The non-empty strings of `parts`, in order. */
  function NonEmpty(parts: seq<string>): (words: seq<string>)
    ensures forall w :: w in words <==> w in parts && w != []
  {
    if parts == [] then []
    else (if parts[0] == [] then [] else [parts[0]]) + NonEmpty(parts[1..])
  }

  /** `" ".join(parts).split()` drops the empty parts: runs of spaces separate like one space. */
  lemma {:induction false} SplitJoinSpaces(parts: seq<string>)
    requires forall p :: p in parts ==> NoSpace(p)
    ensures Split(Join(parts, ' ')) == NonEmpty(parts)
    decreases |parts|
  {
    if parts == [] {
    } else if |parts| == 1 {
      if parts[0] != [] { SplitWord(parts[0]); }
      assert NonEmpty(parts[1..]) == [];
    } else {
      assert forall p :: p in parts[1..] ==> p in parts;
      SplitJoinSpaces(parts[1..]);
      SplitAtSpace(parts[0], ' ', Join(parts[1..], ' '));
      if parts[0] != [] { SplitWord(parts[0]); }
    }
  }

  /** Index of the first `sep` in `s`, or `|s|` when there is none. */
  function IndexOf(s: string, sep: char): (n: nat)
    ensures n <= |s|
    ensures sep !in s[..n]
    ensures n < |s| ==> s[n] == sep
  {
    if s == [] || s[0] == sep then 0
    else
      var n := 1 + IndexOf(s[1..], sep);
      assert s[..n] == [s[0]] + s[1..][..n - 1];
      n
  }

  /** `s.split(sep)`: always at least one piece, empty pieces kept. */
  function SplitOn(s: string, sep: char): (parts: seq<string>)
    ensures |parts| >= 1
    decreases |s|
  {
    var n := IndexOf(s, sep);
    if n == |s| then [s] else [s[..n]] + SplitOn(s[n + 1..], sep)
  }

  lemma {:induction false} IndexOfNone(s: string, sep: char)
    requires sep !in s
    ensures IndexOf(s, sep) == |s|
    decreases |s|
  {
    if s != [] {
      assert sep !in s[1..];
      IndexOfNone(s[1..], sep);
    }
  }

  lemma {:induction false} IndexOfAfter(a: string, sep: char, b: string)
    requires sep !in a
    ensures IndexOf(a + [sep] + b, sep) == |a|
    decreases |a|
  {
    if a != [] {
      assert (a + [sep] + b)[1..] == a[1..] + [sep] + b;
      assert sep !in a[1..];
      IndexOfAfter(a[1..], sep, b);
    }
  }

  /** A separator right after a part without one ends that part. */
  lemma SplitOnAfter(a: string, sep: char, b: string)
    requires sep !in a
    ensures SplitOn(a + [sep] + b, sep) == [a] + SplitOn(b, sep)
  {
    var s := a + [sep] + b;
    IndexOfAfter(a, sep, b);
    assert s[..|a|] == a;
    assert s[|a| + 1..] == b;
  }

  /** Splitting a join gives back the parts, when no part holds the separator. */
  lemma {:induction false} SplitJoin(parts: seq<string>, sep: char)
    requires parts != []
    requires forall p :: p in parts ==> sep !in p
    ensures SplitOn(Join(parts, sep), sep) == parts
    decreases |parts|
  {
    if |parts| == 1 {
      IndexOfNone(parts[0], sep);
    } else {
      var rest := Join(parts[1..], sep);
      assert Join(parts, sep) == parts[0] + [sep] + rest;
      SplitOnAfter(parts[0], sep, rest);
      forall p | p in parts[1..] ensures sep !in p {
        var k :| 0 <= k < |parts[1..]| && parts[1..][k] == p;
        assert parts[k + 1] == p;
      }
      SplitJoin(parts[1..], sep);
      assert parts == [parts[0]] + parts[1..];
    }
  }
}
