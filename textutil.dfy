/** The string operations of Python's `str` that the services rely on:
    `lower`, the `in` substring test, `startswith`, `strip`, `split` and `find`. */
module TextUtil {

  /** The Kelvin sign, which Python lower-cases to the ASCII letter 'k'. */
  const KelvinSign: char := '\U{212A}'

  /** `c.lower()` for one character: the ASCII letters A-Z and the Kelvin sign are folded;
      every other character is kept. */
  function LowerChar(c: char): (r: char)
    ensures 'A' <= c <= 'Z' ==> 'a' <= r <= 'z' && r as int == c as int + 32
    ensures c == KelvinSign ==> r == 'k'
    ensures !('A' <= c <= 'Z') && c != KelvinSign ==> r == c
  {
    if 'A' <= c <= 'Z' then (c as int + 32) as char
    else if c == KelvinSign then 'k'
    else c
  }

  /** `s.lower()`, character by character. */
  function Lower(s: string): (r: string)
    ensures |r| == |s|
    ensures forall i {:trigger r[i]} | 0 <= i < |s| :: r[i] == LowerChar(s[i])
  {
    seq(|s|, i requires 0 <= i < |s| => LowerChar(s[i]))
  }

  lemma LowerAppend(s: string, t: string)
    ensures Lower(s + t) == Lower(s) + Lower(t)
  {
    assert forall i | 0 <= i < |s + t| :: Lower(s + t)[i] == (Lower(s) + Lower(t))[i];
  }

  /** Lowering twice is lowering once. */
  lemma LowerIdempotent(s: string)
    ensures Lower(Lower(s)) == Lower(s)
  {
  }

  /** `k` occurs in `s` starting at index `i`. */
  predicate OccursAt(s: string, k: string, i: int)
  {
    0 <= i && i + |k| <= |s| && s[i..i + |k|] == k
  }

  /** Python's `k in s`. */
  predicate Contains(s: string, k: string)
  {
    exists i | 0 <= i <= |s| - |k| :: OccursAt(s, k, i)
  }

  /** Python's `s.startswith(p)`. */
  predicate StartsWith(s: string, p: string)
  {
    |p| <= |s| && s[..|p|] == p
  }

  lemma ContainsInLeft(s: string, t: string, k: string)
    requires Contains(s, k)
    ensures Contains(s + t, k)
  {
    var i :| 0 <= i <= |s| - |k| && OccursAt(s, k, i);
    assert (s + t)[i..i + |k|] == s[i..i + |k|];
    assert OccursAt(s + t, k, i);
  }

  lemma ContainsInRight(s: string, t: string, k: string)
    requires Contains(t, k)
    ensures Contains(s + t, k)
  {
    var i :| 0 <= i <= |t| - |k| && OccursAt(t, k, i);
    assert (s + t)[|s| + i..|s| + i + |k|] == t[i..i + |k|];
    assert OccursAt(s + t, k, |s| + i);
  }

  /** A keyword holding a character that the text lacks does not occur in it. */
  lemma AbsentChar(s: string, k: string, j: nat)
    requires j < |k| && k[j] !in s
    ensures !Contains(s, k)
  {
    forall i | 0 <= i <= |s| - |k| ensures !OccursAt(s, k, i) {
      assert s[i..i + |k|][j] == s[i + j] != k[j];
    }
  }

  /** No two consecutive characters of `s` are `a` then `b`. */
  predicate NoPair(s: string, a: char, b: char)
  {
    forall i | 0 <= i < |s| - 1 :: !(s[i] == a && s[i + 1] == b)
  }

  /** A pair absent from both halves and from their junction is absent from the whole. */
  lemma NoPairAppend(s: string, t: string, a: char, b: char)
    requires NoPair(s, a, b) && NoPair(t, a, b)
    requires s == [] || t == [] || !(s[|s| - 1] == a && t[0] == b)
    ensures NoPair(s + t, a, b)
  {
    var st := s + t;
    forall i | 0 <= i < |st| - 1 ensures !(st[i] == a && st[i + 1] == b) {
      if i + 1 < |s| {
        assert st[i] == s[i] && st[i + 1] == s[i + 1];
      } else if i >= |s| {
        assert st[i] == t[i - |s|] && st[i + 1] == t[i - |s| + 1];
      }
    }
  }

  /** `u` is a contiguous piece of `s`. */
  predicate IsSlice(u: string, s: string)
  {
    exists i, j | 0 <= i <= j <= |s| :: u == s[i..j]
  }

  /** A piece of a piece of `s` is a piece of `s`. */
  lemma SliceOfSlice(u: string, t: string, s: string)
    requires IsSlice(u, t) && IsSlice(t, s)
    ensures IsSlice(u, s)
  {
    var a, b :| 0 <= a <= b <= |t| && u == t[a..b];
    var c, d :| 0 <= c <= d <= |s| && t == s[c..d];
    assert |u| == b - a;
    forall k | 0 <= k < b - a ensures u[k] == s[c + a + k] {
      assert u[k] == t[a + k];
    }
    assert u == s[c + a..c + b];
  }

  /** A character that nothing lower-cases to is absent from the lower-cased text. */
  lemma AbsentAfterLower(s: string, c: char)
    requires forall x | x in s :: LowerChar(x) != c
    ensures c !in Lower(s)
  {
  }

  /** A keyword holding the pair `k[j] k[j+1]` does not occur in a text without that pair. */
  lemma AbsentPair(s: string, k: string, j: nat)
    requires j + 1 < |k| && NoPair(s, k[j], k[j + 1])
    ensures !Contains(s, k)
  {
    forall i | 0 <= i <= |s| - |k| ensures !OccursAt(s, k, i) {
      assert s[i..i + |k|][j] == s[i + j] && s[i..i + |k|][j + 1] == s[i + j + 1];
    }
  }

  /** The empty text contains no non-empty keyword. */
  lemma NothingInEmpty(k: string)
    requires |k| > 0
    ensures !Contains("", k)
  {
  }

  /** The characters Python's `str.isspace` accepts. */
  predicate IsSpace(c: char)
  {
    c == ' ' || '\t' <= c <= '\r' || '\U{1C}' <= c <= '\U{1F}' || c == '\U{85}' || c == '\U{A0}'
    || c == '\U{1680}' || '\U{2000}' <= c <= '\U{200A}' || c == '\U{2028}' || c == '\U{2029}'
    || c == '\U{202F}' || c == '\U{205F}' || c == '\U{3000}'
  }

  /** `s.lstrip()`: drops the leading white space. */
  function TrimStart(s: string): (r: string)
    ensures |r| <= |s| && r == s[|s| - |r|..]
    ensures forall i | 0 <= i < |s| - |r| :: IsSpace(s[i])
    ensures r == [] || !IsSpace(r[0])
  {
    if s != [] && IsSpace(s[0]) then TrimStart(s[1..]) else s
  }

  /** `s.rstrip()`: drops the trailing white space. */
  function TrimEnd(s: string): (r: string)
    ensures |r| <= |s| && r == s[..|r|]
    ensures forall i | |r| <= i < |s| :: IsSpace(s[i])
    ensures r == [] || !IsSpace(r[|r| - 1])
  {
    if s != [] && IsSpace(s[|s| - 1]) then TrimEnd(s[..|s| - 1]) else s
  }

  /** `s.strip()`: the slice of `s` left once the white space at both ends is gone. */
  function Strip(s: string): (r: string)
    ensures exists i, j | 0 <= i <= j <= |s| ::
      (r == s[i..j] && (forall k | 0 <= k < i :: IsSpace(s[k])) && (forall k | j <= k < |s| :: IsSpace(s[k])))
    ensures r == [] || (!IsSpace(r[0]) && !IsSpace(r[|r| - 1]))
  {
    var t := TrimStart(s);
    var r := TrimEnd(t);
    assert r == s[|s| - |t|..|s| - |t| + |r|];
    r
  }

  lemma StripIsSlice(s: string)
    ensures IsSlice(Strip(s), s)
  {
  }

  /** A stripped text is its own strip. */
  lemma StripIdempotent(s: string)
    ensures Strip(Strip(s)) == Strip(s)
  {
    var r := Strip(s);
    assert TrimStart(r) == r;
    assert TrimEnd(r) == r;
  }

  /** Python's `s.find(k)`: the least index where `k` occurs, or -1 (see FindCorrect). */
  function Find(s: string, k: string): (r: int)
    ensures r == -1 || (0 <= r && r + |k| <= |s|)
  {
    FindFrom(s, k, 0)
  }

  function FindFrom(s: string, k: string, from: nat): (r: int)
    ensures r == -1 || (from <= r && r + |k| <= |s|)
    decreases |s| - from
  {
    if from + |k| > |s| then -1
    else if s[from..from + |k|] == k then from
    else FindFrom(s, k, from + 1)
  }

  lemma {:induction false} FindFromCorrect(s: string, k: string, from: nat)
    requires forall j | 0 <= j < from :: !OccursAt(s, k, j)
    ensures var r := FindFrom(s, k, from);
      (r == -1 <==> !Contains(s, k))
      && (r != -1 ==> OccursAt(s, k, r) && forall j | 0 <= j < r :: !OccursAt(s, k, j))
    decreases |s| - from
  {
    if from + |k| > |s| {
      forall j | 0 <= j <= |s| - |k| ensures !OccursAt(s, k, j) {
      }
    } else if s[from..from + |k|] == k {
      assert OccursAt(s, k, from);
    } else {
      FindFromCorrect(s, k, from + 1);
    }
  }

  /** `s.find(k)` is -1 exactly when `k` does not occur, and otherwise the first place it occurs. */
  lemma FindCorrect(s: string, k: string)
    ensures Find(s, k) == -1 <==> !Contains(s, k)
    ensures Find(s, k) != -1 ==> OccursAt(s, k, Find(s, k)) && forall j | 0 <= j < Find(s, k) :: !OccursAt(s, k, j)
  {
    FindFromCorrect(s, k, 0);
  }

  lemma FindOccurs(s: string, k: string)
    ensures Find(s, k) != -1 ==> OccursAt(s, k, Find(s, k))
  {
    FindCorrect(s, k);
  }

  /** Joins the pieces with `sep` between consecutive ones, Python's `sep.join(pieces)`. */
  function Join(pieces: seq<string>, sep: string): string
  {
    if |pieces| == 0 then ""
    else if |pieces| == 1 then pieces[0]
    else pieces[0] + sep + Join(pieces[1..], sep)
  }

  /** Python's `s.split(sep)`: cuts `s` at each occurrence of `sep`, scanning left to right. */
  function Split(s: string, sep: string): (r: seq<string>)
    requires |sep| > 0
    ensures |r| >= 1
    decreases |s|
  {
    var i := Find(s, sep);
    if i == -1 then [s] else [s[..i]] + Split(s[i + |sep|..], sep)
  }

  /** Splitting and joining back with the same separator gives the text back. */
  lemma {:induction false} SplitJoin(s: string, sep: string)
    requires |sep| > 0
    ensures Join(Split(s, sep), sep) == s
    decreases |s|
  {
    var i := Find(s, sep);
    if i != -1 {
      var rest := s[i + |sep|..];
      SplitJoin(rest, sep);
      FindOccurs(s, sep);
      var tail := Split(rest, sep);
      var r := [s[..i]] + tail;
      assert Split(s, sep) == r;
      assert r[0] == s[..i] && r[1..] == tail && |r| >= 2;
      assert Join(r, sep) == s[..i] + sep + rest;
      assert s[i..i + |sep|] == sep;
      assert s == s[..i] + s[i..i + |sep|] + rest;
    }
  }

  /** `s.split(sep)[0]`: the text before the first occurrence of `sep`, or all of it. */
  lemma SplitFirst(s: string, sep: string)
    requires |sep| > 0
    ensures var f := Split(s, sep)[0];
      StartsWith(s, f)
      && (Contains(s, sep) ==> OccursAt(s, sep, |f|) && forall j | 0 <= j < |f| :: !OccursAt(s, sep, j))
      && (!Contains(s, sep) ==> f == s)
      && !Contains(f, sep)
  {
    FindCorrect(s, sep);
    var f := Split(s, sep)[0];
    forall j | 0 <= j <= |f| - |sep| ensures !OccursAt(f, sep, j) {
      assert f[j..j + |sep|] == s[j..j + |sep|];
      assert !OccursAt(s, sep, j);
    }
  }

  /** `s.split(sep)[-1]`. */
  function LastPiece(s: string, sep: string): string
    requires |sep| > 0
  {
    var r := Split(s, sep);
    r[|r| - 1]
  }

  /** Past the first occurrence of `sep`, the last piece is that of the rest of the text. */
  lemma LastPieceStep(s: string, sep: string)
    requires |sep| > 0 && Find(s, sep) != -1
    ensures LastPiece(s, sep) == LastPiece(s[Find(s, sep) + |sep|..], sep)
  {
    var i := Find(s, sep);
    var tail := Split(s[i + |sep|..], sep);
    assert Split(s, sep) == [s[..i]] + tail;
  }

  /** The last piece of `s.split(sep)` is a tail of `s`. */
  lemma {:induction false} LastPieceIsTail(s: string, sep: string)
    requires |sep| > 0
    ensures |LastPiece(s, sep)| <= |s| && LastPiece(s, sep) == s[|s| - |LastPiece(s, sep)|..]
    decreases |s|
  {
    var i := Find(s, sep);
    if i != -1 {
      var rest := s[i + |sep|..];
      LastPieceIsTail(rest, sep);
      LastPieceStep(s, sep);
      var l := LastPiece(rest, sep);
      assert s[|s| - |l|..] == rest[|rest| - |l|..];
    }
  }

  /** The last piece of `s.split(sep)` holds no `sep`. */
  lemma {:induction false} LastPieceLacksSep(s: string, sep: string)
    requires |sep| > 0
    ensures Find(LastPiece(s, sep), sep) == -1
    decreases |s|
  {
    var i := Find(s, sep);
    if i != -1 {
      LastPieceLacksSep(s[i + |sep|..], sep);
      LastPieceStep(s, sep);
    }
  }

  /** An occurrence in `s` at or after `d` is an occurrence in the tail `s[d..]`, shifted. */
  lemma OccursFromTail(s: string, k: string, d: nat, q: int)
    requires d <= q && OccursAt(s, k, q)
    ensures OccursAt(s[d..], k, q - d)
  {
    assert s[d..][q - d..q - d + |k|] == s[q..q + |k|];
  }

  /** An occurrence in a tail of `s` is an occurrence in `s`, shifted. */
  lemma OccursInTail(s: string, k: string, d: nat, q: int)
    requires d <= |s| && OccursAt(s[d..], k, q)
    ensures OccursAt(s, k, d + q)
  {
    assert s[d + q..d + q + |k|] == s[d..][q..q + |k|];
  }

  /** When `sep` occurs in `s`, the last piece of `s.split(sep)` comes right after an occurrence. */
  lemma {:induction false} LastPieceAfterSep(s: string, sep: string)
    requires |sep| > 0 && Find(s, sep) != -1
    ensures |LastPiece(s, sep)| + |sep| <= |s|
    ensures OccursAt(s, sep, |s| - |LastPiece(s, sep)| - |sep|)
    decreases |s|
  {
    var i := Find(s, sep);
    var d := i + |sep|;
    var rest := s[d..];
    LastPieceStep(s, sep);
    LastPieceIsTail(rest, sep);
    var l := LastPiece(rest, sep);
    if Find(rest, sep) != -1 {
      LastPieceAfterSep(rest, sep);
      OccursInTail(s, sep, d, |rest| - |l| - |sep|);
    } else {
      assert Split(rest, sep) == [rest];
      FindOccurs(s, sep);
    }
  }

  /** `s.split(sep)[-1]`: a tail of `s` holding no `sep`, right after an occurrence of `sep` when there is one. */
  lemma SplitLast(s: string, sep: string)
    requires |sep| > 0
    ensures var l := LastPiece(s, sep);
      |l| <= |s| && l == s[|s| - |l|..] && !Contains(l, sep)
      && (Contains(s, sep) ==> |l| + |sep| <= |s| && OccursAt(s, sep, |s| - |l| - |sep|))
      && (!Contains(s, sep) ==> l == s)
  {
    LastPieceIsTail(s, sep);
    LastPieceLacksSep(s, sep);
    FindCorrect(s, sep);
    FindCorrect(LastPiece(s, sep), sep);
    if Find(s, sep) != -1 {
      LastPieceAfterSep(s, sep);
    }
  }
}
