/** Sequence helpers shared by the quiz store and the long-poll decoder:
    the first element satisfying a predicate (a `for` loop with an early
    `return`), the elements satisfying it in order (a loop that appends to
    a result list, or a filtering list comprehension), and the `join`/`split`
    pair on a separator character. */
module Seqs {
  import opened Wrappers

  /** The first element of `s` satisfying `p`, if any. */
  function First<T>(s: seq<T>, p: T -> bool): (r: Option<T>)
    ensures r.None? <==> forall i :: 0 <= i < |s| ==> !p(s[i])
    ensures r.Some? ==> exists i :: 0 <= i < |s| && s[i] == r.value && p(s[i]) && IsFirst(s, p, i)
  {
    if s == [] then None
    else if p(s[0]) then
      assert IsFirst(s, p, 0);
      Some(s[0])
    else
      var r := First(s[1..], p);
      assert r.Some? ==> exists i :: 0 <= i < |s| && s[i] == r.value && p(s[i]) && IsFirst(s, p, i) by {
        if r.Some? {
          var i :| 0 <= i < |s[1..]| && s[1..][i] == r.value && p(s[1..][i]) && IsFirst(s[1..], p, i);
          assert IsFirst(s, p, i + 1) by {
            forall j | 0 <= j < i + 1 ensures !p(s[j]) {
              if j > 0 { assert s[j] == s[1..][j - 1]; }
            }
          }
          assert s[i + 1] == s[1..][i];
        }
      }
      r
  }

  /** No element before index `i` satisfies `p`. */
  ghost predicate IsFirst<T>(s: seq<T>, p: T -> bool, i: int)
    requires 0 <= i <= |s|
  {
    forall j :: 0 <= j < i ==> !p(s[j])
  }

  /** A loop that stops at the first `i` with `p(s[i])` has found `First(s, p)`. */
  lemma FirstAt<T>(s: seq<T>, p: T -> bool, i: int)
    requires 0 <= i < |s| && p(s[i]) && IsFirst(s, p, i)
    ensures First(s, p) == Some(s[i])
  {
    var r := First(s, p);
    var k :| 0 <= k < |s| && s[k] == r.value && p(s[k]) && IsFirst(s, p, k);
    assert k == i;
  }

  /** The elements of `s` satisfying `p`, in their order in `s`. */
  function Filter<T>(s: seq<T>, p: T -> bool): (r: seq<T>)
    ensures |r| <= |s|
    ensures forall x :: x in r ==> x in s && p(x)
    ensures forall x :: x in s && p(x) ==> x in r
  {
    if s == [] then []
    else
      var init := s[..|s| - 1];
      var last := s[|s| - 1];
      assert s == init + [last];
      var r := Filter(init, p) + (if p(last) then [last] else []);
      assert forall x :: x in s ==> x in init || x == last;
      r
  }

  /** The indices of `s` whose elements satisfy `p`, in increasing order. */
  function MatchingIndices<T>(s: seq<T>, p: T -> bool): (r: seq<int>)
    ensures forall k :: 0 <= k < |r| ==> 0 <= r[k] < |s|
  {
    if s == [] then []
    else MatchingIndices(s[..|s| - 1], p) + (if p(s[|s| - 1]) then [|s| - 1] else [])
  }

  /** `r` is the sequence `s[idx[0]], s[idx[1]], ...` for strictly increasing
      indices `idx`: `r` is a subsequence of `s`, taken in order. */
  ghost predicate SelectedAt<T>(r: seq<T>, s: seq<T>, idx: seq<int>)
  {
    && |idx| == |r|
    && (forall k :: 0 <= k < |idx| ==> 0 <= idx[k] < |s| && r[k] == s[idx[k]])
    && (forall k, l :: 0 <= k < l < |idx| ==> idx[k] < idx[l])
  }

  /** `Filter(s, p)` is the subsequence of `s` at exactly the indices whose
      elements satisfy `p`. */
  lemma {:induction false} FilterSelects<T>(s: seq<T>, p: T -> bool)
    ensures SelectedAt(Filter(s, p), s, MatchingIndices(s, p))
    ensures forall i :: 0 <= i < |s| ==> (p(s[i]) <==> i in MatchingIndices(s, p))
  {
    if s != [] {
      var n := |s| - 1;
      var init := s[..n];
      FilterSelects(init, p);
      var idx0 := MatchingIndices(init, p);
      var idx := MatchingIndices(s, p);
      var r := Filter(s, p);
      assert idx == idx0 + (if p(s[n]) then [n] else []);
      assert r == Filter(init, p) + (if p(s[n]) then [s[n]] else []);
      forall k | 0 <= k < |idx| ensures 0 <= idx[k] < |s| && r[k] == s[idx[k]] {
        if k < |idx0| {
          assert r[k] == Filter(init, p)[k];
        }
      }
      assert n !in idx0;
    }
  }

  /** Python's `sep.join(parts)` for a one-character separator: every
      character of every part appears, and nothing else but the separator. */
  function Join(parts: seq<string>, sep: char): (r: string)
    ensures forall k, c :: 0 <= k < |parts| && c in parts[k] ==> c in r
    ensures forall c :: c in r ==> c == sep || exists k :: 0 <= k < |parts| && c in parts[k]
  {
    if parts == [] then ""
    else if |parts| == 1 then parts[0]
    else parts[0] + [sep] + Join(parts[1..], sep)
  }

  /** Python's `s.split(sep)` for a one-character separator: always at least
      one piece, and no piece contains `sep`. */
  function Split(s: string, sep: char): (r: seq<string>)
    ensures |r| >= 1
    ensures forall k :: 0 <= k < |r| ==> sep !in r[k]
  {
    if s == [] then [""]
    else
      var rest := Split(s[1..], sep);
      if s[0] == sep then [""] + rest
      else [[s[0]] + rest[0]] + rest[1..]
  }

  /** Splitting a piece free of `sep` followed by `sep` and more text
      yields that piece and then the pieces of the rest. */
  lemma {:induction false} SplitPiece(piece: string, sep: char, rest: string)
    requires sep !in piece
    ensures Split(piece + [sep] + rest, sep) == [piece] + Split(rest, sep)
    ensures Split(piece, sep) == [piece]
  {
    if piece != [] {
      SplitPiece(piece[1..], sep, rest);
      assert (piece + [sep] + rest)[1..] == piece[1..] + [sep] + rest;
      assert piece == [piece[0]] + piece[1..];
    } else {
      assert piece + [sep] + rest == [sep] + rest;
    }
  }

  /** `Split` undoes `Join` when no part contains the separator. */
  lemma {:induction false} SplitJoin(parts: seq<string>, sep: char)
    requires |parts| >= 1
    requires forall k :: 0 <= k < |parts| ==> sep !in parts[k]
    ensures Split(Join(parts, sep), sep) == parts
  {
    if |parts| == 1 {
      SplitPiece(parts[0], sep, "");
    } else {
      SplitJoin(parts[1..], sep);
      SplitPiece(parts[0], sep, Join(parts[1..], sep));
      assert parts == [parts[0]] + parts[1..];
    }
  }
}
