// Shared vocabulary: optional values, results, case-insensitive names, and the
// two sequence edits every controller performs on its resource lists.

module Wrappers {
  datatype Option<+T> = None | Some(value: T)

  datatype Result<+T, +E> = Ok(value: T) | Err(error: E)
}

/** Azure resource names compare case-insensitively (strings.EqualFold on ASCII). */
module Names {
  function LowerChar(c: char): char {
    if 'A' <= c <= 'Z' then (c as int + 32) as char else c
  }

  function Fold(s: string): string {
    seq(|s|, i requires 0 <= i < |s| => LowerChar(s[i]))
  }

  predicate EqualFold(a: string, b: string) {
    Fold(a) == Fold(b)
  }

  /** The names of a resource list, as keys that ignore case. */
  function Keys(names: seq<string>): set<string> {
    set i | 0 <= i < |names| :: Fold(names[i])
  }

  ghost predicate Distinct(names: seq<string>) {
    forall i, j :: 0 <= i < j < |names| ==> Fold(names[i]) != Fold(names[j])
  }

  lemma FoldAppend(a: string, b: string)
    ensures Fold(a + b) == Fold(a) + Fold(b)
  {
  }
}

module Sequences {
  /** Index of the first element satisfying `p`, or |s| when there is none. */
  function FirstIndex<T>(s: seq<T>, p: T -> bool): (i: nat)
    ensures i <= |s|
    ensures i < |s| ==> p(s[i])
    ensures forall j :: 0 <= j < i ==> !p(s[j])
  {
    if s == [] then 0
    else if p(s[0]) then 0
    else
      var k := FirstIndex(s[1..], p);
      assert forall j :: 1 <= j < 1 + k ==> s[j] == s[1..][j - 1];
      1 + k
  }

  lemma FirstIs<T>(s: seq<T>, p: T -> bool, i: nat)
    requires i < |s| && p(s[i])
    requires forall j :: 0 <= j < i ==> !p(s[j])
    ensures FirstIndex(s, p) == i
  {
  }

  /** The list without its element `i`; unchanged when `i` is the length. */
  function RemoveAt<T>(s: seq<T>, i: nat): (r: seq<T>)
    requires i <= |s|
    ensures i < |s| ==> |r| == |s| - 1
    ensures i == |s| ==> r == s
    ensures forall j :: 0 <= j < i ==> r[j] == s[j]
    ensures forall j :: i <= j < |r| && i < |s| ==> r[j] == s[j + 1]
  {
    if i == |s| then s else s[..i] + s[i + 1..]
  }

  /** The elements of `s` that do not satisfy `p`, in order. */
  function Without<T>(s: seq<T>, p: T -> bool): seq<T> {
    if s == [] then []
    else if p(s[0]) then Without(s[1..], p)
    else [s[0]] + Without(s[1..], p)
  }

  lemma {:induction false} WithoutAppend<T>(a: seq<T>, b: seq<T>, p: T -> bool)
    ensures Without(a + b, p) == Without(a, p) + Without(b, p)
  {
    if a == [] {
      assert a + b == b;
    } else {
      WithoutAppend(a[1..], b, p);
      assert (a + b)[0] == a[0] && (a + b)[1..] == a[1..] + b;
    }
  }

  lemma {:induction false} WithoutNone<T>(s: seq<T>, p: T -> bool)
    requires forall i :: 0 <= i < |s| ==> !p(s[i])
    ensures Without(s, p) == s
  {
    if s != [] {
      WithoutNone(s[1..], p);
    }
  }

  lemma WithoutStep<T>(s: seq<T>, i: nat, p: T -> bool)
    requires i < |s|
    ensures Without(s[i..], p) == if p(s[i]) then Without(s[i + 1..], p) else [s[i]] + Without(s[i + 1..], p)
  {
  }

  /** Filtering a list with a single match removes just that match. */
  lemma {:induction false} WithoutSingle<T>(s: seq<T>, p: T -> bool)
    requires forall i, j :: 0 <= i < j < |s| ==> !(p(s[i]) && p(s[j]))
    ensures Without(s, p) == RemoveAt(s, FirstIndex(s, p))
  {
    if s != [] {
      var rest := s[1..];
      assert forall i :: 0 <= i < |rest| ==> rest[i] == s[i + 1];
      if p(s[0]) {
        WithoutNone(rest, p);
      } else {
        WithoutSingle(rest, p);
        assert RemoveAt(s, FirstIndex(s, p)) == [s[0]] + RemoveAt(rest, FirstIndex(rest, p));
      }
    }
  }
}
