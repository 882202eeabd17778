/** Datatypes and sequence facts the other modules share. */
module Basics {

  datatype Option<+T> = None | Some(value: T)

  function Max(a: nat, b: nat): nat { if a < b then b else a }

  /** `a` is `b` with some elements left out, order kept. */
  ghost predicate IsSub<T(!new)>(a: seq<T>, b: seq<T>)
  {
    a == [] ||
    (b != [] &&
     ((a[|a| - 1] == b[|b| - 1] && IsSub(a[..|a| - 1], b[..|b| - 1])) || IsSub(a, b[..|b| - 1])))
  }

  lemma Regroup<T>(a: seq<T>, b: seq<T>, c: seq<T>)
    ensures a + (b + c) == (a + b) + c
  {
  }

  /** Appending to the longer sequence keeps the relation. */
  lemma IsSubGrow<T(!new)>(a: seq<T>, b: seq<T>, x: T)
    requires IsSub(a, b)
    ensures IsSub(a, b + [x])
    ensures IsSub(a + [x], b + [x])
  {
    assert (b + [x])[..|b|] == b && (a + [x])[..|a|] == a;
  }

  /** Cutting a middle piece out of the shorter sequence keeps the relation. */
  lemma {:induction false} IsSubCut<T(!new)>(a: seq<T>, m: seq<T>, c: seq<T>, b: seq<T>)
    requires IsSub(a + m + c, b)
    ensures IsSub(a + c, b)
    decreases |b|, |m|
  {
    var w := a + m + c;
    if a + c == [] {
    } else if m == [] {
      assert w == a + c;
    } else {
      var b' := b[..|b| - 1];
      if IsSub(w, b') {
        IsSubCut(a, m, c, b');
      } else if c == [] {
        assert w[..|w| - 1] == a + m[..|m| - 1] + [];
        IsSubCut(a, m[..|m| - 1], [], b');
        assert a + [] == a;
        assert b == b' + [b[|b| - 1]];
        IsSubGrow(a, b', b[|b| - 1]);
      } else {
        var c' := c[..|c| - 1];
        assert w[..|w| - 1] == a + m + c';
        IsSubCut(a, m, c', b');
        assert (a + c)[..|a + c| - 1] == a + c';
      }
    }
  }

  lemma IsSubDrop<T(!new)>(a: seq<T>, gone: seq<T>, kept: seq<T>, b: seq<T>)
    requires IsSub(a + (gone + kept), b)
    ensures IsSub(a + kept, b)
  {
    assert a + (gone + kept) == a + gone + kept;
    IsSubCut(a, gone, kept, b);
  }

  lemma SuffixOfSuffix<T>(s: seq<T>, t: nat, a: seq<T>, b: seq<T>)
    requires t <= |s| && s[t..] == a + b
    ensures |s| - |b| == t + |a| && s[|s| - |b|..] == b
  {
    assert |s[t..]| == |a| + |b|;
    assert b == (a + b)[|a|..];
    assert s[t..][|a|..] == s[t + |a|..];
  }
}
