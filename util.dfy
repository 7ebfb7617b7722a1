/** mathtex/util.py: the reverse scan used by every closing token of the parser. */
module Util {

  /** The index of the last element of `a` that satisfies `p`, or -1 when none does. */
  function LastMatch<T>(a: seq<T>, p: T -> bool): (r: int)
    ensures -1 <= r < |a|
  {
    if a == [] then -1
    else if p(a[|a| - 1]) then |a| - 1
    else LastMatch(a[..|a| - 1], p)
  }

  /** What `LastMatch` finds satisfies `p`, and nothing after it does. */
  lemma {:induction false} LastMatchSpec<T>(a: seq<T>, p: T -> bool)
    ensures var r := LastMatch(a, p);
      && (r >= 0 ==> p(a[r]))
      && forall j :: r < j < |a| ==> !p(a[j])
    decreases |a|
  {
    if a != [] && !p(a[|a| - 1]) {
      var a' := a[..|a| - 1];
      LastMatchSpec(a', p);
      assert forall j :: 0 <= j < |a'| ==> a'[j] == a[j];
    }
  }

  /** Conversely, an index that satisfies `p` with nothing after it that does is the last match. */
  lemma {:induction false} LastMatchIs<T>(a: seq<T>, p: T -> bool, r: int)
    requires -1 <= r < |a|
    requires r >= 0 ==> p(a[r])
    requires forall j :: r < j < |a| ==> !p(a[j])
    ensures LastMatch(a, p) == r
    decreases |a|
  {
    if a != [] && r < |a| - 1 {
      var a' := a[..|a| - 1];
      assert forall j :: r < j < |a'| ==> a'[j] == a[j];
      LastMatchIs(a', p, r);
    }
  }

  /** -1 is returned exactly when no element satisfies `p`. */
  lemma LastMatchNone<T>(a: seq<T>, p: T -> bool)
    ensures LastMatch(a, p) == -1 <==> forall j :: 0 <= j < |a| ==> !p(a[j])
  {
    LastMatchSpec(a, p);
    if forall j :: 0 <= j < |a| ==> !p(a[j]) {
      LastMatchIs(a, p, -1);
    }
  }

  /** `last_index`: counts down from the end and returns at the first hit. */
  method LastIndex<T>(a: seq<T>, p: T -> bool) returns (r: int)
    ensures r == LastMatch(a, p)
  {
    for i := |a| downto 0
      invariant forall j :: i <= j < |a| ==> !p(a[j])
    {
      if p(a[i]) {
        LastMatchIs(a, p, i);
        return i;
      }
    }
    LastMatchIs(a, p, -1);
    return -1;
  }

  /** Scanning a longer list finds nothing further down than in its prefix. */
  lemma {:induction false} LastMatchPrefix<T>(a: seq<T>, k: nat, p: T -> bool)
    requires k <= |a|
    requires LastMatch(a, p) < k
    ensures LastMatch(a[..k], p) == LastMatch(a, p)
  {
    var r := LastMatch(a, p);
    LastMatchSpec(a, p);
    assert forall j :: 0 <= j < k ==> a[..k][j] == a[j];
    LastMatchIs(a[..k], p, r);
  }

  /** Appending one element moves the last match to it exactly when it satisfies `p`. */
  lemma LastMatchSnoc<T>(a: seq<T>, x: T, p: T -> bool)
    ensures LastMatch(a + [x], p) == if p(x) then |a| else LastMatch(a, p)
  {
    assert (a + [x])[..|a + [x]| - 1] == a;
  }

  /** Appending elements none of which satisfies `p` leaves the last match where it was. */
  lemma {:induction false} LastMatchAfter<T>(a: seq<T>, b: seq<T>, p: T -> bool)
    requires forall j :: 0 <= j < |b| ==> !p(b[j])
    ensures LastMatch(a + b, p) == LastMatch(a, p)
    decreases |b|
  {
    if b != [] {
      var b' := b[..|b| - 1];
      assert (a + b)[..|a + b| - 1] == a + b';
      LastMatchAfter(a, b', p);
    } else {
      assert a + b == a;
    }
  }
}
