/** The "last k" slices and newest-first listings used by both dashboards. */
module Windows {

  function Min(a: int, b: int): int {
    if a <= b then a else b
  }

  /** Python's `s[-k:]` for a positive `k`: the newest `k` elements, or all of
      them when there are fewer. The retention rule
      `if len(s) > k: s = s[-k:]` computes the same list. */
  function Newest<T>(s: seq<T>, k: nat): (r: seq<T>)
    requires k > 0
    ensures |r| == Min(|s|, k)
    ensures r == s[|s| - |r|..]
  {
    if |s| > k then s[|s| - k..] else s
  }

  /** Keeping the newest `k` of a list, or of any longer list that ends with it
      and is cut at the same point or later, gives the same result. */
  lemma NewestOfSuffix<T>(a: seq<T>, b: seq<T>, k: nat)
    requires k > 0
    requires |a| <= |b| && a == b[|b| - |a|..]
    requires |a| >= Min(|b|, k)
    ensures Newest(a, k) == Newest(b, k)
  {
    var ra, rb := Newest(a, k), Newest(b, k);
    assert |ra| == |rb|;
    forall i | 0 <= i < |ra| ensures ra[i] == rb[i] {
      assert ra[i] == a[|a| - |ra| + i];
      assert a[|a| - |ra| + i] == b[|b| - |a| + (|a| - |ra| + i)];
    }
  }

  /** Retaining the newest `k` after each append is the same as retaining the
      newest `k` of everything appended so far. */
  lemma NewestAppend<T>(s: seq<T>, t: seq<T>, k: nat)
    requires k > 0
    ensures Newest(Newest(s, k) + t, k) == Newest(s + t, k)
  {
    var a, b := Newest(s, k) + t, s + t;
    assert a == b[|b| - |a|..] by {
      assert Newest(s, k) == s[|s| - |Newest(s, k)|..];
    }
    NewestOfSuffix(a, b, k);
  }

  function Reverse<T>(s: seq<T>): (r: seq<T>)
    ensures |r| == |s|
    ensures forall i :: 0 <= i < |s| ==> r[i] == s[|s| - 1 - i]
  {
    if |s| == 0 then [] else Reverse(s[1..]) + [s[0]]
  }

  /** `reversed(s[-k:])`: the newest `k` elements, most recent first. */
  function NewestFirst<T>(s: seq<T>, k: nat): (r: seq<T>)
    requires k > 0
    ensures |r| == Min(|s|, k)
    ensures forall i :: 0 <= i < |r| ==> r[i] == s[|s| - 1 - i]
  {
    Reverse(Newest(s, k))
  }
}
