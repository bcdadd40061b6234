/** `Array.prototype.concat.apply([], lists)`: one level of flattening, and its properties. */
module Seqs {

  function Last<T>(s: seq<T>): T
    requires |s| > 0
  {
    s[|s| - 1]
  }

  /** The sum of the lengths of the lists. */
  function TotalLength<T>(xss: seq<seq<T>>): nat
  {
    if xss == [] then 0 else |xss[0]| + TotalLength(xss[1..])
  }

  /** The lists concatenated in order. */
  function Flatten<T>(xss: seq<seq<T>>): (r: seq<T>)
    ensures |r| == TotalLength(xss)
  {
    if xss == [] then [] else xss[0] + Flatten(xss[1..])
  }

  lemma {:induction false} FlattenAppend<T>(a: seq<seq<T>>, b: seq<seq<T>>)
    ensures Flatten(a + b) == Flatten(a) + Flatten(b)
  {
    if a != [] {
      assert (a + b)[1..] == a[1..] + b;
      FlattenAppend(a[1..], b);
    } else {
      assert a + b == b;
    }
  }

  lemma FlattenPair<T>(a: seq<T>, b: seq<T>)
    ensures Flatten([a, b]) == a + b
  {
    assert [a, b][1..] == [b];
    assert [b][1..] == [];
  }

  /** Splitting at list `i`: everything from the lists before it, then list `i`, then the rest. */
  lemma FlattenSplit<T>(xss: seq<seq<T>>, i: int)
    requires 0 <= i < |xss|
    ensures Flatten(xss) == Flatten(xss[..i]) + xss[i] + Flatten(xss[i + 1..])
  {
    assert xss == xss[..i] + ([xss[i]] + xss[i + 1..]);
    FlattenAppend(xss[..i], [xss[i]] + xss[i + 1..]);
    assert ([xss[i]] + xss[i + 1..])[1..] == xss[i + 1..];
  }

  /** Element `j` of list `i` lands right after the elements of the lists before it. */
  lemma FlattenAt<T>(xss: seq<seq<T>>, i: int, j: int)
    requires 0 <= i < |xss| && 0 <= j < |xss[i]|
    ensures TotalLength(xss[..i]) + j < |Flatten(xss)|
    ensures Flatten(xss)[TotalLength(xss[..i]) + j] == xss[i][j]
  {
    FlattenSplit(xss, i);
  }

  /** The elements of an earlier list all come before those of a later one. */
  lemma FlattenOrder<T>(xss: seq<seq<T>>, i: int, k: int)
    requires 0 <= i < k < |xss|
    ensures TotalLength(xss[..i]) + |xss[i]| <= TotalLength(xss[..k])
  {
    assert xss[..k] == xss[..i] + [xss[i]] + xss[i + 1..k];
    FlattenAppend(xss[..i] + [xss[i]], xss[i + 1..k]);
    FlattenAppend(xss[..i], [xss[i]]);
    assert [xss[i]][1..] == [];
  }

  /** When every list has length `k`, the flattening has `k` elements per list. */
  lemma {:induction false} FlattenUniform<T>(xss: seq<seq<T>>, k: nat)
    requires forall i | 0 <= i < |xss| :: |xss[i]| == k
    ensures |Flatten(xss)| == k * |xss|
  {
    if xss != [] {
      FlattenUniform(xss[1..], k);
    }
  }
}
