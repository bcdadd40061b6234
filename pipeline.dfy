/**
 * The loading half of `main`: the positional entries are taken from the
 * process arguments, each is resolved with `load` (passed in as `load`,
 * since `main` maps that function over the entries), and the per-entry
 * lists are concatenated in input order.
 */
module Pipeline {
  import opened Seqs
  import opened Loader

  /** `args._.slice(2)`: the process arguments after the interpreter and the script. */
  function Positional(argv: seq<string>): (r: seq<string>)
    ensures |r| == if |argv| <= 2 then 0 else |argv| - 2
    ensures forall i | 0 <= i < |r| :: r[i] == argv[i + 2]
  {
    if |argv| <= 2 then [] else argv[2..]
  }

  /** `entries.map(load)`: one list per entry, at the same index. */
  function LoadAll(entries: seq<string>, load: string -> seq<Descriptor>): (r: seq<seq<Descriptor>>)
    ensures |r| == |entries|
    ensures forall i | 0 <= i < |entries| :: r[i] == load(entries[i])
  {
    seq(|entries|, i requires 0 <= i < |entries| => load(entries[i]))
  }

  /** The flat list of descriptors `main` hands to `enqueue`. */
  function Resolve(argv: seq<string>, load: string -> seq<Descriptor>): seq<Descriptor>
  {
    Flatten(LoadAll(Positional(argv), load))
  }

  lemma LoadAllSlice(entries: seq<string>, load: string -> seq<Descriptor>, i: int, j: int)
    requires 0 <= i <= j <= |entries|
    ensures LoadAll(entries[i..j], load) == LoadAll(entries, load)[i..j]
  {
    var l, r := LoadAll(entries[i..j], load), LoadAll(entries, load)[i..j];
    forall n | 0 <= n < j - i ensures l[n] == r[n] {
      assert entries[i..j][n] == entries[i + n];
    }
  }

  /** The flat list holds, in order, what the entries before entry `k` resolve to, then entry `k`'s list, then the rest. */
  lemma ResolveOrder(argv: seq<string>, load: string -> seq<Descriptor>, k: int)
    requires 0 <= k < |Positional(argv)|
    ensures var es := Positional(argv);
      Resolve(argv, load) == Flatten(LoadAll(es[..k], load)) + load(es[k]) + Flatten(LoadAll(es[k + 1..], load))
  {
    var es := Positional(argv);
    var all := LoadAll(es, load);
    FlattenSplit(all, k);
    LoadAllSlice(es, load, 0, k);
    LoadAllSlice(es, load, k + 1, |es|);
    assert es[0..k] == es[..k] && es[k + 1..|es|] == es[k + 1..];
    assert all[0..k] == all[..k] && all[k + 1..|es|] == all[k + 1..];
  }

  /** Descriptor `j` of entry `i` sits in the flat list right after the descriptors of the entries before it. */
  lemma ResolveAt(argv: seq<string>, load: string -> seq<Descriptor>, i: int, j: int)
    requires 0 <= i < |Positional(argv)|
    requires 0 <= j < |load(Positional(argv)[i])|
    ensures var all := LoadAll(Positional(argv), load);
      TotalLength(all[..i]) + j < |Resolve(argv, load)| &&
      Resolve(argv, load)[TotalLength(all[..i]) + j] == load(Positional(argv)[i])[j]
  {
    FlattenAt(LoadAll(Positional(argv), load), i, j);
  }

  /** The flat list's length is the sum of the per-entry lengths. */
  lemma ResolveLength(argv: seq<string>, load: string -> seq<Descriptor>)
    ensures |Resolve(argv, load)| == TotalLength(LoadAll(Positional(argv), load))
  {
  }

  /** Two entries after the interpreter and the script: the first entry's list, then the second's. */
  lemma ResolveTwo(node: string, script: string, a: string, b: string, load: string -> seq<Descriptor>)
    ensures Resolve([node, script, a, b], load) == load(a) + load(b)
  {
    var es := Positional([node, script, a, b]);
    assert es == [a, b];
    assert LoadAll(es, load) == [load(a), load(b)];
    FlattenPair(load(a), load(b));
  }
}
