/** Splitting the symbol list into the consecutive slices requested from the price provider. */
module Batching {
  import Seqs

  /** The slices `lst[0:n]`, `lst[n:2n]`, ... of a `range(0, len(lst), n)` walk. */
  function Batches<T>(lst: seq<T>, n: nat): (r: seq<seq<T>>)
    requires n > 0
    ensures Seqs.Flatten(r) == lst
    ensures forall k :: 0 <= k < |r| ==> 0 < |r[k]| <= n
    ensures forall k :: 0 <= k < |r| - 1 ==> |r[k]| == n
    decreases |lst|
  {
    if |lst| == 0 then []
    else if |lst| <= n then
      Seqs.FlattenCons(lst, []);
      [lst]
    else
      var rest := Batches(lst[n..], n);
      var r := [lst[..n]] + rest;
      Seqs.FlattenCons(lst[..n], rest);
      assert lst == lst[..n] + lst[n..];
      assert forall k :: 1 <= k < |r| ==> r[k] == rest[k - 1];
      r
  }

  lemma BatchesStep<T>(lst: seq<T>, i: nat, n: nat)
    requires n > 0 && i < |lst|
    ensures var hi := if i + n < |lst| then i + n else |lst|;
      Batches(lst[i..], n) == [lst[i..hi]] + Batches(lst[hi..], n)
  {
    var rest := lst[i..];
    if |rest| <= n {
      assert rest == lst[i..|lst|];
      assert Batches(lst[|lst|..], n) == [];
    } else {
      assert rest[..n] == lst[i..i + n] && rest[n..] == lst[i + n..];
    }
  }

  /** The generator `chunk(lst, n)`, collected into a list of batches. */
  method Chunk<T>(lst: seq<T>, n: nat) returns (batches: seq<seq<T>>)
    requires n > 0
    ensures batches == Batches(lst, n)
    ensures Seqs.Flatten(batches) == lst
    ensures forall k :: 0 <= k < |batches| ==> 0 < |batches[k]| <= n
    ensures forall k :: 0 <= k < |batches| - 1 ==> |batches[k]| == n
  {
    batches := [];
    var i := 0;
    while i < |lst|
      invariant i < |lst| ==> batches + Batches(lst[i..], n) == Batches(lst, n)
      invariant i >= |lst| ==> batches == Batches(lst, n)
    {
      var hi := if i + n < |lst| then i + n else |lst|;
      BatchesStep(lst, i, n);
      ghost var later := Batches(lst[hi..], n);
      Seqs.AppendAssoc(batches, [lst[i..hi]], later);
      if hi == |lst| {
        assert later == [];
        assert batches + [lst[i..hi]] + later == batches + [lst[i..hi]];
      } else {
        assert i + n == hi;
        assert batches + [lst[i..hi]] + later == Batches(lst, n);
      }
      batches := batches + [lst[i..hi]];
      i := i + n;
    }
  }
}
