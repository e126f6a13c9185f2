/** Reversal of block lists. */
module Slices {
  import opened Types

  function Reverse<T>(s: seq<T>): (r: seq<T>)
    ensures |r| == |s|
    ensures forall k | 0 <= k < |s| :: r[k] == s[|s| - 1 - k]
  {
    seq(|s|, i requires 0 <= i < |s| => s[|s| - 1 - i])
  }

  lemma {:induction false} ReverseTwice<T>(s: seq<T>)
    ensures Reverse(Reverse(s)) == s
  {
  }

  /** Walking down appends what going up would put in front. */
  lemma {:induction false} ReverseCons<T>(s: seq<T>, x: T)
    ensures Reverse([x] + s) == Reverse(s) + [x]
    ensures Reverse(s + [x]) == [x] + Reverse(s)
  {
  }

  /** ReverseBlocksSlice and ReverseBlocksShortSlice: swaps the two ends of a
      slice towards its middle. */
  method ReverseBlocksSlice(ss: array<Block>)
    modifies ss
    ensures ss[..] == Reverse(old(ss[..]))
  {
    var last := ss.Length - 1;
    if last < 1 {
      return;
    }
    for i := 0 to ss.Length / 2
      invariant forall k | 0 <= k < i :: ss[k] == old(ss[last - k]) && ss[last - k] == old(ss[k])
      invariant forall k | i <= k <= last - i :: ss[k] == old(ss[k])
    {
      ss[i], ss[last - i] := ss[last - i], ss[i];
    }
  }

  /** The list as the caller's slice after ReverseBlocksSlice. */
  method ReverseList(s: seq<Block>) returns (r: seq<Block>)
    ensures r == Reverse(s)
  {
    var a := new Block[|s|](i requires 0 <= i < |s| => s[i]);
    assert a[..] == s;
    ReverseBlocksSlice(a);
    r := a[..];
  }
}
