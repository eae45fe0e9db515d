/** Order-preserving packing of a list into blocks that each satisfy an inherited bound:
    filling every block as far as it goes uses the fewest blocks. */
module Packing {

  function Flatten<T>(blocks: seq<seq<T>>): seq<T> {
    if blocks == [] then [] else Flatten(blocks[..|blocks| - 1]) + blocks[|blocks| - 1]
  }

  lemma FlattenAppend<T>(blocks: seq<seq<T>>, b: seq<T>)
    ensures Flatten(blocks + [b]) == Flatten(blocks) + b
  {
    assert (blocks + [b])[..|blocks|] == blocks;
  }

  function Slice<T>(block: seq<T>, i: nat, j: nat): seq<T>
    requires i <= j <= |block|
  {
    block[i..j]
  }

  /** Every contiguous part of a fitting block fits. */
  ghost predicate Inherited<T(!new)>(fits: seq<T> -> bool) {
    forall block: seq<T>, i: nat, j: nat {:trigger Slice(block, i, j)} ::
      i <= j <= |block| && fits(block) ==> fits(Slice(block, i, j))
  }

  ghost predicate Splits<T(!new)>(fits: seq<T> -> bool, blocks: seq<seq<T>>, items: seq<T>) {
    Flatten(blocks) == items && forall i :: 0 <= i < |blocks| ==> blocks[i] != [] && fits(blocks[i])
  }

  /** Block i could not have taken the first item of block i + 1. */
  ghost predicate Full<T>(fits: seq<T> -> bool, blocks: seq<seq<T>>, i: nat)
    requires i + 1 < |blocks|
  {
    blocks[i + 1] != [] && !fits(blocks[i] + [blocks[i + 1][0]])
  }

  ghost predicate Greedy<T>(fits: seq<T> -> bool, blocks: seq<seq<T>>) {
    forall i :: 0 <= i < |blocks| - 1 ==> Full(fits, blocks, i)
  }

  /** How many items the first k blocks hold. */
  function End<T>(blocks: seq<seq<T>>, k: nat): nat
    requires k <= |blocks|
  {
    |Flatten(blocks[..k])|
  }

  lemma {:induction false} FlattenPrefix<T>(blocks: seq<seq<T>>, k: nat)
    requires k <= |blocks|
    ensures End(blocks, k) <= |Flatten(blocks)|
    ensures Flatten(blocks)[..End(blocks, k)] == Flatten(blocks[..k])
    decreases |blocks|
  {
    if k == |blocks| {
      assert blocks[..k] == blocks;
    } else {
      var init := blocks[..|blocks| - 1];
      FlattenPrefix(init, k);
      assert init[..k] == blocks[..k];
    }
  }

  /** Block k is the slice of the items between the ends of its neighbours. */
  lemma BlockIsSlice<T>(blocks: seq<seq<T>>, k: nat)
    requires k < |blocks|
    ensures End(blocks, k + 1) == End(blocks, k) + |blocks[k]| && End(blocks, k + 1) <= |Flatten(blocks)|
    ensures blocks[k] == Flatten(blocks)[End(blocks, k)..End(blocks, k + 1)]
  {
    FlattenPrefix(blocks, k + 1);
    assert blocks[..k + 1][..k] == blocks[..k];
    var upTo := Flatten(blocks[..k + 1]);
    assert upTo == Flatten(blocks[..k]) + blocks[k];
    assert upTo[End(blocks, k)..] == blocks[k];
    assert Flatten(blocks)[..End(blocks, k + 1)][End(blocks, k)..] == Flatten(blocks)[End(blocks, k)..End(blocks, k + 1)];
  }

  lemma Window<T>(items: seq<T>, a: nat, b: nat, c: nat, d: nat)
    requires c <= a <= b < d <= |items|
    ensures items[a..b] + [items[b]] == Slice(items[c..d], a - c, b + 1 - c)
  {
    var l, r := items[a..b] + [items[b]], items[c..d][a - c..b + 1 - c];
    forall i | 0 <= i < b + 1 - a ensures l[i] == r[i] {
    }
  }

  /** If q's block k - 1 reached past p's, it would contain p's block and the next item. */
  lemma Overshoot<T>(p: seq<seq<T>>, q: seq<seq<T>>, k: nat) returns (i: nat, j: nat)
    requires 0 < k < |p| && k <= |q| && p[k] != [] && Flatten(p) == Flatten(q)
    requires End(q, k - 1) <= End(p, k - 1) && End(p, k) < End(q, k)
    ensures i <= j <= |q[k - 1]| && p[k - 1] + [p[k][0]] == Slice(q[k - 1], i, j)
  {
    BlockIsSlice(p, k - 1);
    BlockIsSlice(p, k);
    BlockIsSlice(q, k - 1);
    Window(Flatten(p), End(p, k - 1), End(p, k), End(q, k - 1), End(q, k));
    i, j := End(p, k - 1) - End(q, k - 1), End(p, k) + 1 - End(q, k - 1);
  }

  /** So p's block, being full, could not have been overtaken. */
  lemma NoOvershoot<T(!new)>(fits: seq<T> -> bool, p: seq<seq<T>>, q: seq<seq<T>>, k: nat)
    requires Inherited(fits) && 0 < k < |p| && k <= |q|
    requires Flatten(p) == Flatten(q) && fits(q[k - 1]) && Full(fits, p, k - 1)
    requires End(q, k - 1) <= End(p, k - 1)
    ensures End(q, k) <= End(p, k)
  {
    if End(p, k) < End(q, k) {
      var _, _ := Overshoot(p, q, k);
    }
  }

  /** Greedy stays ahead: after k blocks it has placed at least as many items as any split. */
  lemma {:induction false} GreedyStaysAhead<T(!new)>(fits: seq<T> -> bool, p: seq<seq<T>>, q: seq<seq<T>>, items: seq<T>, k: nat)
    requires Inherited(fits) && Splits(fits, p, items) && Greedy(fits, p) && Splits(fits, q, items)
    requires k <= |p| && k <= |q|
    ensures End(q, k) <= End(p, k)
  {
    if k > 0 {
      GreedyStaysAhead(fits, p, q, items, k - 1);
      if k == |p| {
        assert p[..k] == p;
        FlattenPrefix(q, k);
      } else {
        assert Full(fits, p, k - 1);
        NoOvershoot(fits, p, q, k);
      }
    }
  }

  /** No order-preserving split into fitting blocks has fewer blocks than a greedy one. */
  lemma GreedyIsMinimal<T(!new)>(fits: seq<T> -> bool, p: seq<seq<T>>, q: seq<seq<T>>, items: seq<T>)
    requires Inherited(fits) && Splits(fits, p, items) && Greedy(fits, p) && Splits(fits, q, items)
    ensures |p| <= |q|
  {
    if |q| < |p| {
      GreedyStaysAhead(fits, p, q, items, |q|);
      assert q[..|q|] == q;
      BlockIsSlice(p, |q|);
    }
  }

  ghost predicate EachFitsAlone<T(!new)>(fits: seq<T> -> bool, items: seq<T>) {
    forall k :: 0 <= k < |items| ==> fits([items[k]])
  }

  lemma {:induction false} SplitHoldsEach<T(!new)>(fits: seq<T> -> bool, q: seq<seq<T>>, items: seq<T>)
    requires Inherited(fits) && Splits(fits, q, items)
    ensures EachFitsAlone(fits, items)
    decreases |q|
  {
    if q != [] {
      var init, last := q[..|q| - 1], q[|q| - 1];
      var n := |Flatten(init)|;
      SplitHoldsEach(fits, init, Flatten(init));
      forall k | 0 <= k < |items| ensures fits([items[k]]) {
        if k < n {
          assert Flatten(init)[k] == items[k];
        } else {
          assert Slice(last, k - n, k - n + 1) == [items[k]];
        }
      }
    }
  }

  lemma SplitAppend<T(!new)>(fits: seq<T> -> bool, q: seq<seq<T>>, init: seq<T>, block: seq<T>)
    requires Splits(fits, q, init) && block != [] && fits(block)
    ensures Splits(fits, q + [block], init + block)
  {
    FlattenAppend(q, block);
  }

  lemma {:induction false} Singletons<T(!new)>(fits: seq<T> -> bool, items: seq<T>)
    requires EachFitsAlone(fits, items)
    ensures exists q :: Splits(fits, q, items)
  {
    if items == [] {
      assert Splits(fits, [], items);
    } else {
      var init, last := items[..|items| - 1], items[|items| - 1];
      assert EachFitsAlone(fits, init);
      Singletons(fits, init);
      var q :| Splits(fits, q, init);
      SplitAppend(fits, q, init, [last]);
      assert init + [last] == items;
    }
  }

  /** A split exists exactly when every item fits alone. */
  lemma SplitExistsIffEachFitsAlone<T(!new)>(fits: seq<T> -> bool, items: seq<T>)
    requires Inherited(fits)
    ensures (exists q :: Splits(fits, q, items)) <==> EachFitsAlone(fits, items)
  {
    if q :| Splits(fits, q, items) { SplitHoldsEach(fits, q, items); }
    if EachFitsAlone(fits, items) { Singletons(fits, items); }
  }
}
