/** A loop that takes at most one item a round from a queue that others extend. */
module Rounds {

  /** What one round meets: how many items there have been for the loop by then, and whether it can take one. */
  datatype Chance = Chance(supply: int, open: bool)

  /**
   * Item `n` was taken in round `taken[n]`: in order, one a round, when it was there
   * and the round was open; and an open round took nothing only if nothing was left.
   */
  ghost predicate Greedy(chances: seq<Chance>, taken: seq<nat>) {
    && (forall n :: 0 <= n < |taken| ==>
          taken[n] < |chances| && chances[taken[n]].open && n < chances[taken[n]].supply)
    && (forall a, b :: 0 <= a < b < |taken| ==> taken[a] < taken[b])
    && (forall i :: 0 <= i < |chances| && chances[i].open && i !in taken ==> Exhausted(taken, i, chances[i].supply))
  }

  /** The items taken before round `i` are as many as there were. */
  ghost predicate Exhausted(taken: seq<nat>, i: nat, supply: int) {
    exists m: nat :: supply <= m && TookBefore(taken, i, m)
  }

  predicate TookBefore(taken: seq<nat>, i: nat, m: nat) {
    m <= |taken| && forall n :: 0 <= n < m ==> taken[n] < i
  }

  lemma NothingTaken()
    ensures Greedy([], [])
  {
  }

  lemma ExhaustedNext(taken: seq<nat>, i: nat, supply: int, last: nat)
    requires Exhausted(taken, i, supply)
    ensures Exhausted(taken + [last], i, supply)
  {
    var m: nat :| supply <= m && TookBefore(taken, i, m);
    assert TookBefore(taken + [last], i, m);
  }

  /** One more round. */
  lemma GreedyNext(chances: seq<Chance>, taken: seq<nat>, c: Chance)
    requires Greedy(chances, taken)
    ensures Greedy(chances + [c], if c.open && |taken| < c.supply then taken + [|chances|] else taken)
  {
    var ran, chances' := |chances|, chances + [c];
    if c.open && |taken| < c.supply {
      hide Exhausted;
      var longer := taken + [ran];
      assert longer[|taken|] == ran && taken <= longer;
      forall i | 0 <= i < |chances'| && chances'[i].open && i !in longer
        ensures Exhausted(longer, i, chances'[i].supply)
      {
        assert i in taken ==> i in longer;
        ExhaustedNext(taken, i, chances'[i].supply, ran);
      }
    } else if c.open {
      assert TookBefore(taken, ran, |taken|);
    }
  }

  /** With an item for every round and every round open, each round takes one. */
  lemma {:induction false} EveryRoundTakes(chances: seq<Chance>, taken: seq<nat>)
    requires Greedy(chances, taken)
    requires forall i :: 0 <= i < |chances| ==> chances[i].open && i < chances[i].supply
    ensures |taken| == |chances| && forall n :: 0 <= n < |taken| ==> taken[n] == n
  {
    hide Exhausted;
    forall i | 0 <= i < |chances| ensures i in taken {
      TakesIfThere(chances, taken, i);
    }
    AllInOrder(taken, |chances|);
  }

  lemma TakesIfThere(chances: seq<Chance>, taken: seq<nat>, i: nat)
    requires Greedy(chances, taken) && i < |chances| && chances[i].open && i < chances[i].supply
    ensures i in taken
  {
    if i !in taken {
      assert Exhausted(taken, i, chances[i].supply);
      var m: nat :| chances[i].supply <= m && TookBefore(taken, i, m);
      NotBelow(taken, m - 1);
      assert false;
    }
  }

  lemma {:induction false} NotBelow(taken: seq<nat>, n: nat)
    requires n < |taken| && forall a, b :: 0 <= a < b < |taken| ==> taken[a] < taken[b]
    ensures n <= taken[n]
  {
    if n > 0 {
      NotBelow(taken, n - 1);
    }
  }

  lemma {:induction false} AllInOrder(taken: seq<nat>, size: nat)
    requires forall n :: 0 <= n < |taken| ==> taken[n] < size
    requires forall a, b :: 0 <= a < b < |taken| ==> taken[a] < taken[b]
    requires forall i :: 0 <= i < size ==> i in taken
    ensures |taken| == size && forall n :: 0 <= n < |taken| ==> taken[n] == n
  {
    if taken == [] {
      assert size > 0 ==> 0 in taken;
    } else {
      var last := |taken| - 1;
      assert taken[last] < size;
      assert size - 1 in taken;
      assert taken[last] == size - 1;
      forall i | 0 <= i < size - 1 ensures i in taken[..last] {
        assert i in taken;
        var n :| 0 <= n < |taken| && taken[n] == i;
        assert taken[..last][n] == i;
      }
      AllInOrder(taken[..last], size - 1);
    }
  }
}
