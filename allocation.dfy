/** The stock-allocation rule the merge thread applies to one drained batch
    (SeckillDemo.mergeJob). Counts are taken in drain order, oldest first. */
module Allocation {

  /** What one batch decides: a grant flag per request, in drain order, and
      the stock left afterwards. */
  datatype BatchDecision = BatchDecision(granted: seq<bool>, stock: int)

  /** Total quantity asked for by a batch (the stream sum of the counts). */
  function Sum(counts: seq<int>): (total: int)
    ensures (forall i :: 0 <= i < |counts| ==> counts[i] >= 0) ==> total >= 0
  {
    if counts == [] then 0 else Sum(counts[..|counts| - 1]) + counts[|counts| - 1]
  }

  /** Total quantity of the requests whose flag is set. */
  function GrantedSum(counts: seq<int>, granted: seq<bool>): int
    requires |granted| == |counts|
  {
    if counts == [] then 0
    else
      GrantedSum(counts[..|counts| - 1], granted[..|granted| - 1])
      + (if granted[|granted| - 1] then counts[|counts| - 1] else 0)
  }

  /** Granting every request of a batch grants exactly its sum. */
  lemma {:induction false} AllGrantedSum(counts: seq<int>)
    ensures GrantedSum(counts, seq(|counts|, _ => true)) == Sum(counts)
  {
    if counts != [] {
      var n := |counts|;
      assert seq(n, _ => true)[..n - 1] == seq(n - 1, _ => true);
      AllGrantedSum(counts[..n - 1]);
    }
  }

  /** The per-entry walk used when the batch asks for more than is in stock:
      entries are visited in drain order and each one is granted iff its count
      fits in the stock that is left at that moment; a declined entry does
      not stop the walk. */
  function Greedy(counts: seq<int>, stock: int): (d: BatchDecision)
    ensures |d.granted| == |counts|
    ensures stock >= 0 ==> d.stock >= 0
    decreases |counts|
  {
    if counts == [] then BatchDecision([], stock)
    else
      var n := |counts|;
      var before := Greedy(counts[..n - 1], stock);
      var count := counts[n - 1];
      var granted := before.granted + [count <= before.stock];
      if count <= before.stock then BatchDecision(granted, before.stock - count)
      else BatchDecision(granted, before.stock)
  }

  /** One step of the walk: the stock left after entry i is what was left
      before it, less its count when it fits. */
  lemma GreedyStockStep(counts: seq<int>, stock: int, i: nat)
    requires i < |counts|
    ensures var left := Greedy(counts[..i], stock).stock;
            Greedy(counts[..i + 1], stock).stock == if counts[i] <= left then left - counts[i] else left
  {
    assert counts[..i + 1][..i] == counts[..i];
  }

  /** Entry i is granted iff its count fits in the stock left before it. */
  lemma GreedyDecides(counts: seq<int>, stock: int, i: nat)
    requires i < |counts|
    ensures Greedy(counts, stock).granted[i] == (counts[i] <= Greedy(counts[..i], stock).stock)
  {
    GreedyPrefix(counts, stock, i + 1);
    assert counts[..i + 1][..i] == counts[..i];
  }

  /** The walk takes from stock exactly what it grants. */
  lemma {:induction false} GreedyConservesStock(counts: seq<int>, stock: int)
    ensures var d := Greedy(counts, stock);
            d.stock == stock - GrantedSum(counts, d.granted)
  {
    if counts != [] {
      var n := |counts|;
      GreedyConservesStock(counts[..n - 1], stock);
      var d := Greedy(counts, stock);
      assert d.granted[..n - 1] == Greedy(counts[..n - 1], stock).granted;
    }
  }

  /** One consumer iteration's decision: grant everything when the batch's
      sum fits in stock, otherwise fall back to the per-entry walk. */
  function Allocate(counts: seq<int>, stock: int): (d: BatchDecision)
    ensures |d.granted| == |counts|
    ensures stock >= 0 ==> d.stock >= 0
    ensures d.stock == stock - GrantedSum(counts, d.granted)
    ensures Sum(counts) <= stock ==>
              d.stock == stock - Sum(counts) && forall i :: 0 <= i < |counts| ==> d.granted[i]
    ensures Sum(counts) > stock ==> d == Greedy(counts, stock)
  {
    var total := Sum(counts);
    if total <= stock then
      AllGrantedSum(counts);
      BatchDecision(seq(|counts|, _ => true), stock - total)
    else
      GreedyConservesStock(counts, stock);
      Greedy(counts, stock)
  }

  /** The walk's decisions on a prefix of the batch are the prefix of its
      decisions on the whole batch: later entries never change earlier ones. */
  lemma {:induction false} GreedyPrefix(counts: seq<int>, stock: int, n: nat)
    requires n <= |counts|
    ensures Greedy(counts[..n], stock).granted == Greedy(counts, stock).granted[..n]
    decreases |counts|
  {
    if n < |counts| {
      var m := |counts|;
      assert counts[..n] == counts[..m - 1][..n];
      GreedyPrefix(counts[..m - 1], stock, n);
    } else {
      assert counts[..n] == counts;
    }
  }

  /** Entry i of the walk is granted iff its count is at most the stock left
      after entries 0..i-1, and that stock is the initial stock minus what
      the earlier entries were granted. */
  lemma GreedyVisitsInOrder(counts: seq<int>, stock: int, i: nat)
    requires i < |counts|
    ensures var d := Greedy(counts, stock);
            var remaining := Greedy(counts[..i], stock).stock;
            remaining == stock - GrantedSum(counts[..i], d.granted[..i]) &&
            (d.granted[i] <==> counts[i] <= remaining)
  {
    GreedyPrefix(counts, stock, i);
    GreedyConservesStock(counts[..i], stock);
    GreedyDecides(counts, stock, i);
  }

  /** With non-negative counts whose sum fits in stock, the walk grants every
      entry too: the all-granted fast path is a shortcut of the walk. */
  lemma {:induction false} GreedyGrantsAll(counts: seq<int>, stock: int)
    requires forall i :: 0 <= i < |counts| ==> counts[i] >= 0
    requires Sum(counts) <= stock
    ensures Greedy(counts, stock) == BatchDecision(seq(|counts|, _ => true), stock - Sum(counts))
  {
    if counts != [] {
      var n := |counts|;
      GreedyGrantsAll(counts[..n - 1], stock);
      assert seq(n - 1, _ => true) + [true] == seq(n, _ => true);
    }
  }

  /** For non-negative counts the two branches of the consumer agree, so the
      decision is the per-entry walk whatever the batch's sum. */
  lemma FastPathMatchesWalk(counts: seq<int>, stock: int)
    requires forall i :: 0 <= i < |counts| ==> counts[i] >= 0
    ensures Allocate(counts, stock) == Greedy(counts, stock)
  {
    if Sum(counts) <= stock {
      GreedyGrantsAll(counts, stock);
    }
  }

  /** The walk does not stop at the first decline: with 3 in stock, a request
      for 5 is declined and the later request for 1 is still granted, so the
      granted requests are not a prefix of the batch. */
  lemma LaterSmallerRequestGranted()
    ensures Allocate([5, 1], 3) == BatchDecision([false, true], 2)
  {
    assert [5, 1][..1] == [5];
    assert [5][..0] == [];
  }

  /** A negative count (never rejected by the source) is where the two branches
      part: the fast path grants both requests, the walk would decline the first. */
  lemma NegativeCountSplitsBranches()
    ensures Allocate([5, -3], 3) == BatchDecision([true, true], 1)
    ensures Greedy([5, -3], 3) == BatchDecision([false, true], 6)
  {
    assert [5, -3][..1] == [5];
    assert [5][..0] == [];
  }

  /** Single-unit requests are served first come, first served: the first
      min(n, stock) entries are granted and the rest declined. */
  lemma {:induction false} UnitRequestsFirstComeFirstServed(n: nat, stock: nat)
    ensures var d := Allocate(seq(n, _ => 1), stock);
            (forall i :: 0 <= i < n ==> (d.granted[i] <==> i < stock)) &&
            d.stock == if n <= stock then stock - n else 0
  {
    UnitGreedy(n, stock);
    FastPathMatchesWalk(seq(n, _ => 1), stock);
  }

  /** The walk-level helper for UnitRequestsFirstComeFirstServed: the walk
      over n single-unit requests grants exactly the first min(n, stock). */
  lemma {:induction false} UnitGreedy(n: nat, stock: nat)
    ensures var d := Greedy(seq(n, _ => 1), stock);
            (forall i :: 0 <= i < n ==> (d.granted[i] <==> i < stock)) &&
            d.stock == if n <= stock then stock - n else 0
  {
    if n > 0 {
      assert seq(n, _ => 1)[..n - 1] == seq(n - 1, _ => 1);
      UnitGreedy(n - 1, stock);
    }
  }
}
