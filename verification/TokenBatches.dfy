/** Splitting chunks into batches under a token budget: the greedy loop is optimal. */
module TokenBatches {
  import opened Prelude

  /** A chunk with its recorded token count, or none, and the rough count its text would give. */
  datatype Chunk = Chunk(content: string, tokenCount: Option<int>, roughTokens: nat)

  function Cost(c: Chunk): int {
    c.tokenCount.GetOr(c.roughTokens)
  }

  function TotalCost(chunks: seq<Chunk>): int {
    if chunks == [] then 0 else TotalCost(chunks[..|chunks| - 1]) + Cost(chunks[|chunks| - 1])
  }

  function Flatten(batches: seq<seq<Chunk>>): seq<Chunk> {
    if batches == [] then [] else Flatten(batches[..|batches| - 1]) + batches[|batches| - 1]
  }

  /** A batch fits the budget, or is a single chunk that may not. */
  ghost predicate Acceptable(batch: seq<Chunk>, budget: int) {
    |batch| == 1 || (|batch| > 1 && TotalCost(batch) <= budget)
  }

  /** A partition of `chunks` into consecutive acceptable batches. */
  ghost predicate Partition(batches: seq<seq<Chunk>>, chunks: seq<Chunk>, budget: int) {
    Flatten(batches) == chunks && forall j | 0 <= j < |batches| :: Acceptable(batches[j], budget)
  }

  /** The first chunk of each batch would not have fitted into the one before. */
  ghost predicate Greedy(batches: seq<seq<Chunk>>, budget: int) {
    forall j: nat {:trigger Tight(batches, budget, j)} | j < |batches| - 1 :: Tight(batches, budget, j)
  }

  ghost predicate Tight(batches: seq<seq<Chunk>>, budget: int, j: nat)
    requires j < |batches| - 1
  {
    batches[j + 1] != [] && TotalCost(batches[j]) + Cost(batches[j + 1][0]) > budget
  }

  /** Chunks in the first `j` batches. */
  function Covered(batches: seq<seq<Chunk>>, j: nat): nat
    requires j <= |batches|
  {
    if j == 0 then 0 else Covered(batches, j - 1) + |batches[j - 1]|
  }

  lemma {:induction false} CoveredPrefix(batches: seq<seq<Chunk>>, j: nat)
    requires j <= |batches|
    ensures Covered(batches, j) == |Flatten(batches[..j])|
  {
    if j > 0 {
      CoveredPrefix(batches, j - 1);
      assert batches[..j][..j - 1] == batches[..j - 1];
    }
  }

  /** Batch `j` is the stretch of the flattened list between its cuts. */
  lemma {:induction false} BatchAt(batches: seq<seq<Chunk>>, j: nat)
    requires j < |batches|
    ensures Covered(batches, j) <= Covered(batches, j + 1) <= |Flatten(batches)|
    ensures batches[j] == Flatten(batches)[Covered(batches, j)..Covered(batches, j + 1)]
  {
    var init := batches[..|batches| - 1];
    CoveredPrefix(batches, j);
    CoveredPrefix(batches, j + 1);
    if j == |batches| - 1 {
      assert batches[..j + 1] == batches;
      assert batches[..j] == init;
      var flat := Flatten(init);
      assert Flatten(batches) == flat + batches[j];
      assert Covered(batches, j) == |flat| && Covered(batches, j + 1) == |flat + batches[j]|;
      assert (flat + batches[j])[|flat|..|flat + batches[j]|] == batches[j];
    } else {
      BatchAt(init, j);
      CoveredPrefix(init, j);
      CoveredPrefix(init, j + 1);
      assert init[..j] == batches[..j] && init[..j + 1] == batches[..j + 1];
    }
  }

  lemma {:induction false} TotalCostAppend(a: seq<Chunk>, b: seq<Chunk>)
    ensures TotalCost(a + b) == TotalCost(a) + TotalCost(b)
  {
    if b == [] {
      assert a + b == a;
    } else {
      assert (a + b)[..|a + b| - 1] == a + b[..|b| - 1];
      TotalCostAppend(a, b[..|b| - 1]);
    }
  }

  ghost predicate NonNegative(chunks: seq<Chunk>) {
    forall i | 0 <= i < |chunks| :: Cost(chunks[i]) >= 0
  }

  lemma {:induction false} TotalCostNonNegative(chunks: seq<Chunk>)
    requires NonNegative(chunks)
    ensures TotalCost(chunks) >= 0
  {
    if chunks != [] {
      TotalCostNonNegative(chunks[..|chunks| - 1]);
    }
  }

  /** A wider stretch costs at least as much. */
  lemma WiderCostsMore(chunks: seq<Chunk>, a: nat, b: nat, c: nat, d: nat)
    requires a <= b <= c <= d <= |chunks| && NonNegative(chunks)
    ensures TotalCost(chunks[b..c]) <= TotalCost(chunks[a..d])
  {
    assert chunks[a..d] == chunks[a..b] + chunks[b..c] + chunks[c..d];
    TotalCostAppend(chunks[a..b] + chunks[b..c], chunks[c..d]);
    TotalCostAppend(chunks[a..b], chunks[b..c]);
    TotalCostNonNegative(chunks[a..b]);
    TotalCostNonNegative(chunks[c..d]);
  }

  /** A stretch that holds a greedy batch and the next chunk is over the budget. */
  lemma OverBudget(greedy: seq<seq<Chunk>>, chunks: seq<Chunk>, budget: int, j: nat, a: nat, d: nat)
    requires Flatten(greedy) == chunks && Greedy(greedy, budget) && NonNegative(chunks) && j < |greedy| - 1
    requires a <= Covered(greedy, j) && Covered(greedy, j + 1) < d <= |chunks|
    ensures TotalCost(chunks[a..d]) > budget
  {
    BatchAt(greedy, j);
    BatchAt(greedy, j + 1);
    assert Tight(greedy, budget, j);
    var lo, hi := Covered(greedy, j), Covered(greedy, j + 1);
    var next := [greedy[j + 1][0]];
    assert chunks[lo..hi + 1] == greedy[j] + next;
    TotalCostAppend(greedy[j], next);
    assert next[..0] == [];
    WiderCostsMore(chunks, a, lo, hi + 1, d);
  }

  /** Greedy stays ahead: after equally many batches it covers at least as much as any partition. */
  lemma {:induction false} StaysAhead(greedy: seq<seq<Chunk>>, other: seq<seq<Chunk>>, chunks: seq<Chunk>,
                                      budget: int, j: nat)
    requires Partition(greedy, chunks, budget) && Greedy(greedy, budget) && Partition(other, chunks, budget)
    requires NonNegative(chunks) && j <= |greedy| && j <= |other|
    ensures Covered(greedy, j) >= Covered(other, j)
  {
    if j > 0 {
      StaysAhead(greedy, other, chunks, budget, j - 1);
      BatchAt(other, j - 1);
      if j == |greedy| {
        CoveredPrefix(greedy, j);
        assert greedy[..j] == greedy;
      } else if Covered(greedy, j) < Covered(other, j) {
        BatchAt(greedy, j - 1);
        assert Acceptable(greedy[j - 1], budget) && Acceptable(other[j - 1], budget);
        OverBudget(greedy, chunks, budget, j - 1, Covered(other, j - 1), Covered(other, j));
      }
    }
  }

  /** No partition into acceptable batches uses fewer batches than a greedy one. */
  lemma GreedyIsOptimal(greedy: seq<seq<Chunk>>, other: seq<seq<Chunk>>, chunks: seq<Chunk>, budget: int)
    requires Partition(greedy, chunks, budget) && Greedy(greedy, budget) && Partition(other, chunks, budget)
    requires NonNegative(chunks)
    ensures |greedy| <= |other|
  {
    if |other| < |greedy| {
      assert Acceptable(greedy[|other|], budget);
      BatchAt(greedy, |other|);
      assert other[..|other|] == other;
      CoveredPrefix(other, |other|);
      StaysAhead(greedy, other, chunks, budget, |other|);
    }
  }

  /** One turn of the loop, on values. */
  lemma {:induction false} Turn(out: seq<seq<Chunk>>, current: seq<Chunk>, c: Chunk, budget: int)
    requires current != [] && Greedy(out + [current], budget)
    ensures TotalCost(current) + Cost(c) > budget ==> Greedy(out + [current] + [[c]], budget)
    ensures Greedy(out + [current + [c]], budget)
  {
    var before, split, grown := out + [current], out + [current] + [[c]], out + [current + [c]];
    forall j: nat | j < |split| - 1 && TotalCost(current) + Cost(c) > budget ensures Tight(split, budget, j) {
      assert j < |before| - 1 ==> Tight(before, budget, j);
    }
    forall j: nat | j < |grown| - 1 ensures Tight(grown, budget, j) {
      assert Tight(before, budget, j);
    }
  }

  lemma {:induction false} FlattenAppend(out: seq<seq<Chunk>>, batch: seq<Chunk>)
    ensures Flatten(out + [batch]) == Flatten(out) + batch
  {
    assert (out + [batch])[..|out|] == out;
  }

  lemma {:induction false} CostAppend(current: seq<Chunk>, c: Chunk)
    ensures TotalCost(current + [c]) == TotalCost(current) + Cost(c)
  {
    assert (current + [c])[..|current|] == current;
  }

  /** The batches closed so far, and the current one, over the first `k` chunks. */
  ghost predicate Batching(chunks: seq<Chunk>, k: nat, budget: int, out: seq<seq<Chunk>>, current: seq<Chunk>) {
    && k <= |chunks| && Flatten(out) + current == chunks[..k]
    && (current == [] ==> out == [] && k == 0)
    && (current != [] ==> Acceptable(current, budget) && Greedy(out + [current], budget))
    && forall j | 0 <= j < |out| :: Acceptable(out[j], budget)
  }

  lemma OneMoreCovered(flat: seq<Chunk>, current: seq<Chunk>, chunks: seq<Chunk>, k: nat)
    requires k < |chunks| && flat + current == chunks[..k]
    ensures flat + (current + [chunks[k]]) == chunks[..k + 1]
    ensures flat + current + [chunks[k]] == chunks[..k + 1]
  {
    assert chunks[..k + 1] == chunks[..k] + [chunks[k]];
    assert flat + (current + [chunks[k]]) == flat + current + [chunks[k]];
  }

  /** The next chunk does not fit: the current batch is closed. */
  lemma {:induction false} BatchCloses(chunks: seq<Chunk>, k: nat, budget: int, out: seq<seq<Chunk>>,
                                       current: seq<Chunk>)
    requires k < |chunks| && Batching(chunks, k, budget, out, current)
    requires current != [] && TotalCost(current) + Cost(chunks[k]) > budget
    ensures Batching(chunks, k + 1, budget, out + [current], [chunks[k]])
  {
    Turn(out, current, chunks[k], budget);
    FlattenAppend(out, current);
    OneMoreCovered(Flatten(out), current, chunks, k);
  }

  /** The next chunk joins the current batch. */
  lemma {:induction false} BatchGrows(chunks: seq<Chunk>, k: nat, budget: int, out: seq<seq<Chunk>>,
                                      current: seq<Chunk>)
    requires k < |chunks| && Batching(chunks, k, budget, out, current)
    requires current == [] || TotalCost(current) + Cost(chunks[k]) <= budget
    ensures Batching(chunks, k + 1, budget, out, current + [chunks[k]])
  {
    CostAppend(current, chunks[k]);
    OneMoreCovered(Flatten(out), current, chunks, k);
    if current != [] {
      Turn(out, current, chunks[k], budget);
    } else {
      assert current + [chunks[k]] == [chunks[k]];
    }
  }

  lemma BatchesDone(chunks: seq<Chunk>, budget: int, out: seq<seq<Chunk>>, current: seq<Chunk>)
    requires Batching(chunks, |chunks|, budget, out, current)
    ensures var all := if current == [] then out else out + [current];
            Partition(all, chunks, budget) && Greedy(all, budget)
  {
    assert chunks[..|chunks|] == chunks;
    FlattenAppend(out, current);
  }

  /** The loop: start a new batch whenever the next chunk does not fit the current one. */
  method SplitByTokenBudget(chunks: seq<Chunk>, budget: int) returns (out: seq<seq<Chunk>>)
    ensures Partition(out, chunks, budget)
    ensures NonNegative(chunks) ==>
              forall other | Partition(other, chunks, budget) :: |out| <= |other|
  {
    out := [];
    var current: seq<Chunk> := [];
    var running := 0;
    for k := 0 to |chunks|
      invariant Batching(chunks, k, budget, out, current) && running == TotalCost(current)
    {
      var c := chunks[k];
      var cost := c.tokenCount.GetOr(c.roughTokens);
      if |current| > 0 && running + cost > budget {
        BatchCloses(chunks, k, budget, out, current);
        CostAppend([], c);
        out := out + [current];
        current := [];
        running := 0;
        assert current + [c] == [c];
      } else {
        BatchGrows(chunks, k, budget, out, current);
        CostAppend(current, c);
      }
      current := current + [c];
      running := running + cost;
    }
    BatchesDone(chunks, budget, out, current);
    if |current| > 0 {
      out := out + [current];
    }
    if NonNegative(chunks) {
      forall other | Partition(other, chunks, budget) ensures |out| <= |other| {
        GreedyIsOptimal(out, other, chunks, budget);
      }
    }
  }
}
