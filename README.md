# Flash-sale merge engine (SeckillDemo), modelled in Dafny

`SeckillDemo` protects one scarce counter, `stock` (10 units at start), from
many concurrent buyers. Each buyer's `operate` call wraps its `UserRequest` in a
`RequestPromise` and offers it to a bounded queue of capacity 10. It is told
"系统繁忙" (system busy) when the queue is full. A single merge thread drains
the queue in FIFO order and adds up the counts of the drained batch. When the
sum fits in stock, it grants everything. Otherwise it walks the batch in
drain order: each request whose count fits in the stock left at that moment is
granted, and every other one is declined with "库存不足" (insufficient stock).
The merge thread writes a `Result` into every drained promise. The buyer then
reports that result, or "等待超时" (wait timed out) when no result had been
written when its wait ended.

The project has two modules:

- `Allocation` (allocation.dfy) is the decision rule as pure functions.
  `Allocate` is one batch's decision: the all-granted fast path or the walk
  `Greedy`. Lemmas state what the decision means: what each entry is decided
  against, that stock is conserved, and that the fast path agrees with the walk.
- `Seckill` (seckill.dfy) is the engine as imperative code. It holds the
  `Result` and `UserRequest` values and the `RequestPromise` class, whose
  `result` cell is written in place. The class `SeckillDemo` holds `stock`, the
  `queue` of promises, and a ghost running total of everything granted. Its
  invariant `Valid()` says four things: stock is never negative, stock is the
  initial stock minus everything granted, the queue holds at most 10
  distinct promises, and no queued promise has a result yet.
  - `Submit` is the enqueue half of `operate`.
  - `ProcessBatch` is one iteration of the merge loop, with explicit loops for
    draining the queue and writing the results. It is proved against
    `Allocate`.
  - `Outcome` is `operate`'s final choice of what to report.
  - `Operate` puts these together: submit, optionally run one consumer
    iteration, then report.

A first-come-first-served rule is easily read as "the granted requests of an
over-subscribed batch form the longest FIFO prefix that fits". The code does
not do that: it keeps walking after a decline, so a later, smaller request can
still be granted (SeckillDemo.java:150-157). The model follows the code. `Allocation.LaterSmallerRequestGranted` shows the difference: with 3 in
stock and counts [5, 1], the first request is declined and the second granted.

The source never checks that a count is positive. With a negative count, the
two branches of the merge loop can decide differently
(`Allocation.NegativeCountSplitsBranches`). With non-negative counts they
always agree (`Allocation.FastPathMatchesWalk`). The model keeps the code's two
branches, so it is faithful for every count.

## Model

| member | source | states |
|---|---|---|
| `Allocation.Sum` | src/main/java/com/example/common_demo/seckill/SeckillDemo.java:135 | the stream sum of the batch's counts that `ProcessBatch` compares with stock; a batch of non-negative counts never asks for a negative total, so the all-granted branch can only lower stock |
| `Allocation.Greedy` | src/main/java/com/example/common_demo/seckill/SeckillDemo.java:150-157 | the walk decides every entry of the batch (one flag per request), and it never takes stock below zero when it starts at zero or more |
| `Allocation.Allocate` | src/main/java/com/example/common_demo/seckill/SeckillDemo.java:135-161 | one decision per request. Stock stays non-negative. The stock taken equals the sum of the granted counts. When the sum fits, everything is granted and stock drops by exactly the sum. Otherwise the decision is the per-entry walk |
| `Allocation.AllGrantedSum` | src/main/java/com/example/common_demo/seckill/SeckillDemo.java:135-138 | granting every request of a batch takes exactly the batch's count sum |
| `Allocation.GreedyConservesStock` | src/main/java/com/example/common_demo/seckill/SeckillDemo.java:150-157 | the walk lowers stock by exactly the sum of the counts it grants |
| `Allocation.GreedyStockStep` | src/main/java/com/example/common_demo/seckill/SeckillDemo.java:151-153 | visiting one more entry lowers the remaining stock by its count if it fits, and leaves it alone otherwise |
| `Allocation.GreedyDecides` | src/main/java/com/example/common_demo/seckill/SeckillDemo.java:150-157 | entry i is granted iff its count is at most the stock left after entries 0..i-1 |
| `Allocation.GreedyPrefix` | src/main/java/com/example/common_demo/seckill/SeckillDemo.java:150-161 | later entries never change the decisions already made for earlier ones: the walk over a prefix decides as the walk over the whole batch does |
| `Allocation.GreedyVisitsInOrder` | src/main/java/com/example/common_demo/seckill/SeckillDemo.java:150-157 | the stock entry i is checked against is the initial stock minus what entries 0..i-1 were granted, and entry i is granted iff its count fits in it; a decline does not stop the walk |
| `Allocation.GreedyGrantsAll` | src/main/java/com/example/common_demo/seckill/SeckillDemo.java:135-157 | with non-negative counts whose sum fits in stock, the walk grants every entry and leaves stock minus the sum |
| `Allocation.FastPathMatchesWalk` | src/main/java/com/example/common_demo/seckill/SeckillDemo.java:137-161 | with non-negative counts the all-granted branch and the per-entry walk make the same decision |
| `Allocation.LaterSmallerRequestGranted` | src/main/java/com/example/common_demo/seckill/SeckillDemo.java:150-157 | with 3 in stock and counts [5, 1], the first request is declined and the later one granted, leaving 2. The granted set is not a FIFO prefix |
| `Allocation.NegativeCountSplitsBranches` | src/main/java/com/example/common_demo/seckill/SeckillDemo.java:135-157 | with 3 in stock and counts [5, -3], the sum fits and both requests are granted (stock 1). The walk alone would decline the first request (stock 6) |
| `Allocation.UnitRequestsFirstComeFirstServed` | src/main/java/com/example/common_demo/seckill/SeckillDemo.java:137-161 | for n requests of one unit each, exactly the first min(n, stock) in drain order are granted, and stock ends at max(stock - n, 0) |
| `Seckill.BatchResult` | src/main/java/com/example/common_demo/seckill/SeckillDemo.java:140-157 | the merge thread writes only "ok" (success) or "库存不足" (failure), and success is exactly the grant |
| `Seckill.Outcome` | src/main/java/com/example/common_demo/seckill/SeckillDemo.java:85-101 | a refused enqueue reports "系统繁忙". A request with no result written reports "等待超时". Otherwise the written result is reported unchanged |
| `Seckill.OutcomeSuccess` | src/main/java/com/example/common_demo/seckill/SeckillDemo.java:85-101 | a buyer is told success iff its request was enqueued and the merge thread granted it |
| `Seckill.Counts` | src/main/java/com/example/common_demo/seckill/SeckillDemo.java:135 | the batch's counts, one per drained promise, in drain order |
| `Seckill.RequestPromise.constructor` | src/main/java/com/example/common_demo/seckill/SeckillDemo.java:171-173 | a new promise carries its request and no result yet |
| `Seckill.SeckillDemo.Valid` | src/main/java/com/example/common_demo/seckill/SeckillDemo.java:48-50 | the class invariant: stock is at least 0 and equals the initial 10 minus everything granted, the queue holds at most its capacity of 10 distinct promises, and none of them has a result yet |
| `Seckill.SeckillDemo.constructor` | src/main/java/com/example/common_demo/seckill/SeckillDemo.java:48-50 | the engine starts with 10 in stock, an empty queue and nothing granted, and satisfies the invariant |
| `Seckill.SeckillDemo.Submit` | src/main/java/com/example/common_demo/seckill/SeckillDemo.java:82-88 | a fresh promise without a result is appended to the queue iff fewer than 10 are queued. A full queue and stock are left unchanged |
| `Seckill.SeckillDemo.ProcessBatch` | src/main/java/com/example/common_demo/seckill/SeckillDemo.java:107-163 | keeps the invariant and leaves the queue empty. The new stock is `Allocate`'s on the drained batch. Every drained promise holds the result for its own decision. The running granted total grows by exactly the granted counts. An empty queue changes nothing |
| `Seckill.SeckillDemo.Drain` | src/main/java/com/example/common_demo/seckill/SeckillDemo.java:128-131 | the batch is the whole queue in FIFO order (at most 10 entries under the invariant), and the queue is left empty |
| `Seckill.SeckillDemo.GrantAll` | src/main/java/com/example/common_demo/seckill/SeckillDemo.java:137-147 | every promise of the batch holds Result(true, "ok") |
| `Seckill.SeckillDemo.DecideInOrder` | src/main/java/com/example/common_demo/seckill/SeckillDemo.java:149-162 | the returned stock and each promise's result are those of the walk `Greedy` over the batch's counts |
| `Seckill.SeckillDemo.Operate` | src/main/java/com/example/common_demo/seckill/SeckillDemo.java:56-102 | a full queue reports "系统繁忙" and changes neither the queue, stock, nor any queued promise. If the merge thread ran before the wait ended, the queue is empty, stock is `Allocate`'s, this buyer's report is the decision for its position in the batch, and every earlier buyer in the batch holds its own decision. If it did not run, the report is "等待超时", the request stays queued at the tail in a new promise without a result, so a later merge iteration can still decide it, the earlier queued promises are untouched and stock is unchanged |

## Left out

- Threads, `synchronized`, `wait(200)`/`notify` and the merge thread's `Thread.sleep(10)` polling are not modelled. An empty queue makes `ProcessBatch` a no-op, which stands for one polling round.
- `Seckill.SeckillDemo.Operate`: whether the merge thread ran between the enqueue and the end of the wait is the parameter `resolvedInTime`, standing for exactly one consumer iteration. Other buyers' requests arriving in between, or several iterations, are not modelled.
- Monitors are not modelled. The source enqueues inside `synchronized (requestPromise)` (SeckillDemo.java:84-100), and the merge thread's `notify` must take the same monitor, so a notify cannot come before the buyer's `wait`. Only `setResult` runs outside the monitor, and the null check after the wait sees it.
- `Seckill.SeckillDemo.Drain`: the source reads `queue.size()` and then polls that many entries while producers may still be adding. In this sequential model the batch is therefore the whole queue.
- The "被中断" (interrupted) result on `InterruptedException` and the stack-trace printing in the merge loop are not modelled. Both are thread interruption, which does not exist here.
- The 100 ms offer timeout is not modelled. Without a concurrent consumer, a queue full at the offer stays full, so the offer fails exactly when 10 entries are held.
- `main` is a harness that uses an executor, a latch and futures, and prints. It is not part of this model. The unit-request lemma covers its 10-buyers scenario.
- Logging, `toString`, getters and setters are not modelled. `setUserRequest` is never called, so a promise's request is a constant.
- Java `int` overflow in the stream sum and in `stock -= ...` is not modelled: counts and stock are unbounded integers. A `null` count, which would throw, is not modelled either.
- "Exactly once" is stated without a write history: `Valid()` says every queued promise has no result, `ProcessBatch` gives each drained promise a result in one loop visit, and the queue is left empty so no promise is drained again.
