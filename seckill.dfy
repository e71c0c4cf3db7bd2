/** The flash-sale merge engine of SeckillDemo: a bounded queue of pending
    requests, one consumer iteration that drains it and allocates stock, and
    the outcome a submitter reports. Threads, wait/notify and sleeping are not
    modelled; whether the consumer ran before a submitter's wait ended is an
    input of Operate. */
module Seckill {
  import opened Allocation

  datatype Option<T> = None | Some(value: T)

  /** A purchase request; the ids are opaque. */
  datatype UserRequest = UserRequest(orderId: int, userId: int, count: int)

  /** What a submitter is told. */
  datatype Result = Result(success: bool, msg: string)

  /** Capacity of the bounded intake queue. */
  const QueueCapacity: nat := 10
  /** Stock held when the engine is created. */
  const InitialStock: nat := 10

  const Ok := Result(true, "ok")
  const InsufficientStock := Result(false, "库存不足")
  const SystemBusy := Result(false, "系统繁忙")
  const Timeout := Result(false, "等待超时")

  /** The result the consumer writes for a granted or declined request. */
  function BatchResult(granted: bool): (r: Result)
    ensures r.success == granted
    ensures r == Ok || r == InsufficientStock
  {
    if granted then Ok else InsufficientStock
  }

  /** What operate returns once its wait is over: busy when the request never
      entered the queue, timed out when no result was written yet, otherwise
      the written result. */
  function Outcome(enqueued: bool, result: Option<Result>): (r: Result)
    ensures !enqueued ==> r == SystemBusy
    ensures enqueued && result == None ==> r == Timeout
    ensures enqueued && result.Some? ==> r == result.value
  {
    if !enqueued then SystemBusy
    else match result
      case None => Timeout
      case Some(res) => res
  }

  /** A submitter reports success exactly when its request entered the queue
      and the consumer granted it. */
  lemma OutcomeSuccess(enqueued: bool, granted: Option<bool>)
    ensures var written := match granted case None => None case Some(g) => Some(BatchResult(g));
            Outcome(enqueued, written).success <==> enqueued && granted == Some(true)
  {
  }

  /** The pending request paired with the cell its result is written into. */
  class RequestPromise {
    const request: UserRequest
    var result: Option<Result>

    constructor (request: UserRequest)
      ensures this.request == request && result == None
    {
      this.request := request;
      result := None;
    }
  }

  /** The counts of a batch, in drain order. */
  function Counts(batch: seq<RequestPromise>): (counts: seq<int>)
    ensures |counts| == |batch|
    ensures forall i :: 0 <= i < |batch| ==> counts[i] == batch[i].request.count
  {
    seq(|batch|, i requires 0 <= i < |batch| => batch[i].request.count)
  }

  /** Each pending request's promise is queued once, so writing the results
      of a batch in place never overwrites an earlier write of the same batch. */
  ghost predicate Distinct(promises: seq<RequestPromise>)
  {
    forall i, j :: 0 <= i < j < |promises| ==> promises[i] != promises[j]
  }

  class SeckillDemo {
    var stock: int
    var queue: seq<RequestPromise>
    /** Everything granted since creation. */
    ghost var grantedTotal: int

    /** Stock never goes negative and always equals the initial stock minus
        everything granted; the queue holds at most its capacity, each
        promise once, and no queued promise has a result yet. */
    ghost predicate Valid()
      reads this, queue
    {
      stock >= 0 &&
      stock == InitialStock - grantedTotal &&
      |queue| <= QueueCapacity &&
      Distinct(queue) &&
      forall k :: 0 <= k < |queue| ==> queue[k].result == None
    }

    constructor ()
      ensures Valid()
      ensures stock == InitialStock && queue == [] && grantedTotal == 0
    {
      stock := InitialStock;
      queue := [];
      grantedTotal := 0;
    }

    /** The first half of operate: wrap the request in a new promise and
        offer it to the queue, which refuses it when full. */
    method Submit(request: UserRequest) returns (promise: RequestPromise, enqueued: bool)
      requires Valid()
      modifies this
      ensures Valid()
      ensures fresh(promise) && promise.request == request && promise.result == None
      ensures enqueued <==> |old(queue)| < QueueCapacity
      ensures queue == if enqueued then old(queue) + [promise] else old(queue)
      ensures stock == old(stock) && grantedTotal == old(grantedTotal)
    {
      promise := new RequestPromise(request);
      enqueued := |queue| < QueueCapacity;
      if enqueued {
        queue := queue + [promise];
      }
    }

    /** One iteration of the consumer loop: drain the queue in FIFO order,
        decide the batch with Allocate against the current stock, write one
        result into every drained promise and leave the queue empty. An empty
        queue changes nothing. */
    method ProcessBatch()
      requires Valid()
      modifies this, queue
      ensures Valid()
      ensures queue == []
      ensures var d := Allocate(Counts(old(queue)), old(stock));
              stock == d.stock &&
              grantedTotal == old(grantedTotal) + GrantedSum(Counts(old(queue)), d.granted) &&
              forall i :: 0 <= i < |old(queue)| ==> old(queue)[i].result == Some(BatchResult(d.granted[i]))
      ensures old(queue) == [] ==> stock == old(stock) && grantedTotal == old(grantedTotal)
    {
      if |queue| == 0 {
        return;
      }

      var batch := Drain();
      ghost var before := stock;
      ghost var d := Allocate(Counts(batch), stock);
      var sum := Sum(Counts(batch));
      if sum <= stock {
        stock := stock - sum;
        GrantAll(batch);
        assert forall k :: 0 <= k < |batch| ==> d.granted[k];
      } else {
        stock := DecideInOrder(batch, stock);
        assert d == Greedy(Counts(batch), before);
      }
      assert stock == d.stock;
      grantedTotal := grantedTotal + (before - stock);
    }

    /** Take exactly as many entries as the queue holds, oldest first. */
    method Drain() returns (batch: seq<RequestPromise>)
      modifies this`queue
      ensures batch == old(queue) && queue == []
    {
      batch := [];
      var batchSize := |queue|;
      for i := 0 to batchSize
        invariant |batch| == i
        invariant batch + queue == old(queue)
      {
        batch := batch + [queue[0]];
        queue := queue[1..];
      }
    }

    /** The branch where the batch fits in stock: every drained promise is
        told it was granted. */
    static method GrantAll(batch: seq<RequestPromise>)
      modifies batch
      ensures forall k :: 0 <= k < |batch| ==> batch[k].result == Some(Ok)
    {
      for i := 0 to |batch|
        invariant forall k :: 0 <= k < i ==> batch[k].result == Some(Ok)
      {
        batch[i].result := Some(Ok);
      }
    }

    /** The branch where the batch does not fit: visit the promises in drain
        order, granting each one whose count fits in what is left of the
        stock and declining the others; returns the stock left. */
    static method DecideInOrder(batch: seq<RequestPromise>, available: int) returns (left: int)
      requires Distinct(batch)
      modifies batch
      ensures var d := Greedy(Counts(batch), available);
              left == d.stock &&
              forall k :: 0 <= k < |batch| ==> batch[k].result == Some(BatchResult(d.granted[k]))
    {
      ghost var counts := Counts(batch);
      ghost var decided := Greedy(counts, available).granted;
      left := available;
      for i := 0 to |batch|
        invariant left == Greedy(counts[..i], available).stock
        invariant forall k :: 0 <= k < i ==> batch[k].result == Some(BatchResult(decided[k]))
      {
        var count := batch[i].request.count;
        GreedyStockStep(counts, available, i);
        GreedyDecides(counts, available, i);
        if count <= left {
          left := left - count;
          batch[i].result := Some(Ok);
        } else {
          batch[i].result := Some(InsufficientStock);
        }
        assert forall k :: 0 <= k < i ==> batch[k] != batch[i];
      }
      assert counts[..|batch|] == counts;
    }

    /** operate with the consumer folded in: submit the request; when it was
        queued and the consumer ran one iteration before the wait ended
        (resolvedInTime), report the decision for this request's place in
        the batch, otherwise report a timeout. */
    method Operate(request: UserRequest, resolvedInTime: bool) returns (r: Result)
      requires Valid()
      modifies this, queue
      ensures Valid()
      ensures var n := |old(queue)|;
              var d := Allocate(Counts(old(queue)) + [request.count], old(stock));
              r == if n >= QueueCapacity then SystemBusy
                   else if resolvedInTime then BatchResult(d.granted[n])
                   else Timeout
      ensures |old(queue)| >= QueueCapacity ==> queue == old(queue) && stock == old(stock)
      ensures |old(queue)| < QueueCapacity && resolvedInTime ==>
                queue == [] && stock == Allocate(Counts(old(queue)) + [request.count], old(stock)).stock
      ensures |old(queue)| < QueueCapacity && !resolvedInTime ==>
                |queue| == |old(queue)| + 1 && queue[..|old(queue)|] == old(queue) && stock == old(stock)
      ensures |old(queue)| < QueueCapacity && !resolvedInTime ==>
                fresh(queue[|old(queue)|]) &&
                queue[|old(queue)|].request == request && queue[|old(queue)|].result == None
      ensures |old(queue)| >= QueueCapacity || !resolvedInTime ==>
                forall k :: 0 <= k < |old(queue)| ==> old(queue)[k].result == old(queue[k].result)
      ensures |old(queue)| < QueueCapacity && resolvedInTime ==>
                forall k :: 0 <= k < |old(queue)| ==>
                  old(queue)[k].result == Some(BatchResult(Allocate(Counts(old(queue)) + [request.count], old(stock)).granted[k]))
    {
      var promise, enqueued := Submit(request);
      if enqueued && resolvedInTime {
        assert Counts(queue) == Counts(old(queue)) + [request.count];
        ProcessBatch();
      }
      r := Outcome(enqueued, promise.result);
    }
  }
}
