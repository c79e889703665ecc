/** The consumer side of a shuffle: the page queue, the sources that fill it and the client. */
module Exchanges {
  import opened Options

  /** A serialized page of one source. */
  datatype Page = Page(source: nat, size: nat, content: int)

  function Bytes(pages: seq<Page>): nat {
    if pages == [] then 0 else Bytes(pages[..|pages| - 1]) + pages[|pages| - 1].size
  }

  lemma {:induction false} BytesOfFirst(pages: seq<Page>)
    requires pages != []
    ensures Bytes(pages) == pages[0].size + Bytes(pages[1..])
  {
    if |pages| == 1 {
    } else {
      BytesOfFirst(pages[..|pages| - 1]);
      assert pages[..|pages| - 1][1..] == pages[1..][..|pages| - 2];
    }
  }

  // ------------------------------------------------------------------------------------------------
  // The queue
  // ------------------------------------------------------------------------------------------------

  /** `promises` are the consumers that wait for data, each with one future. */
  datatype QueueState = QueueState(
    queue: seq<Page>,
    promises: seq<nat>,
    totalBytes: int,
    numCompleted: nat,
    numSources: nat,
    noMoreSources: bool,
    atEnd: bool,
    failed: bool)

  const EMPTY_QUEUE := QueueState([], [], 0, 0, 0, false, false, false)

  datatype Dequeued = GotPage(page: Page) | AtEnd | Wait | Failed

  /** One page: the last waiting consumer, if any, is resumed. */
  function WithPage(q: QueueState, page: Page): QueueState {
    q.(queue := q.queue + [page], totalBytes := q.totalBytes + page.size,
       promises := if q.promises == [] then [] else q.promises[..|q.promises| - 1])
  }

  function Resumed(q: QueueState): seq<nat> {
    if q.promises == [] then [] else [q.promises[|q.promises| - 1]]
  }

  predicate Complete(q: QueueState) {
    q.noMoreSources && q.numCompleted == q.numSources
  }

  /** At the end everybody is resumed. */
  function Checked(q: QueueState): QueueState {
    if Complete(q) then q.(atEnd := true, promises := []) else q
  }

  function WithEnd(q: QueueState): QueueState {
    Checked(q.(numCompleted := q.numCompleted + 1))
  }

  function Taken(q: QueueState, consumer: nat): QueueState {
    if q.failed then q
    else if q.queue == [] then (if q.atEnd then q else q.(promises := q.promises + [consumer]))
    else q.(queue := q.queue[1..], totalBytes := q.totalBytes - q.queue[0].size)
  }

  function TakenResult(q: QueueState): Dequeued {
    if q.failed then Failed
    else if q.queue == [] then (if q.atEnd then AtEnd else Wait)
    else GotPage(q.queue[0])
  }

  class ExchangeQueue {
    var queue: seq<Page>
    var promises: seq<nat>
    var totalBytes: int
    var numCompleted: nat
    var numSources: nat
    var noMoreSources: bool
    var atEnd: bool
    var failed: bool

    ghost function State(): QueueState
      reads this
    {
      QueueState(queue, promises, totalBytes, numCompleted, numSources, noMoreSources, atEnd, failed)
    }

    constructor ()
      ensures State() == EMPTY_QUEUE
    {
      queue, promises, totalBytes, numCompleted, numSources := [], [], 0, 0, 0;
      noMoreSources, atEnd, failed := false, false, false;
    }

    /** `enqueueLocked`: no page is the end marker of a source. */
    method Enqueue(page: Option<Page>) returns (resumed: seq<nat>)
      modifies this
      ensures page.Some? ==> State() == WithPage(old(State()), page.value) && resumed == Resumed(old(State()))
      ensures page.None? ==> State() == WithEnd(old(State())) && resumed + promises == old(promises)
      ensures page.Some? ==>
                && queue == old(queue) + [page.value] && totalBytes == old(totalBytes) + page.value.size
                && promises + resumed == old(promises) && |resumed| == (if old(promises) == [] then 0 else 1)
                && numCompleted == old(numCompleted) && atEnd == old(atEnd)
      ensures page.None? ==>
                && numCompleted == old(numCompleted) + 1 && queue == old(queue) && totalBytes == old(totalBytes)
                && if noMoreSources && numCompleted == numSources then atEnd && promises == []
                   else atEnd == old(atEnd) && promises == old(promises)
    {
      resumed := [];
      if page.None? {
        numCompleted := numCompleted + 1;
        resumed := CheckComplete();
        return;
      }
      totalBytes := totalBytes + page.value.size;
      queue := queue + [page.value];
      if promises != [] {
        resumed := [promises[|promises| - 1]];
        promises := promises[..|promises| - 1];
      }
    }

    method CheckComplete() returns (resumed: seq<nat>)
      modifies this
      ensures State() == Checked(old(State())) && resumed + promises == old(promises)
    {
      resumed := [];
      if noMoreSources && numCompleted == numSources {
        atEnd := true;
        resumed, promises := promises, [];
      }
    }

    /** `dequeueLocked`. */
    method Dequeue(consumer: nat) returns (result: Dequeued)
      modifies this
      ensures State() == Taken(old(State()), consumer) && result == TakenResult(old(State()))
      ensures result.GotPage? <==> !old(failed) && old(queue) != []
      ensures result.GotPage? ==>
                && old(queue) == [result.page] + queue && totalBytes == old(totalBytes) - result.page.size
                && promises == old(promises)
      ensures result.Wait? <==> !old(failed) && old(queue) == [] && !old(atEnd)
      ensures result.Wait? ==> promises == old(promises) + [consumer] && queue == []
      ensures result.Failed? <==> old(failed)
    {
      if failed {
        return Failed;
      }
      if queue == [] {
        if atEnd {
          result := AtEnd;
        } else {
          promises := promises + [consumer];
          result := Wait;
        }
        return;
      }
      var page := queue[0];
      queue := queue[1..];
      totalBytes := totalBytes - page.size;
      result := GotPage(page);
    }

    method AddSource() returns (r: Result<()>)
      modifies this
      ensures r.CheckFailed? <==> old(noMoreSources)
      ensures State() == if r.CheckFailed? then old(State()) else old(State()).(numSources := old(numSources) + 1)
    {
      if noMoreSources {
        return CheckFailed;
      }
      numSources := numSources + 1;
      r := Success(());
    }

    method NoMoreSources() returns (resumed: seq<nat>)
      modifies this
      ensures State() == Checked(old(State()).(noMoreSources := true)) && resumed + promises == old(promises)
    {
      noMoreSources := true;
      resumed := CheckComplete();
    }

    /** The queue is cleared, its byte count is not. */
    method SetError() returns (resumed: seq<nat>)
      modifies this
      ensures old(failed) ==> State() == old(State()) && resumed == []
      ensures !old(failed) ==>
        State() == old(State()).(failed := true, atEnd := true, queue := [], promises := []) && resumed == old(promises)
    {
      if failed {
        return [];
      }
      failed, atEnd, queue := true, true, [];
      resumed, promises := promises, [];
    }

    method Close() returns (resumed: seq<nat>)
      modifies this
      ensures State() == old(State()).(queue := [], promises := []) && resumed == old(promises)
    {
      queue := [];
      resumed, promises := promises, [];
    }
  }

  /** After an error or a close the byte count is right only if it was zero: it is never reset. */
  lemma ClearingKeepsBytesIff(q: QueueState)
    requires q.totalBytes == Bytes(q.queue)
    ensures var closed := q.(queue := [], promises := []);
            closed.totalBytes == Bytes(closed.queue) <==> forall i :: 0 <= i < |q.queue| ==> q.queue[i].size == 0
  {
    NoBytesIff(q.queue);
  }

  lemma {:induction false} NoBytesIff(pages: seq<Page>)
    ensures Bytes(pages) == 0 <==> forall i :: 0 <= i < |pages| ==> pages[i].size == 0
  {
    if pages == [] {
    } else {
      NoBytesIff(pages[..|pages| - 1]);
    }
  }

  // ------------------------------------------------------------------------------------------------
  // A source
  // ------------------------------------------------------------------------------------------------

  function WithPages(q: QueueState, pages: seq<Page>, n: nat): QueueState
    requires n <= |pages|
  {
    if n == 0 then q else WithPage(WithPages(q, pages, n - 1), pages[n - 1])
  }

  /** The pages of a response without the first `extra` items and without end markers. */
  function PagesOf(data: seq<Option<Page>>, extra: nat, n: nat): seq<Page>
    requires extra <= n <= |data|
  {
    if n == extra then []
    else PagesOf(data, extra, n - 1) + if data[n - 1].Some? then [data[n - 1].value] else []
  }

  predicate HasEnd(data: seq<Option<Page>>, extra: nat) {
    exists i :: extra <= i < |data| && data[i].None?
  }

  class LocalExchangeSource {
    var sequence: nat
    var requestPending: bool
    var atEnd: bool
    const queue: ExchangeQueue

    constructor (queue: ExchangeQueue)
      ensures this.queue == queue && sequence == 0 && !requestPending && !atEnd
    {
      this.queue := queue;
      sequence, requestPending, atEnd := 0, false, false;
    }

    /** Whoever gets true must send the request; nobody else will until the response is in. */
    method ShouldRequest() returns (r: bool)
      modifies this
      ensures r <==> !old(atEnd) && !old(requestPending)
      ensures requestPending == (old(requestPending) || r) && sequence == old(sequence) && atEnd == old(atEnd)
    {
      if atEnd {
        return false;
      }
      r := !requestPending;
      requestPending := true;
    }

    /** The callback of a request for `requested`. Items that came before are dropped; a response that
        has nothing else trips the check. */
    method Receive(requested: nat, data: seq<Option<Page>>, start: nat) returns (r: Result<seq<nat>>)
      modifies this, queue
      ensures r.CheckFailed? <==> start < requested && requested - start >= |data|
      ensures r.CheckFailed? ==>
          && queue.State() == old(queue.State()) && sequence == old(sequence)
          && atEnd == old(atEnd) && requestPending == old(requestPending)
      ensures r.Success? ==>
        var extra := if start < requested then requested - start else 0;
        var pages := PagesOf(data, extra, |data|);
        var q := WithPages(old(queue.State()), pages, |pages|);
        && queue.State() == (if HasEnd(data, extra) then WithEnd(q) else q)
        && sequence == (if start < requested then requested else start) + |pages|
        && atEnd == (old(atEnd) || HasEnd(data, extra)) && !requestPending
    {
      var extra, from := 0, start;
      if start < requested {
        extra := requested - start;
        if extra >= |data| {
          return CheckFailed;
        }
        from := requested;
      }
      var pages: seq<Page> := [];
      var end := false;
      for i := extra to |data|
        invariant pages == PagesOf(data, extra, i)
        invariant end <==> exists k :: extra <= k < i && data[k].None?
      {
        if data[i].None? {
          end := true;
        } else {
          pages := pages + [data[i].value];
        }
      }
      var resumed: seq<nat> := [];
      requestPending := false;
      for i := 0 to |pages|
        invariant queue.State() == WithPages(old(queue.State()), pages, i)
        invariant !requestPending && sequence == old(sequence) && atEnd == old(atEnd)
      {
        var more := queue.Enqueue(Some(pages[i]));
        resumed := resumed + more;
      }
      if end {
        var more := queue.Enqueue(None);
        resumed := resumed + more;
        atEnd := true;
      }
      sequence := from + |pages|;
      r := Success(resumed);
    }
  }
}
