/** Producers, sources and consumers of an exchange as a state machine, without errors and closing. */
module ExchangeProtocols {
  import opened Options
  import opened Exchanges

  /** `log` is everything the producer will ever send to this consumer, in order. */
  datatype Source = Source(log: seq<Page>, sequence: nat, pending: bool, atEnd: bool)

  datatype Consumer = Awake | Asleep | Done

  /** `delivered` are the pages handed to consumers so far. */
  datatype System = System(
    q: QueueState, sources: seq<Source>, consumers: seq<Consumer>, delivered: seq<Page>, minBytes: nat)

  datatype Step =
    | AddSource(log: seq<Page>)
    | NoMoreSources
    | Respond(source: nat, start: nat, count: nat, ends: nat)
    | Next(consumer: nat)
    | SplitArrives(consumer: nat)

  ghost predicate IsInit(s: System) {
    && s.q == EMPTY_QUEUE && s.sources == [] && s.delivered == []
    && |s.consumers| >= 1 && forall c :: 0 <= c < |s.consumers| ==> s.consumers[c] == Awake
  }

  /** The items of a response: `count` pages from `start` on, then end markers. */
  function Data(log: seq<Page>, start: nat, count: nat, ends: nat): (data: seq<Option<Page>>)
    requires start + count <= |log|
    ensures |data| == count + ends
  {
    seq(count + ends, j requires 0 <= j < count + ends => if j < count then Some(log[start + j]) else None)
  }

  /** A producer may start at any item it has sent before, never skips ahead, sends end markers only after
      its last page and answers only with something new. */
  ghost predicate Enabled(s: System, step: Step) {
    match step
    case AddSource(log) => !s.q.noMoreSources && forall k :: 0 <= k < |log| ==> log[k].source == |s.sources|
    case NoMoreSources => true
    case Respond(i, start, count, ends) =>
      && i < |s.sources| && s.sources[i].pending
      && start <= s.sources[i].sequence && start + count <= |s.sources[i].log|
      && (ends > 0 ==> start + count == |s.sources[i].log|)
      && s.sources[i].sequence < start + count + ends
    case Next(c) => c < |s.consumers| && s.consumers[c] == Awake
    // A consumer that waits for data may also wait for splits.
    case SplitArrives(c) => c < |s.consumers| && s.consumers[c] == Asleep
  }

  /** The promises that are gone from the back of the list. */
  function Fulfilled(before: seq<nat>, after: seq<nat>): seq<nat> {
    if |after| <= |before| then before[|after|..] else []
  }

  /** Consumers whose promise has been fulfilled wake up. A consumer that was woken by a split leaves its
      promise behind; fulfilling that one later wakes nobody. */
  function Woken(consumers: seq<Consumer>, fulfilled: seq<nat>): (r: seq<Consumer>)
    ensures |r| == |consumers|
  {
    seq(|consumers|, c requires 0 <= c < |consumers| =>
      if consumers[c] == Asleep && c in fulfilled then Awake else consumers[c])
  }

  function AllRequested(sources: seq<Source>): (r: seq<Source>)
    ensures |r| == |sources|
  {
    seq(|sources|, i requires 0 <= i < |sources| => sources[i].(pending := sources[i].pending || !sources[i].atEnd))
  }

  function Received(q: QueueState, pages: seq<Page>, end: bool): QueueState {
    var q' := WithPages(q, pages, |pages|);
    if end then WithEnd(q') else q'
  }

  function Answered(source: Source, sequence: nat, atEnd: bool): Source {
    source.(sequence := sequence, pending := false, atEnd := atEnd)
  }

  ghost function Apply(s: System, step: Step): System
    requires Enabled(s, step)
  {
    match step
    case AddSource(log) =>
      s.(sources := s.sources + [Source(log, 0, true, false)], q := s.q.(numSources := s.q.numSources + 1))
    case NoMoreSources =>
      var q := Checked(s.q.(noMoreSources := true));
      s.(q := q, consumers := Woken(s.consumers, Fulfilled(s.q.promises, q.promises)))
    case Respond(i, start, count, ends) =>
      var source := s.sources[i];
      var data := Data(source.log, start, count, ends);
      var extra := source.sequence - start;
      var pages := PagesOf(data, extra, |data|);
      var q := Received(s.q, pages, HasEnd(data, extra));
      s.(q := q, consumers := Woken(s.consumers, Fulfilled(s.q.promises, q.promises)),
         sources := s.sources[i := Answered(source, source.sequence + |pages|, HasEnd(data, extra))])
    case Next(c) =>
      Taking(s, c)
    case SplitArrives(c) => s.(consumers := s.consumers[c := Awake])
  }

  /** One call of `next`. */
  ghost function Taking(s: System, c: nat): System
    requires c < |s.consumers|
  {
    var q := Taken(s.q, c);
    match TakenResult(s.q)
    case GotPage(page) =>
      s.(q := q, delivered := s.delivered + [page],
         sources := if q.totalBytes > s.minBytes then s.sources else AllRequested(s.sources))
    case Wait => s.(q := q, consumers := s.consumers[c := Asleep], sources := AllRequested(s.sources))
    case AtEnd => s.(consumers := s.consumers[c := Done])
    case Failed => s
  }

  // ------------------------------------------------------------------------------------------------
  // Helpers on pages
  // ------------------------------------------------------------------------------------------------

  /** The pages of source `i` among the first `n`. */
  function OfSourceUpTo(pages: seq<Page>, i: nat, n: nat): seq<Page>
    requires n <= |pages|
  {
    if n == 0 then []
    else OfSourceUpTo(pages, i, n - 1) + if pages[n - 1].source == i then [pages[n - 1]] else []
  }

  function OfSource(pages: seq<Page>, i: nat): seq<Page> {
    OfSourceUpTo(pages, i, |pages|)
  }

  lemma {:induction false} FirstPart(a: seq<Page>, b: seq<Page>, i: nat, n: nat)
    requires n <= |a|
    ensures OfSourceUpTo(a + b, i, n) == OfSourceUpTo(a, i, n)
  {
    if n == 0 {
    } else {
      FirstPart(a, b, i, n - 1);
    }
  }

  /** More pages of source `i` come behind those that it has. */
  lemma {:induction false} MoreOfSource(a: seq<Page>, b: seq<Page>, i: nat, k: nat, n: nat)
    requires n <= |b| && forall j :: 0 <= j < |b| ==> b[j].source == i
    ensures OfSourceUpTo(a + b, k, |a| + n) == if k == i then OfSource(a, k) + b[..n] else OfSource(a, k)
  {
    if n == 0 {
      FirstPart(a, b, k, |a|);
    } else {
      MoreOfSource(a, b, i, k, n - 1);
      assert (a + b)[|a| + n - 1] == b[n - 1];
      assert b[..n] == b[..n - 1] + [b[n - 1]];
    }
  }

  /** What is left of a response after dropping duplicates and end markers is the next piece of the log. */
  lemma {:induction false} NewPages(log: seq<Page>, start: nat, count: nat, ends: nat, extra: nat, n: nat)
    requires start + count <= |log| && extra <= count && extra <= n <= count + ends
    ensures PagesOf(Data(log, start, count, ends), extra, n)
        == log[start + extra..start + if n < count then n else count]
  {
    if n == extra {
    } else {
      NewPages(log, start, count, ends, extra, n - 1);
      var data := Data(log, start, count, ends);
      if n <= count {
        assert data[n - 1] == Some(log[start + n - 1]);
        assert log[start + extra..start + n] == log[start + extra..start + n - 1] + [log[start + n - 1]];
      } else {
        assert data[n - 1] == None;
      }
    }
  }

  lemma EndIffMarkers(log: seq<Page>, start: nat, count: nat, ends: nat, extra: nat)
    requires start + count <= |log| && extra <= count
    ensures HasEnd(Data(log, start, count, ends), extra) <==> ends > 0
  {
    if ends > 0 {
      assert Data(log, start, count, ends)[count] == None;
    }
  }

  lemma {:induction false} BytesAppend(a: seq<Page>, b: seq<Page>)
    ensures Bytes(a + b) == Bytes(a) + Bytes(b)
  {
    if b == [] {
      assert a + b == a;
    } else {
      BytesAppend(a, b[..|b| - 1]);
      assert (a + b)[..|a + b| - 1] == a + b[..|b| - 1];
    }
  }

  /** Enqueuing pages resumes consumers from the back of the list, one per page. */
  lemma {:induction false} WithPagesIs(q: QueueState, pages: seq<Page>, n: nat)
    requires n <= |pages|
    ensures var q' := WithPages(q, pages, n);
            && q' == q.(queue := q.queue + pages[..n],
                        totalBytes := q.totalBytes + Bytes(pages[..n]),
                        promises := q'.promises)
            && q'.promises == q.promises[..if n < |q.promises| then |q.promises| - n else 0]
  {
    if n == 0 {
    } else {
      WithPagesIs(q, pages, n - 1);
      assert pages[..n] == pages[..n - 1] + [pages[n - 1]];
      assert pages[..n][..n - 1] == pages[..n - 1];
    }
  }

  // ------------------------------------------------------------------------------------------------
  // The invariant
  // ------------------------------------------------------------------------------------------------

  ghost function Ended(sources: seq<Source>): nat {
    if sources == [] then 0 else Ended(sources[..|sources| - 1]) + if sources[|sources| - 1].atEnd then 1 else 0
  }

  /** The pages of source `i`, delivered or queued, are the first `sequence` of its log, in order. */
  ghost predicate SourceGood(s: System, i: nat)
    requires i < |s.sources|
  {
    var source := s.sources[i];
    && source.sequence <= |source.log|
    && (forall k :: 0 <= k < |source.log| ==> source.log[k].source == i)
    && OfSource(s.delivered + s.q.queue, i) == source.log[..source.sequence]
    && (source.atEnd ==> source.sequence == |source.log| && !source.pending)
  }

  ghost predicate SourcesGood(s: System) {
    && (forall i :: 0 <= i < |s.sources| ==> SourceGood(s, i))
    && (forall k :: 0 <= k < |s.delivered + s.q.queue| ==> (s.delivered + s.q.queue)[k].source < |s.sources|)
  }

  ghost predicate CountsGood(s: System) {
    && !s.q.failed && s.q.totalBytes == Bytes(s.q.queue)
    && s.q.numSources == |s.sources| && s.q.numCompleted == Ended(s.sources)
    && (s.q.atEnd <==> Complete(s.q))
  }

  ghost predicate SomeAwake(s: System) {
    exists c :: 0 <= c < |s.consumers| && s.consumers[c] == Awake
  }

  ghost predicate SomeDone(s: System) {
    exists c :: 0 <= c < |s.consumers| && s.consumers[c] == Done
  }

  ghost predicate AllAsked(s: System) {
    forall i :: 0 <= i < |s.sources| ==> s.sources[i].atEnd || s.sources[i].pending
  }

  /** Every sleeping consumer has a promise, and no promise belongs to a consumer that is done. */
  ghost predicate PromisesGood(s: System) {
    && (forall c: nat :: c < |s.consumers| && s.consumers[c] == Asleep ==> c in s.q.promises)
    && (forall c: nat :: c in s.q.promises ==> c < |s.consumers| && s.consumers[c] != Done)
  }

  /** A queued page always finds somebody awake, and when all sleep a response is on its way from every
      source that has not ended. */
  ghost predicate ConsumersGood(s: System) {
    && |s.consumers| >= 1
    && PromisesGood(s)
    && (s.q.queue != [] ==> SomeAwake(s))
    && (SomeAwake(s) || AllAsked(s))
    && (SomeDone(s) ==> s.q.atEnd && s.q.queue == [])
    && (s.q.atEnd ==> s.q.promises == [])
  }

  ghost predicate Inv(s: System) {
    SourcesGood(s) && CountsGood(s) && ConsumersGood(s)
  }

  lemma {:induction false} EndedBound(sources: seq<Source>)
    ensures Ended(sources) <= |sources|
    ensures Ended(sources) == |sources| <==> forall i :: 0 <= i < |sources| ==> sources[i].atEnd
  {
    if sources == [] {
    } else {
      EndedBound(sources[..|sources| - 1]);
    }
  }

  lemma {:induction false} EndedUpdate(sources: seq<Source>, i: nat, source: Source)
    requires i < |sources| && !sources[i].atEnd
    ensures Ended(sources[i := source]) == Ended(sources) + if source.atEnd then 1 else 0
  {
    var last := |sources| - 1;
    if i < last {
      EndedUpdate(sources[..last], i, source);
      assert sources[i := source][..last] == sources[..last][i := source];
    } else {
      assert sources[i := source][..last] == sources[..last];
    }
  }

  lemma {:induction false} EndedSame(a: seq<Source>, b: seq<Source>)
    requires |a| == |b| && forall i :: 0 <= i < |a| ==> a[i].atEnd == b[i].atEnd
    ensures Ended(a) == Ended(b)
  {
    if a == [] {
    } else {
      EndedSame(a[..|a| - 1], b[..|b| - 1]);
    }
  }

  // ------------------------------------------------------------------------------------------------
  // Steps keep the invariant
  // ------------------------------------------------------------------------------------------------

  lemma InitGood(s: System)
    requires IsInit(s)
    ensures Inv(s)
  {
    assert s.consumers[0] == Awake;
  }

  lemma AddSourceKeeps(s: System, log: seq<Page>)
    requires Inv(s) && Enabled(s, AddSource(log))
    ensures Inv(Apply(s, AddSource(log)))
  {
    var s' := Apply(s, AddSource(log));
    var n := |s.sources|;
    assert s'.sources[..n] == s.sources;
    EndedBound(s.sources);
    NoPagesOf(s.delivered + s.q.queue, n, |s.delivered + s.q.queue|);
    forall i | 0 <= i < |s'.sources|
      ensures SourceGood(s', i)
    {
      if i < n {
        assert SourceGood(s, i);
      }
    }
    if SomeAwake(s) {
      var c :| 0 <= c < |s.consumers| && s.consumers[c] == Awake;
      assert s'.consumers[c] == Awake;
    }
  }

  lemma {:induction false} NoPagesOf(pages: seq<Page>, i: nat, n: nat)
    requires n <= |pages| && forall k :: 0 <= k < |pages| ==> pages[k].source != i
    ensures OfSourceUpTo(pages, i, n) == []
  {
    if n == 0 {
    } else {
      NoPagesOf(pages, i, n - 1);
    }
  }

  lemma NoMoreSourcesKeeps(s: System)
    requires Inv(s)
    ensures Inv(Apply(s, NoMoreSources))
  {
    var s' := Apply(s, NoMoreSources);
    forall i | 0 <= i < |s'.sources|
      ensures SourceGood(s', i)
    {
      assert SourceGood(s, i);
    }
    WakingKeeps(s, s');
  }

  /** Fulfilling some or all promises keeps what is said about consumers, if nothing is queued anew. */
  lemma WakingKeeps(s: System, s': System)
    requires ConsumersGood(s) && s'.q.queue == s.q.queue && s'.sources == s.sources
    requires s'.consumers == Woken(s.consumers, Fulfilled(s.q.promises, s'.q.promises))
    requires s'.q.promises == s.q.promises || (s'.q.promises == [] && s'.q.atEnd)
    requires s.q.atEnd ==> s'.q.atEnd
    requires s'.q.atEnd ==> s'.q.promises == []
    ensures ConsumersGood(s')
  {
    AwakeStay(s, s');
    PromisesAfter(s, s');
  }

  lemma AwakeStay(s: System, s': System)
    requires s'.consumers == Woken(s.consumers, Fulfilled(s.q.promises, s'.q.promises))
    ensures SomeAwake(s) ==> SomeAwake(s')
    ensures SomeDone(s') ==> SomeDone(s)
  {
    if SomeAwake(s) {
      var c :| 0 <= c < |s.consumers| && s.consumers[c] == Awake;
      assert s'.consumers[c] == Awake;
    }
    if SomeDone(s') {
      var c :| 0 <= c < |s'.consumers| && s'.consumers[c] == Done;
      assert s.consumers[c] == Done;
    }
  }

  /** The piece of the log that a response adds. */
  ghost function NewPart(source: Source, start: nat, count: nat): seq<Page> {
    if source.sequence <= start + count <= |source.log| then source.log[source.sequence..start + count] else []
  }

  lemma ResponseIs(source: Source, start: nat, count: nat, ends: nat)
    requires start <= source.sequence <= start + count <= |source.log|
    ensures var data, extra := Data(source.log, start, count, ends), source.sequence - start;
            && PagesOf(data, extra, |data|) == NewPart(source, start, count)
            && (HasEnd(data, extra) <==> ends > 0)
  {
    NewPages(source.log, start, count, ends, source.sequence - start, count + ends);
    EndIffMarkers(source.log, start, count, ends, source.sequence - start);
  }

  /** The effect of a response in terms of the log. */
  lemma RespondIs(s: System, i: nat, start: nat, count: nat, ends: nat)
    requires Enabled(s, Respond(i, start, count, ends)) && s.sources[i].sequence <= |s.sources[i].log|
    ensures s.sources[i].sequence <= start + count
    ensures var s' := Apply(s, Respond(i, start, count, ends));
            var source := s.sources[i];
            && s'.q == Received(s.q, NewPart(source, start, count), ends > 0)
            && s'.consumers == Woken(s.consumers, Fulfilled(s.q.promises, s'.q.promises))
            && s' == s.(q := s'.q, consumers := s'.consumers,
                        sources := s.sources[i := Answered(source, start + count, ends > 0)])
  {
    ResponseIs(s.sources[i], start, count, ends);
  }

  /** The queue after the pages of a response. */
  lemma PagesIn(q: QueueState, pages: seq<Page>)
    ensures var q' := WithPages(q, pages, |pages|);
            && q' == q.(queue := q.queue + pages, totalBytes := q.totalBytes + Bytes(pages), promises := q'.promises)
            && q'.promises <= q.promises
            && (pages == [] ==> q'.promises == q.promises)
            && (pages != [] && q.promises != [] ==> |q'.promises| < |q.promises|)
  {
    WithPagesIs(q, pages, |pages|);
    assert pages[..|pages|] == pages;
  }

  lemma ReceivedIs(q: QueueState, pages: seq<Page>, end: bool)
    ensures var q' := Received(q, pages, end);
            && q'.queue == q.queue + pages && q'.totalBytes == q.totalBytes + Bytes(pages)
            && q'.numCompleted == q.numCompleted + (if end then 1 else 0) && q'.numSources == q.numSources
            && q'.noMoreSources == q.noMoreSources && q'.failed == q.failed
            && q'.atEnd == (q.atEnd || (end && Complete(q')))
            && q'.promises <= q.promises
            && (end && Complete(q') ==> q'.promises == [])
            && (!(end && Complete(q')) && pages == [] ==> q'.promises == q.promises)
            && (pages != [] && q.promises != [] ==> |q'.promises| < |q.promises|)
  {
    PagesIn(q, pages);
  }

  /** The log of the answering source goes on where it was. */
  lemma OwnPages(source: Source, i: nat, was: seq<Page>, pages: seq<Page>, upTo: nat)
    requires source.sequence <= upTo <= |source.log| && pages == source.log[source.sequence..upTo]
    requires forall k :: 0 <= k < |source.log| ==> source.log[k].source == i
    requires OfSource(was, i) == source.log[..source.sequence]
    ensures OfSource(was + pages, i) == source.log[..upTo]
  {
    MoreOfSource(was, pages, i, i, |pages|);
    assert pages[..|pages|] == pages;
    assert source.log[..source.sequence] + pages == source.log[..upTo];
  }

  lemma SourceAfter(s: System, s': System, i: nat, start: nat, count: nat, ends: nat, k: nat)
    requires i < |s.sources| && SourceGood(s, i) && s.sources[i].sequence <= start + count <= |s.sources[i].log|
    requires ends > 0 ==> start + count == |s.sources[i].log|
    requires s'.sources == s.sources[i := Answered(s.sources[i], start + count, ends > 0)]
    requires s'.delivered == s.delivered && s'.q.queue == s.q.queue + NewPart(s.sources[i], start, count)
    requires k < |s.sources| && SourceGood(s, k)
    ensures SourceGood(s', k)
  {
    var pages, was := NewPart(s.sources[i], start, count), s.delivered + s.q.queue;
    assert s'.delivered + s'.q.queue == was + pages;
    if k == i {
      OwnPages(s.sources[i], i, was, pages, start + count);
    } else {
      MoreOfSource(was, pages, i, k, |pages|);
    }
  }

  lemma PagesKnown(s: System, s': System, pages: seq<Page>)
    requires s'.delivered == s.delivered && s'.q.queue == s.q.queue + pages && |s'.sources| == |s.sources|
    requires forall k :: 0 <= k < |s.delivered + s.q.queue| ==> (s.delivered + s.q.queue)[k].source < |s.sources|
    requires forall k :: 0 <= k < |pages| ==> pages[k].source < |s.sources|
    ensures forall k :: 0 <= k < |s'.delivered + s'.q.queue| ==> (s'.delivered + s'.q.queue)[k].source < |s'.sources|
  {
    KnownSources(s.delivered + s.q.queue, pages, |s.sources|);
    assert s'.delivered + s'.q.queue == (s.delivered + s.q.queue) + pages;
  }

  /** A response, in terms of the log, keeps every source good. */
  lemma AnswerKeepsSources(s: System, s': System, i: nat, start: nat, count: nat, ends: nat)
    requires SourcesGood(s) && i < |s.sources| && s.sources[i].sequence <= start + count <= |s.sources[i].log|
    requires ends > 0 ==> start + count == |s.sources[i].log|
    requires s'.sources == s.sources[i := Answered(s.sources[i], start + count, ends > 0)]
    requires s'.delivered == s.delivered && s'.q.queue == s.q.queue + NewPart(s.sources[i], start, count)
    ensures SourcesGood(s')
  {
    assert SourceGood(s, i);
    forall k | 0 <= k < |s'.sources|
      ensures SourceGood(s', k)
    {
      SourceAfter(s, s', i, start, count, ends, k);
    }
    PagesKnown(s, s', NewPart(s.sources[i], start, count));
  }

  lemma RespondSources(s: System, i: nat, start: nat, count: nat, ends: nat)
    requires Inv(s) && Enabled(s, Respond(i, start, count, ends))
    ensures SourcesGood(Apply(s, Respond(i, start, count, ends)))
  {
    assert SourceGood(s, i);
    RespondIs(s, i, start, count, ends);
    ReceivedIs(s.q, NewPart(s.sources[i], start, count), ends > 0);
    AnswerKeepsSources(s, Apply(s, Respond(i, start, count, ends)), i, start, count, ends);
  }

  lemma KnownSources(was: seq<Page>, pages: seq<Page>, n: nat)
    requires (forall k :: 0 <= k < |was| ==> was[k].source < n) && forall k :: 0 <= k < |pages| ==> pages[k].source < n
    ensures forall k :: 0 <= k < |was + pages| ==> (was + pages)[k].source < n
  {
  }

  lemma CountsAfter(s: System, s': System, i: nat, pages: seq<Page>, source: Source)
    requires CountsGood(s) && !s.q.atEnd && i < |s.sources| && !s.sources[i].atEnd
    requires s'.sources == s.sources[i := source]
    requires s'.q == Received(s.q, pages, source.atEnd)
    ensures CountsGood(s')
  {
    ReceivedIs(s.q, pages, source.atEnd);
    BytesAppend(s.q.queue, pages);
    EndedUpdate(s.sources, i, source);
  }

  lemma RespondCounts(s: System, i: nat, start: nat, count: nat, ends: nat)
    requires Inv(s) && Enabled(s, Respond(i, start, count, ends))
    ensures CountsGood(Apply(s, Respond(i, start, count, ends)))
  {
    var s' := Apply(s, Respond(i, start, count, ends));
    assert SourceGood(s, i);
    RespondIs(s, i, start, count, ends);
    NotAtEnd(s, i);
    CountsAfter(s, s', i, NewPart(s.sources[i], start, count), s'.sources[i]);
  }

  /** A source that can answer has not ended, so the queue is not at its end and nobody is done. */
  lemma NotAtEnd(s: System, i: nat)
    requires Inv(s) && i < |s.sources| && s.sources[i].pending
    ensures !s.q.atEnd && !SomeDone(s)
  {
    assert SourceGood(s, i);
    EndedBound(s.sources);
  }

  lemma RespondConsumers(s: System, i: nat, start: nat, count: nat, ends: nat)
    requires Inv(s) && Enabled(s, Respond(i, start, count, ends))
    ensures ConsumersGood(Apply(s, Respond(i, start, count, ends)))
  {
    var s' := Apply(s, Respond(i, start, count, ends));
    var pages := NewPart(s.sources[i], start, count);
    assert SourceGood(s, i);
    RespondIs(s, i, start, count, ends);
    ReceivedIs(s.q, pages, ends > 0);
    NotAtEnd(s, i);
    AwakeStay(s, s');
    PromisesAfter(s, s');
    if pages != [] {
      PageWakesSomebody(s, s');
    }
  }

  /** When pages arrive, the consumer of the last promise is awake: the promise has woken it, or it had
      been woken by a split since. Where there is no promise everybody is awake. */
  lemma PageWakesSomebody(s: System, s': System)
    requires ConsumersGood(s) && !SomeDone(s)
    requires s'.consumers == Woken(s.consumers, Fulfilled(s.q.promises, s'.q.promises))
    requires s'.q.promises <= s.q.promises && (s.q.promises != [] ==> |s'.q.promises| < |s.q.promises|)
    ensures SomeAwake(s')
  {
    if s.q.promises == [] {
      assert s.consumers[0] != Asleep && s.consumers[0] != Done;
      assert s'.consumers[0] == Awake;
    } else {
      var c := s.q.promises[|s.q.promises| - 1];
      assert c in s.q.promises;
      var fulfilled := Fulfilled(s.q.promises, s'.q.promises);
      assert fulfilled[|fulfilled| - 1] == c;
      assert s'.consumers[c] == Awake;
    }
  }

  /** Fulfilling promises from the back leaves those who still sleep their promise. */
  lemma PromisesAfter(s: System, s': System)
    requires PromisesGood(s) && s'.consumers == Woken(s.consumers, Fulfilled(s.q.promises, s'.q.promises))
    requires s'.q.promises <= s.q.promises
    ensures PromisesGood(s')
  {
    var kept, fulfilled := s'.q.promises, Fulfilled(s.q.promises, s'.q.promises);
    assert s.q.promises == kept + fulfilled;
    forall c: nat
      ensures c < |s'.consumers| && s'.consumers[c] == Asleep ==> c in kept
      ensures c in kept ==> c < |s'.consumers| && s'.consumers[c] != Done
    {
      assert c in s.q.promises <==> c in kept || c in fulfilled;
    }
  }

  lemma NextSources(s: System, c: nat)
    requires Inv(s) && Enabled(s, Next(c))
    ensures SourcesGood(Apply(s, Next(c)))
  {
    var s' := Apply(s, Next(c));
    if s.q.queue != [] {
      assert s.q.queue == [s.q.queue[0]] + s.q.queue[1..];
    }
    assert s'.delivered + s'.q.queue == s.delivered + s.q.queue;
    forall i | 0 <= i < |s'.sources|
      ensures SourceGood(s', i)
    {
      assert SourceGood(s, i);
    }
  }

  lemma NextCounts(s: System, c: nat)
    requires Inv(s) && Enabled(s, Next(c))
    ensures CountsGood(Apply(s, Next(c)))
  {
    var s' := Apply(s, Next(c));
    if s.q.queue != [] {
      BytesOfFirst(s.q.queue);
    }
    EndedSame(s.sources, s'.sources);
  }

  lemma NextConsumers(s: System, c: nat)
    requires Inv(s) && Enabled(s, Next(c))
    ensures ConsumersGood(Apply(s, Next(c)))
  {
    var s' := Apply(s, Next(c));
    match TakenResult(s.q) {
      case GotPage(_) =>
        assert s'.consumers[c] == Awake;
        assert !SomeDone(s);
      case Wait =>
        assert !SomeDone(s);
        FellAsleep(s, s', c);
      case AtEnd =>
        EndedBound(s.sources);
        assert forall k :: 0 <= k < |s'.consumers| && k != c ==> s'.consumers[k] == s.consumers[k];
      case Failed =>
    }
  }

  lemma FellAsleep(s: System, s': System, c: nat)
    requires ConsumersGood(s) && c < |s.consumers| && s.consumers[c] == Awake && !SomeDone(s) && !s.q.atEnd
    requires s'.q == s.q.(promises := s.q.promises + [c]) && s'.consumers == s.consumers[c := Asleep]
    requires s.q.queue == [] && AllAsked(s')
    ensures ConsumersGood(s')
  {
    forall k: nat
      ensures k in s'.q.promises <==> k in s.q.promises || k == c
    {
    }
  }

  /** A split wakes a consumer whose promise stays in the queue. */
  lemma SplitKeeps(s: System, c: nat)
    requires Inv(s) && Enabled(s, SplitArrives(c))
    ensures Inv(Apply(s, SplitArrives(c)))
  {
    var s' := Apply(s, SplitArrives(c));
    assert s'.consumers[c] == Awake;
    forall i | 0 <= i < |s'.sources|
      ensures SourceGood(s', i)
    {
      assert SourceGood(s, i);
    }
    NobodyNewDone(s, s', c);
  }

  lemma NobodyNewDone(s: System, s': System, c: nat)
    requires c < |s.consumers| && s'.consumers == s.consumers[c := Awake]
    ensures SomeDone(s') ==> SomeDone(s)
  {
    if SomeDone(s') {
      var k :| 0 <= k < |s'.consumers| && s'.consumers[k] == Done;
      assert s.consumers[k] == Done;
    }
  }

  lemma StepKeeps(s: System, step: Step)
    requires Inv(s) && Enabled(s, step)
    ensures Inv(Apply(s, step))
  {
    match step
    case AddSource(log) => AddSourceKeeps(s, log);
    case NoMoreSources => NoMoreSourcesKeeps(s);
    case Respond(i, start, count, ends) =>
      RespondSources(s, i, start, count, ends);
      RespondCounts(s, i, start, count, ends);
      RespondConsumers(s, i, start, count, ends);
    case Next(c) =>
      NextSources(s, c);
      NextCounts(s, c);
      NextConsumers(s, c);
    case SplitArrives(c) => SplitKeeps(s, c);
  }

  // ------------------------------------------------------------------------------------------------
  // Whole runs
  // ------------------------------------------------------------------------------------------------

  ghost predicate StepAt(states: seq<System>, steps: seq<Step>, k: nat) {
    && k < |steps| && k + 1 < |states|
    && Enabled(states[k], steps[k]) && states[k + 1] == Apply(states[k], steps[k])
  }

  ghost predicate IsRun(states: seq<System>, steps: seq<Step>) {
    && |states| == |steps| + 1 && IsInit(states[0])
    && forall k: nat :: k < |steps| ==> StepAt(states, steps, k)
  }

  lemma {:induction false} RunKeeps(states: seq<System>, steps: seq<Step>, n: nat)
    requires IsRun(states, steps) && n <= |steps|
    ensures Inv(states[n])
  {
    if n == 0 {
      InitGood(states[0]);
    } else {
      RunKeeps(states, steps, n - 1);
      assert StepAt(states, steps, n - 1);
      StepKeeps(states[n - 1], steps[n - 1]);
    }
  }

  /** Every page is delivered exactly once and in order, at any time as far as it has been received; a
      consumer that sees the end has every log behind it in full. */
  lemma ExactlyOnceInOrder(states: seq<System>, steps: seq<Step>, n: nat, i: nat)
    requires IsRun(states, steps) && n <= |steps| && i < |states[n].sources|
    ensures var s := states[n];
            && s.sources[i].sequence <= |s.sources[i].log|
            && OfSource(s.delivered + s.q.queue, i) == s.sources[i].log[..s.sources[i].sequence]
            && (SomeDone(s) ==> s.q.noMoreSources && OfSource(s.delivered, i) == s.sources[i].log)
  {
    var s := states[n];
    RunKeeps(states, steps, n);
    assert SourceGood(s, i);
    if SomeDone(s) {
      EndedBound(s.sources);
      assert s.delivered + s.q.queue == s.delivered;
    }
  }

  /** Nothing gets stuck, even where consumers are also woken by splits and leave promises behind: a queued
      page finds a consumer awake, and while consumers sleep either a response is outstanding or more sources
      may still be announced. */
  lemma NoLostWakeup(states: seq<System>, steps: seq<Step>, n: nat)
    requires IsRun(states, steps) && n <= |steps|
    ensures var s := states[n];
            && (s.q.queue != [] ==> SomeAwake(s))
            && s.q.totalBytes == Bytes(s.q.queue)
            && (SomeAwake(s)
                || (exists i :: 0 <= i < |s.sources| && s.sources[i].pending)
                || !s.q.noMoreSources
                || forall c :: 0 <= c < |s.consumers| ==> s.consumers[c] == Done)
  {
    var s := states[n];
    RunKeeps(states, steps, n);
    EndedBound(s.sources);
    if !SomeAwake(s) && !(exists i :: 0 <= i < |s.sources| && s.sources[i].pending) && s.q.noMoreSources {
      assert AllAsked(s);
      assert Complete(s.q);
      forall c | 0 <= c < |s.consumers|
        ensures s.consumers[c] == Done
      {
        assert s.consumers[c] != Awake;
        assert c !in s.q.promises;
      }
    }
  }
}
