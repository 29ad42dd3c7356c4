/**
 * The reactive operators both stream-based back-ends use, on the signals an observable
 * delivers to its subscriber: the items, in order, then exactly one terminal event.
 */
module Rx {
  import opened Model
  import opened Sink

  datatype Terminal = Completed | Errored(error: Error)

  /** The signals a subscriber receives: `onNext` for each item, then `onCompleted` or `onError`. */
  datatype Observable<T> = Observable(items: seq<T>, end: Terminal)

  /** A stream of at most one item: the value then completion, or the failure alone. */
  function Single<T>(outcome: Outcome<T>): Observable<T> {
    match outcome
    case Success(v) => Observable([v], Completed)
    case Failure(e) => Observable([], Errored(e))
  }

  /** A store cursor as a stream: every document then completion, or the query's fault alone. */
  function FromCursor<T>(docs: Outcome<seq<T>>): Observable<T> {
    match docs
    case Success(s) => Observable(s, Completed)
    case Failure(e) => Observable([], Errored(e))
  }

  /**
   * `map` with a function that may throw: items are transformed in order until the first one
   * the function rejects, whose exception becomes the stream's error; later items are dropped.
   */
  function Map<T, U>(source: Observable<T>, f: T -> Outcome<U>): (r: Observable<U>)
    decreases |source.items|
    ensures |r.items| <= |source.items|
    ensures forall i :: 0 <= i < |r.items| ==> f(source.items[i]) == Success(r.items[i])
    ensures |r.items| < |source.items| ==>
              f(source.items[|r.items|]).Failure?
              && r.end == Errored(f(source.items[|r.items|]).error)
    ensures |r.items| == |source.items| ==> r.end == source.end
  {
    if source.items == [] then
      Observable([], source.end)
    else
      match f(source.items[0])
      case Failure(e) => Observable([], Errored(e))
      case Success(v) =>
        var rest := Map(Observable(source.items[1..], source.end), f);
        Observable([v] + rest.items, rest.end)
  }

  /** `toList`: on completion one item, the list of everything emitted; on error nothing but the error. */
  function ToList<T>(source: Observable<T>): Observable<seq<T>> {
    match source.end
    case Completed => Observable([source.items], Completed)
    case Errored(e) => Observable([], Errored(e))
  }

  /**
   * `flatMap`, with the inner streams run one after another: each item's stream is emitted in
   * turn, the first inner error ends the whole stream, and a source without items never
   * consults the continuation.
   */
  function FlatMap<T, U>(source: Observable<T>, next: T -> Observable<U>): (r: Observable<U>)
    decreases |source.items|
    ensures source.items == [] ==> r == Observable([], source.end)
    ensures |source.items| == 1 && source.end.Completed? ==> r == next(source.items[0])
    ensures r.end.Completed? ==>
              source.end.Completed?
              && forall i :: 0 <= i < |source.items| ==> next(source.items[i]).end.Completed?
  {
    if source.items == [] then
      Observable([], source.end)
    else
      var inner := next(source.items[0]);
      if inner.end.Errored? then
        inner
      else
        var rest := FlatMap(Observable(source.items[1..], source.end), next);
        Observable(inner.items + rest.items, rest.end)
  }

  /** Mapping a stream of at most one item is binding its outcome. */
  lemma MapSingle<T, U>(outcome: Outcome<T>, f: T -> Outcome<U>)
    ensures Map(Single(outcome), f) == Single(outcome.Bind(f))
  {
  }

  /** Collecting a cursor gives one list of all its documents, or its fault. */
  lemma ToListFromCursor<T>(docs: Outcome<seq<T>>)
    ensures ToList(FromCursor(docs)) == Single(docs)
  {
  }

  /** flatMap over a stream of at most one item: the continuation's stream, or the failure alone. */
  lemma FlatMapSingle<T, U>(outcome: Outcome<T>, next: T -> Observable<U>)
    ensures FlatMap(Single(outcome), next) ==
              if outcome.Success? then next(outcome.value) else Observable([], Errored(outcome.error))
  {
  }

  /** One console line per item shown. */
  function ShownAll(results: seq<Result>): seq<Line> {
    seq(|results|, i requires 0 <= i < |results| => Shown(results[i]))
  }

  /** The console lines a subscriber writes for a stream: every result shown, then the error if any. */
  function Lines(source: Observable<Result>): seq<Line> {
    ShownAll(source.items) + (if source.end.Errored? then [ErrorReported(source.end.error)] else [])
  }

  /** A stream of at most one result puts exactly the line of its outcome on the console. */
  lemma LinesOfSingle(outcome: Outcome<Result>)
    ensures Lines(Single(outcome)) == [Report(outcome)]
  {
  }

  /** `CountDownLatch`: a count that only goes down, released at zero. */
  class CountDownLatch {
    var count: nat

    constructor(count: nat)
      ensures this.count == count
    {
      this.count := count;
    }

    /** `countDown`: decrements the count, and does nothing once it is zero. */
    method CountDown()
      modifies this
      ensures count == if old(count) == 0 then 0 else old(count) - 1
    {
      if count > 0 {
        count := count - 1;
      }
    }
  }

  /**
   * `subscribe` with the observer both query classes use: `onNext` displays the result,
   * `onError` reports the failure and counts the latch down, `onCompleted` counts it down.
   * Items never touch the latch; the one terminal event counts it down exactly once.
   */
  method Subscribe(source: Observable<Result>, console: Console, latch: CountDownLatch)
    modifies console, latch
    ensures console.lines == old(console.lines) + Lines(source)
    ensures latch.count == if old(latch.count) == 0 then 0 else old(latch.count) - 1
  {
    var i := 0;
    while i < |source.items|
      invariant 0 <= i <= |source.items|
      invariant console.lines == old(console.lines) + ShownAll(source.items[..i])
      invariant latch.count == old(latch.count)
    {
      console.Display(source.items[i]);
      i := i + 1;
    }
    assert source.items[..i] == source.items;
    match source.end {
      case Errored(e) =>
        console.ReportError(e);
        latch.CountDown();
      case Completed =>
        latch.CountDown();
    }
  }
}
