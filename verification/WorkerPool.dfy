/** The shared-cursor worker pool, under a scheduler that completes calls in any order. */
module WorkerPool {
  import opened Wrappers

  function Indexes(n: nat): (r: seq<nat>)
    ensures |r| == n && forall i :: 0 <= i < n ==> r[i] == i
  {
    seq(n, i requires 0 <= i < n => i)
  }

  ghost predicate Distinct(xs: seq<nat>) {
    forall i, k :: 0 <= i < k < |xs| ==> xs[i] != xs[k]
  }

  function Without(xs: seq<nat>, k: nat): (r: seq<nat>)
    requires k < |xs|
    ensures |r| == |xs| - 1
  {
    xs[..k] + xs[k + 1..]
  }

  lemma WithoutMeans(xs: seq<nat>, k: nat)
    requires k < |xs| && Distinct(xs)
    ensures Distinct(Without(xs, k)) && forall i :: i in Without(xs, k) <==> i in xs && i != xs[k]
  {
    var rest := Without(xs, k);
    forall i | i in xs && i != xs[k] ensures i in rest {
      var q :| 0 <= q < |xs| && xs[q] == i;
      assert rest[if q < k then q else q - 1] == i;
    }
  }

  /** A call that has come back: its slot holds its value, or the pool is rejected. */
  ghost predicate Settled<T, R, E>(items: seq<T>, fn: (T, nat) -> Result<R, E>, slots: seq<Option<R>>,
                                   rejected: Option<E>, i: nat)
    requires i < |items| == |slots|
  {
    match fn(items[i], i)
    case Ok(r) => slots[i] == Some(r)
    case Err(_) => slots[i].None? && rejected.Some?
  }

  /** What holds whenever no worker is running: `started` calls were given out, and those not in flight are settled. */
  ghost predicate Between<T, R, E>(items: seq<T>, fn: (T, nat) -> Result<R, E>, slots: seq<Option<R>>, workers: nat,
                                   cursor: nat, inFlight: seq<nat>, started: nat, rejected: Option<E>)
  {
    && |slots| == |items| && workers <= |items|
    && started == (if cursor < |items| then cursor else |items|) && cursor >= workers
    && Distinct(inFlight) && |inFlight| <= workers
    && (forall q :: 0 <= q < |inFlight| ==> inFlight[q] < started)
    && (rejected.None? ==> |inFlight| == workers || cursor >= |items|)
    && (forall i :: 0 <= i < |items| && (i in inFlight || i >= started) ==> slots[i].None?)
    && (forall i :: 0 <= i < started && i !in inFlight ==> Settled(items, fn, slots, rejected, i))
    && (rejected.Some? ==> exists i :: 0 <= i < started && i !in inFlight && fn(items[i], i) == Err(rejected.value))
  }

  lemma Launched<T, R, E>(items: seq<T>, fn: (T, nat) -> Result<R, E>, slots: seq<Option<R>>, workers: nat)
    requires workers <= |items| == |slots| && forall i :: 0 <= i < |slots| ==> slots[i].None?
    ensures Between(items, fn, slots, workers, workers, Indexes(workers), workers, None)
  {
    forall i | 0 <= i < workers ensures i in Indexes(workers) { assert Indexes(workers)[i] == i; }
  }

  lemma BetweenBounds<T, R, E>(items: seq<T>, fn: (T, nat) -> Result<R, E>, slots: seq<Option<R>>, workers: nat,
                               cursor: nat, inFlight: seq<nat>, started: nat, rejected: Option<E>)
    requires Between(items, fn, slots, workers, cursor, inFlight, started, rejected)
    ensures |slots| == |items| && started == (if cursor < |items| then cursor else |items|) && |inFlight| <= workers
    ensures forall q :: 0 <= q < |inFlight| ==> inFlight[q] < |items|
    ensures rejected.None? && cursor < |items| ==> |inFlight| == workers
  {
  }

  /** A call fails: its worker dies with it, the others go on. */
  lemma FailKeeps<T, R, E>(items: seq<T>, fn: (T, nat) -> Result<R, E>, slots: seq<Option<R>>, workers: nat,
                           cursor: nat, inFlight: seq<nat>, started: nat, rejected: Option<E>, k: nat)
    requires Between(items, fn, slots, workers, cursor, inFlight, started, rejected) && k < |inFlight|
    requires fn(items[inFlight[k]], inFlight[k]).Err?
    ensures Between(items, fn, slots, workers, cursor, Without(inFlight, k), started,
                    if rejected.None? then Some(fn(items[inFlight[k]], inFlight[k]).error) else rejected)
  {
    WithoutMeans(inFlight, k);
    var rejected' := if rejected.None? then Some(fn(items[inFlight[k]], inFlight[k]).error) else rejected;
    if rejected.None? {
      assert inFlight[k] < started && inFlight[k] !in Without(inFlight, k) &&
             fn(items[inFlight[k]], inFlight[k]) == Err(rejected'.value);
    }
  }

  /** A call succeeds: its worker stores the result and takes the next index, if there is one. */
  lemma SucceedKeeps<T, R, E>(items: seq<T>, fn: (T, nat) -> Result<R, E>, slots: seq<Option<R>>, workers: nat,
                              cursor: nat, inFlight: seq<nat>, started: nat, rejected: Option<E>, k: nat)
    requires Between(items, fn, slots, workers, cursor, inFlight, started, rejected) && k < |inFlight|
    requires fn(items[inFlight[k]], inFlight[k]).Ok?
    ensures var more := cursor < |items|;
            Between(items, fn, slots[inFlight[k] := Some(fn(items[inFlight[k]], inFlight[k]).value)], workers,
                    cursor + 1,
                    Without(inFlight, k) + (if more then [cursor] else []), started + (if more then 1 else 0), rejected)
  {
    WithoutMeans(inFlight, k);
    var slots' := slots[inFlight[k] := Some(fn(items[inFlight[k]], inFlight[k]).value)];
    forall i | 0 <= i < started && i !in Without(inFlight, k) ensures Settled(items, fn, slots', rejected, i) {
      if i != inFlight[k] { assert Settled(items, fn, slots, rejected, i); }
    }
  }

  /** When nothing is in flight any more. */
  lemma Drained<T, R, E>(items: seq<T>, fn: (T, nat) -> Result<R, E>, slots: seq<Option<R>>, workers: nat, cursor: nat,
                         started: nat, rejected: Option<E>)
    requires Between(items, fn, slots, workers, cursor, [], started, rejected)
    ensures started <= |items| && (rejected.Some? <==> exists i :: 0 <= i < started && fn(items[i], i).Err?)
    ensures rejected.Some? ==> exists i :: 0 <= i < started && fn(items[i], i) == Err(rejected.value)
    ensures rejected.None? && workers > 0 ==> started == |items|
    ensures rejected.None? ==> forall i :: 0 <= i < started ==>
        fn(items[i], i).Ok? && slots[i] == Some(fn(items[i], i).value)
    ensures forall i :: started <= i < |items| ==> slots[i].None?
  {
    forall i | 0 <= i < started
      ensures fn(items[i], i).Err? ==> rejected.Some?
      ensures fn(items[i], i).Ok? ==> slots[i] == Some(fn(items[i], i).value)
    {
      assert i !in [] && Settled(items, fn, slots, rejected, i);
    }
    if rejected.Some? {
      var i :| 0 <= i < started && i !in [] && fn(items[i], i) == Err(rejected.value);
      assert fn(items[i], i).Err?;
    }
  }

  /**
   * A slot no worker wrote is a hole. Indices are given out in order, each once; `widths` is how many calls are in
   * flight just after each is made, itself included: never above min(limit, n), and always that many once the first
   * round is out, as long as none has failed. The pool rejects exactly when
   * some call that was made fails, with the error of such a call.
   * Where no call fails, every slot has the result of its own item exactly when a worker runs or there is no work.
   */
  method MapWithConcurrency<T, R(0), E>(items: seq<T>, limit: int, fn: (T, nat) -> Result<R, E>)
    returns (results: Result<seq<Option<R>>, E>, calls: seq<nat>, widths: seq<nat>)
    ensures |calls| <= |items| && calls == Indexes(|calls|)
    ensures |widths| == |calls|
    ensures forall i :: 0 <= i < |widths| ==> 1 <= widths[i] <= (if limit < |items| then limit else |items|)
    ensures results.Ok? ==> forall i :: 0 <= i < |widths| ==> widths[i] == if i < limit then i + 1 else limit
    ensures results.Err? <==> exists i :: 0 <= i < |calls| && fn(items[i], i).Err?
    ensures results.Err? ==> exists i :: 0 <= i < |calls| && fn(items[i], i) == Err(results.error)
    ensures results.Ok? ==> |results.value| == |items| && |calls| == (if limit >= 1 then |items| else 0)
    ensures results.Ok? ==> forall i :: 0 <= i < |items| ==>
              if limit >= 1 then fn(items[i], i).Ok? && results.value[i] == Some(fn(items[i], i).value)
              else results.value[i].None?
  {
    hide Between;
    var n := |items|;
    var slots := new Option<R>[n](_ => None);
    var rejected: Option<E> := None;
    var workers: nat := if limit < 0 then 0 else if limit < n then limit else n;
    var cursor := 0;
    var inFlight: seq<nat> := [];
    calls, widths := [], [];

    // Every worker runs up to its first await.
    while |inFlight| < workers
      invariant cursor == |inFlight| <= workers && inFlight == Indexes(cursor) && calls == Indexes(cursor)
      invariant widths == seq(cursor, i requires 0 <= i < cursor => i + 1)
    {
      inFlight, calls := inFlight + [cursor], calls + [cursor];
      widths := widths + [|inFlight|];
      cursor := cursor + 1;
    }
    Launched(items, fn, slots[..], workers);

    while |inFlight| > 0
      invariant calls == Indexes(|calls|) && |calls| <= n && |widths| == |calls|
      invariant forall i :: 0 <= i < |widths| ==> 1 <= widths[i] <= workers
      invariant rejected.None? ==>
          (cursor < n ==> |inFlight| == workers) &&
          forall i :: 0 <= i < |widths| ==> widths[i] == if i < workers then i + 1 else workers
      invariant Between(items, fn, slots[..], workers, cursor, inFlight, |calls|, rejected)
      invariant workers == 0 ==> calls == []
      decreases 2 * (n - |calls|) + |inFlight|
    {
      BetweenBounds(items, fn, slots[..], workers, cursor, inFlight, |calls|, rejected);
      var k: nat :| k < |inFlight|;
      var index := inFlight[k];
      match fn(items[index], index) {
        case Err(e) =>
          FailKeeps(items, fn, slots[..], workers, cursor, inFlight, |calls|, rejected, k);
          if rejected.None? { rejected := Some(e); }
          inFlight := Without(inFlight, k);
        case Ok(r) =>
          SucceedKeeps(items, fn, slots[..], workers, cursor, inFlight, |calls|, rejected, k);
          slots[index] := Some(r);
          inFlight := Without(inFlight, k);
          if cursor < n {
            inFlight, calls := inFlight + [cursor], calls + [cursor];
            widths := widths + [|inFlight|];
          } else {
            assert inFlight + [] == inFlight;
          }
          cursor := cursor + 1;
      }
    }
    Drained(items, fn, slots[..], workers, cursor, |calls|, rejected);
    results := match rejected case Some(e) => Err(e) case None => Ok(slots[..]);
  }
}
