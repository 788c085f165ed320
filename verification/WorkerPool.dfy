/**
 `mapOrderedWithConcurrency` (sdks/go/integrity.go): workers claim indices under a
 mutex, map outside it, and record the first error under it. The loop below takes
 one step of an arbitrary worker at a time, so it runs every interleaving.
 */
module WorkerPool {
  import opened Basics

  datatype Mapped<R, E> = Value(value: R) | Error(error: E)

  /** Where a worker stands between its critical sections. */
  datatype Worker<E> = Claiming | Mapping(index: nat) | Recording(error: E) | Returned

  function Weight<E>(worker: Worker<E>): nat {
    match worker
    case Claiming => 1
    case Mapping(_) => 3
    case Recording(_) => 2
    case Returned => 0
  }

  function Work<E>(workers: seq<Worker<E>>): nat {
    if workers == [] then 0 else Weight(workers[0]) + Work(workers[1..])
  }

  lemma {:induction false} WorkUpdate<E>(workers: seq<Worker<E>>, w: nat, worker: Worker<E>)
    requires w < |workers|
    ensures Work(workers[w := worker]) == Work(workers) - Weight(workers[w]) + Weight(worker)
  {
    if w == 0 {
      assert workers[0 := worker][1..] == workers[1..];
    } else {
      assert workers[w := worker][1..] == workers[1..][w - 1 := worker];
      WorkUpdate(workers[1..], w - 1, worker);
    }
  }

  /** The indices 0, 1, ... n-1 in order. */
  ghost predicate Counts(claimed: seq<nat>, n: nat) {
    |claimed| == n && forall i :: 0 <= i < n ==> claimed[i] == i
  }

  /** Every claimed index is being mapped by one worker, or mapped, or lost to an error. */
  ghost predicate ClaimsInv<T, R(!new), E>(
      values: seq<T>, mapValue: T -> Mapped<R, E>, workers: seq<Worker<E>>, claimed: seq<nat>, results: seq<Option<R>>, failed: set<nat>) {
    && |results| == |values| && |claimed| <= |values| && Counts(claimed, |claimed|)
    && (forall w :: 0 <= w < |workers| && workers[w].Mapping? ==>
          workers[w].index < |claimed| && results[workers[w].index].None? && workers[w].index !in failed)
    && (forall u, w :: 0 <= u < w < |workers| && workers[u].Mapping? && workers[w].Mapping? ==> workers[u].index != workers[w].index)
    && (forall i :: 0 <= i < |results| && results[i].Some? ==> i < |claimed| && mapValue(values[i]) == Value(results[i].value))
    && (forall i :: 0 <= i < |claimed| && results[i].None? && i !in failed ==> InProgress(workers, i))
  }

  ghost predicate InProgress<E>(workers: seq<Worker<E>>, i: nat) {
    exists w :: 0 <= w < |workers| && workers[w] == Mapping(i)
  }

  ghost predicate SomeRecording<E>(workers: seq<Worker<E>>) {
    exists w :: 0 <= w < |workers| && workers[w].Recording?
  }

  /** Errors: one is recorded, or some worker is about to record one, exactly when a mapping failed. */
  ghost predicate ErrorsInv<T, R, E(!new)>(
      values: seq<T>, mapValue: T -> Mapped<R, E>, workers: seq<Worker<E>>, firstErr: Option<E>, failed: set<nat>) {
    && (firstErr.None? && failed != {} ==> SomeRecording(workers))
    && (firstErr.None? ==> forall w :: 0 <= w < |workers| && workers[w].Recording? ==> Genuine(values, mapValue, workers[w].error))
    && (firstErr.Some? ==> Genuine(values, mapValue, firstErr.value))
  }

  ghost predicate Genuine<T, R, E(!new)>(values: seq<T>, mapValue: T -> Mapped<R, E>, error: E) {
    exists v :: v in values && mapValue(v) == Error(error)
  }

  /** A worker claims the next index. */
  lemma ClaimStep<T, R(!new), E>(
      values: seq<T>, mapValue: T -> Mapped<R, E>, workers: seq<Worker<E>>, claimed: seq<nat>, results: seq<Option<R>>, failed: set<nat>, w: nat)
    requires ClaimsInv(values, mapValue, workers, claimed, results, failed)
    requires w < |workers| && workers[w].Claiming? && |claimed| < |values| && |claimed| !in failed
    ensures ClaimsInv(values, mapValue, workers[w := Mapping(|claimed|)], claimed + [|claimed|], results, failed)
  {
    var workers' := workers[w := Mapping(|claimed|)];
    assert workers'[w] == Mapping(|claimed|);
    forall i | 0 <= i < |claimed| && results[i].None? && i !in failed ensures InProgress(workers', i) {
      var u :| 0 <= u < |workers| && workers[u] == Mapping(i);
      assert workers'[u] == Mapping(i);
    }
  }

  /** A worker leaves its index: mapped, or failed. */
  lemma MapStep<T, R(!new), E>(
      values: seq<T>, mapValue: T -> Mapped<R, E>, workers: seq<Worker<E>>, claimed: seq<nat>, results: seq<Option<R>>, failed: set<nat>,
      w: nat, worker: Worker<E>, results': seq<Option<R>>, failed': set<nat>)
    requires ClaimsInv(values, mapValue, workers, claimed, results, failed)
    requires w < |workers| && workers[w].Mapping? && !worker.Mapping?
    requires (results' == results && failed' == failed + {workers[w].index}) ||
             (failed' == failed && mapValue(values[workers[w].index]).Value?
              && results' == results[workers[w].index := Some(mapValue(values[workers[w].index]).value)])
    ensures ClaimsInv(values, mapValue, workers[w := worker], claimed, results', failed')
  {
    var index, workers' := workers[w].index, workers[w := worker];
    forall i | 0 <= i < |claimed| && results'[i].None? && i !in failed' ensures InProgress(workers', i) {
      var u :| 0 <= u < |workers| && workers[u] == Mapping(i);
      assert workers'[u] == Mapping(i);
    }
  }

  /** A step that starts or ends no mapping. */
  lemma OtherStep<T, R(!new), E>(
      values: seq<T>, mapValue: T -> Mapped<R, E>, workers: seq<Worker<E>>, claimed: seq<nat>, results: seq<Option<R>>, failed: set<nat>,
      w: nat, worker: Worker<E>)
    requires ClaimsInv(values, mapValue, workers, claimed, results, failed)
    requires w < |workers| && !workers[w].Mapping? && !worker.Mapping?
    ensures ClaimsInv(values, mapValue, workers[w := worker], claimed, results, failed)
  {
    var workers' := workers[w := worker];
    forall i | 0 <= i < |claimed| && results[i].None? && i !in failed ensures InProgress(workers', i) {
      var u :| 0 <= u < |workers| && workers[u] == Mapping(i);
      assert workers'[u] == Mapping(i);
    }
  }

  /** The variables the workers share, and where each worker stands. */
  datatype Pool<R, E> = Pool(next: nat, firstErr: Option<E>, results: seq<Option<R>>, workers: seq<Worker<E>>)

  /** What happens under the mutex. */
  datatype Event<E> = Claimed(index: nat) | Recorded(error: E)

  /** What was claimed, what failed, and everything that happened under the mutex, in order. */
  datatype History<E> = History(claimed: seq<nat>, failed: set<nat>, trace: seq<Event<E>>)

  /** The first `claims` indices are claimed in order; then errors are recorded, the first of which is kept. */
  ghost predicate FirstErrorEndsClaims<E>(trace: seq<Event<E>>, claims: nat, firstErr: Option<E>) {
    && claims <= |trace|
    && (forall i :: 0 <= i < claims ==> trace[i] == Claimed(i))
    && (forall i :: claims <= i < |trace| ==> trace[i].Recorded?)
    && firstErr == (if claims == |trace| then None else Some(trace[claims].error))
  }

  ghost predicate PoolInv<T, R(!new), E(!new)>(values: seq<T>, mapValue: T -> Mapped<R, E>, p: Pool<R, E>, h: History<E>) {
    && ClaimsInv(values, mapValue, p.workers, h.claimed, p.results, h.failed)
    && ErrorsInv(values, mapValue, p.workers, p.firstErr, h.failed)
    && (forall i :: i in h.failed ==> i < |h.claimed|)
    && FirstErrorEndsClaims(h.trace, |h.claimed|, p.firstErr)
    && (p.firstErr.None? ==>
          && |h.claimed| == (if p.next < |values| then p.next else |values|)
          && forall w :: 0 <= w < |p.workers| && p.workers[w].Returned? ==> p.next >= |values|)
  }

  function Measure<R, E>(p: Pool<R, E>, n: nat): nat {
    3 * (if p.next < n then n - p.next else 0) + Work(p.workers)
  }

  /** The section that claims an index, or finds out that there is nothing to do. */
  method Claim<T, R(!new), E(!new)>(values: seq<T>, ghost mapValue: T -> Mapped<R, E>, p: Pool<R, E>, ghost h: History<E>, w: nat)
      returns (p': Pool<R, E>, ghost h': History<E>)
    requires PoolInv(values, mapValue, p, h) && w < |p.workers| && p.workers[w].Claiming?
    ensures PoolInv(values, mapValue, p', h') && |p'.workers| == |p.workers|
    ensures Measure(p', |values|) < Measure(p, |values|)
    ensures p.firstErr.Some? ==> h'.claimed == h.claimed
  {
    if p.firstErr.Some? || p.next >= |values| {
      OtherStep(values, mapValue, p.workers, h.claimed, p.results, h.failed, w, Returned);
      WorkUpdate(p.workers, w, Returned);
      p' := p.(next := p.next + 1, workers := p.workers[w := Returned]);
      h' := h;
    } else {
      ClaimStep(values, mapValue, p.workers, h.claimed, p.results, h.failed, w);
      WorkUpdate(p.workers, w, Mapping(p.next));
      p' := p.(next := p.next + 1, workers := p.workers[w := Mapping(p.next)]);
      h' := h.(claimed := h.claimed + [p.next], trace := h.trace + [Claimed(p.next)]);
    }
    StillRecording(p.workers, w, p'.workers[w]);
  }

  /** A worker about to record an error is still there after another one's step. */
  lemma StillRecording<E>(workers: seq<Worker<E>>, w: nat, worker: Worker<E>)
    requires w < |workers| && !workers[w].Recording?
    ensures SomeRecording(workers) ==> SomeRecording(workers[w := worker])
  {
    if u :| 0 <= u < |workers| && workers[u].Recording? {
      assert workers[w := worker][u].Recording?;
    }
  }

  /** What happens outside the mutex: the value is mapped, and its result stored. */
  method MapOne<T, R(!new), E(!new)>(values: seq<T>, mapValue: T -> Mapped<R, E>, cancelled: E, p: Pool<R, E>, ghost h: History<E>, w: nat)
      returns (p': Pool<R, E>, ghost h': History<E>)
    requires PoolInv(values, mapValue, p, h) && w < |p.workers| && p.workers[w].Mapping?
    ensures PoolInv(values, mapValue, p', h') && |p'.workers| == |p.workers|
    ensures Measure(p', |values|) < Measure(p, |values|)
    ensures h'.claimed == h.claimed
  {
    var index := p.workers[w].index;
    var mapped := mapValue(values[index]);
    var interrupted: bool := *;
    if p.firstErr.Some? && interrupted { mapped := Error(cancelled); }
    if mapped.Value? {
      MapStep(values, mapValue, p.workers, h.claimed, p.results, h.failed, w, Claiming, p.results[index := Some(mapped.value)], h.failed);
      WorkUpdate(p.workers, w, Claiming);
      StillRecording(p.workers, w, Claiming);
      p' := p.(workers := p.workers[w := Claiming], results := p.results[index := Some(mapped.value)]);
      h' := h;
    } else {
      var recording := Recording(mapped.error);
      MapStep(values, mapValue, p.workers, h.claimed, p.results, h.failed, w, recording, p.results, h.failed + {index});
      WorkUpdate(p.workers, w, recording);
      assert p.firstErr.None? ==> Genuine(values, mapValue, mapped.error);
      p' := p.(workers := p.workers[w := recording]);
      h' := h.(failed := h.failed + {index});
      assert p'.workers[w].Recording?;
    }
  }

  /** The section that records an error, when it is the first. */
  method Record<T, R(!new), E(!new)>(ghost values: seq<T>, ghost mapValue: T -> Mapped<R, E>, p: Pool<R, E>, ghost h: History<E>, w: nat)
      returns (p': Pool<R, E>, ghost h': History<E>)
    requires PoolInv(values, mapValue, p, h) && w < |p.workers| && p.workers[w].Recording?
    ensures PoolInv(values, mapValue, p', h') && |p'.workers| == |p.workers|
    ensures Measure(p', |values|) < Measure(p, |values|)
    ensures p'.firstErr == if p.firstErr.None? then Some(p.workers[w].error) else p.firstErr
    ensures h'.claimed == h.claimed
  {
    OtherStep(values, mapValue, p.workers, h.claimed, p.results, h.failed, w, Returned);
    WorkUpdate(p.workers, w, Returned);
    p' := p.(workers := p.workers[w := Returned], firstErr := if p.firstErr.None? then Some(p.workers[w].error) else p.firstErr);
    h' := h.(trace := h.trace + [Recorded(p.workers[w].error)]);
  }

  /**
   In every interleaving the pool ends. The indices 0, 1, ... are claimed in order, each once, until they run out or an
   error is recorded: after that nothing is claimed, so nothing more is mapped, and that first error is returned, one that
   a mapping produced. Without an error, every result is the map of its value. Once an error is recorded the context is
   cancelled, so a mapping still running may also fail with `cancelled`.
   */
  method MapOrdered<T, R(!new), E(!new)>(values: seq<T>, concurrency: int, mapValue: T -> Mapped<R, E>, cancelled: E)
      returns (results: seq<Option<R>>, firstErr: Option<E>, ghost trace: seq<Event<E>>, ghost claims: nat)
    ensures |results| == |values| && claims <= |values| && FirstErrorEndsClaims(trace, claims, firstErr)
    ensures firstErr.None? ==>
      (claims == |values| && forall i :: 0 <= i < |values| ==> results[i].Some? && mapValue(values[i]) == Value(results[i].value))
    ensures firstErr.Some? ==> Genuine(values, mapValue, firstErr.value)
    ensures forall i :: 0 <= i < |values| && results[i].Some? ==> i < claims && mapValue(values[i]) == Value(results[i].value)
  {
    results := seq(|values|, _ => None);
    if |values| == 0 { return results, None, [], 0; }
    var count := if concurrency < 1 then 1 else concurrency;
    if |values| < count { count := |values|; }
    var p := Pool(0, None, results, seq(count, _ => Claiming));
    ghost var h: History<E> := History([], {}, []);
    while exists w :: 0 <= w < |p.workers| && !p.workers[w].Returned?
      invariant |p.workers| == count >= 1 && PoolInv(values, mapValue, p, h)
      decreases Measure(p, |values|)
    {
      var w :| 0 <= w < |p.workers| && !p.workers[w].Returned?;
      match p.workers[w]
      case Claiming => p, h := Claim(values, mapValue, p, h, w);
      case Mapping(_) => p, h := MapOne(values, mapValue, cancelled, p, h, w);
      case Recording(_) => p, h := Record(values, mapValue, p, h, w);
    }
    assert p.workers[0].Returned?;
    return p.results, p.firstErr, h.trace, |h.claimed|;
  }
}
