/**
 `routeStreamSender` (sdks/go/client.go): routes are validated, buffered, split
 into physical batches and sent by one background sender at a time. The control
 connection is the environment: any request may fail, before or after its effect.
 */
module RouteStream {
  import opened Basics
  import opened Routes
  import opened RouteChecksum
  import RouteBatches

  const ROUTE_STREAM_BATCH_ROUTES: nat := 1024

  datatype Scheduled = Scheduled(batchIndex: nat, routes: seq<Route>)

  /** A background sender: the batches it has not had acknowledged, and whether a request failed. */
  datatype Sending = Sending(pending: seq<Scheduled>, failed: bool)

  datatype StreamError = MissingIndex | OutsideStream | Duplicate | Incomplete | SplitFailed | RequestFailed

  function BatchesOf(scheduled: seq<Scheduled>): seq<seq<Route>> {
    seq(|scheduled|, i requires 0 <= i < |scheduled| => scheduled[i].routes)
  }

  function RoutesOf(scheduled: seq<Scheduled>): seq<Route> { Concat(BatchesOf(scheduled)) }

  ghost predicate NumberedFromZero(scheduled: seq<Scheduled>) {
    forall i :: 0 <= i < |scheduled| ==> scheduled[i].batchIndex == i
  }

  function IndicesOf(routes: seq<Route>): set<int> {
    set r | r in routes && r.deliveryIndex.Some? :: r.deliveryIndex.value
  }

  /** Routes as `addRoute` stores them: stamped, inside the stream, no index twice. */
  ghost predicate Accepted(routes: seq<Route>, totalRoutes: int) {
    && (forall i :: 0 <= i < |routes| ==> routes[i].deliveryIndex.Some? && 0 <= routes[i].deliveryIndex.value < totalRoutes)
    && (forall i, j :: 0 <= i < j < |routes| ==> routes[i].deliveryIndex != routes[j].deliveryIndex)
  }

  lemma {:induction false} AcceptedCount(routes: seq<Route>, totalRoutes: int)
    requires Accepted(routes, totalRoutes)
    ensures |IndicesOf(routes)| == |routes|
  {
    if routes != [] {
      var n := |routes| - 1;
      var last := routes[n];
      assert routes == routes[..n] + [last];
      AcceptedCount(routes[..n], totalRoutes);
      assert IndicesOf(routes) == IndicesOf(routes[..n]) + {last.deliveryIndex.value};
      assert last.deliveryIndex.value !in IndicesOf(routes[..n]);
    }
  }

  lemma IndicesOfAppend(routes: seq<Route>, route: Route, index: int)
    ensures IndicesOf(routes + [Stamp(route, index)]) == IndicesOf(routes) + {index}
  {
    var all := routes + [Stamp(route, index)];
    assert all[|routes|] == Stamp(route, index) && Stamp(route, index) in all;
  }

  lemma {:induction false} FullRange(indices: set<int>, n: nat)
    requires (forall i :: i in indices ==> 0 <= i < n) && |indices| == n
    ensures forall i :: i in indices <==> 0 <= i < n
  {
    if n == 0 {
    } else {
      if n - 1 !in indices {
        Bounded(indices, n - 1);
        assert false;
      }
      FullRange(indices - {n - 1}, n - 1);
      assert indices == (indices - {n - 1}) + {n - 1};
    }
  }

  lemma {:induction false} Bounded(indices: set<int>, n: nat)
    requires forall i :: i in indices ==> 0 <= i < n
    ensures |indices| <= n
  {
    if n == 0 {
      forall i ensures i !in indices { }
      assert indices == {};
    } else {
      Bounded(indices - {n - 1}, n - 1);
    }
  }

  /** Why a route may not enter the stream, if it may not. */
  function Rejection(route: Route, totalRoutes: int, seen: set<int>): Option<StreamError> {
    var index := SignedDeliveryIndex(route);
    if index.None? then Some(MissingIndex)
    else if index.value < 0 || index.value >= totalRoutes then Some(OutsideStream)
    else if index.value in seen then Some(Duplicate)
    else None
  }

  class RouteStreamSender {
    const totalRoutes: int
    const sha: Sha
    const size: seq<Route> -> RouteBatches.Encoded
    const limits: RouteBatches.Limits
    var checksum: Checksum
    var batch: seq<Route>
    var seenDeliveryIndices: set<int>
    var batchIndex: nat
    var routeCount: nat
    var sendTail: Option<Sending>
    ghost var added: seq<Route>        // the stamped routes, in the order they were added
    ghost var acked: seq<Scheduled>    // batches the control acknowledged, in order
    ghost var broken: bool             // a splitRoutes or request error was returned
    ghost var refused: bool            // the control failed a request

    ghost function Pending(): seq<Scheduled>
      reads this
    {
      if sendTail.Some? then sendTail.value.pending else []
    }

    /** The bookkeeping of what was added. */
    ghost predicate Counted()
      reads this
    {
      && Accepted(added, totalRoutes)
      && seenDeliveryIndices == IndicesOf(added)
      && routeCount == |added|
      && checksum == ChecksumOf(sha, added)
    }

    /** Until an error is returned: acknowledged, pending and buffered routes are the added ones, in order. */
    ghost predicate Valid()
      reads this
    {
      && Counted()
      && (sendTail.Some? && sendTail.value.failed ==> refused)
      && (!broken ==>
            && RoutesOf(acked + Pending()) + batch == added
            && NumberedFromZero(acked + Pending())
            && batchIndex == |acked + Pending()|)
    }

    constructor (totalRoutes: int, sha: Sha, size: seq<Route> -> RouteBatches.Encoded, limits: RouteBatches.Limits)
      ensures Valid() && !broken && !refused && added == [] && acked == [] && sendTail.None?
      ensures this.totalRoutes == totalRoutes && this.sha == sha && this.size == size && this.limits == limits
    {
      this.totalRoutes, this.sha, this.size, this.limits := totalRoutes, sha, size, limits;
      checksum, batch, seenDeliveryIndices, batchIndex, routeCount, sendTail := EMPTY, [], {}, 0, 0, None;
      added, acked, broken, refused := [], [], false, false;
    }

    /** One request of the background sender; it may fail after the control took the batch. */
    method SendNext()
      requires Valid()
      modifies this`sendTail, this`acked, this`refused
      ensures Valid()
      ensures refused == (old(refused) || (sendTail.Some? && sendTail.value.failed))
      ensures old(sendTail.None? || sendTail.value.failed || sendTail.value.pending == []) ==>
        sendTail == old(sendTail) && acked == old(acked)
      ensures old(sendTail.Some? && !sendTail.value.failed && sendTail.value.pending != []) ==>
        sendTail.Some? &&
        ((sendTail.value == old(sendTail.value).(failed := true) && acked == old(acked)) ||
         (sendTail.value == old(sendTail.value).(pending := old(sendTail.value.pending)[1..]) && acked == old(acked) + [old(sendTail.value.pending)[0]]))
    {
      if sendTail.None? || sendTail.value.failed || sendTail.value.pending == [] { return; }
      var pending := sendTail.value.pending;
      if * {
        assert acked + pending == (acked + [pending[0]]) + pending[1..];
        acked := acked + [pending[0]];
        sendTail := Some(Sending(pending[1..], false));
      } else {
        sendTail := Some(Sending(pending, true));
        refused := true;
      }
    }

    method WaitForPendingSend() returns (ok: bool)
      requires Valid()
      modifies this`sendTail, this`acked, this`broken, this`refused
      ensures Valid() && sendTail.None?
      ensures refused == (old(refused) || !ok)
      ensures old(sendTail).None? ==> ok
      ensures broken == (old(broken) || !ok)
      ensures ok && !broken ==> RoutesOf(acked) + batch == added && NumberedFromZero(acked) && batchIndex == |acked|
    {
      if sendTail.None? {
        assert acked + Pending() == acked;
        return true;
      }
      while !sendTail.value.failed && sendTail.value.pending != []
        invariant Valid() && sendTail.Some? && broken == old(broken)
        invariant refused == (old(refused) || sendTail.value.failed)
        decreases !sendTail.value.failed, |sendTail.value.pending|
      {
        SendNext();
      }
      ok := !sendTail.value.failed;
      assert ok ==> acked + Pending() == acked;
      sendTail := None;
      assert acked + Pending() == acked;
      broken := broken || !ok;
    }

    /** Sends what is buffered: waits for the previous sender, splits, numbers the batches, starts a new sender. */
    method EnqueueFlush() returns (error: Option<StreamError>)
      requires Valid()
      modifies this`sendTail, this`acked, this`broken, this`refused, this`batch, this`batchIndex
      ensures Valid()
      ensures error.Some? ==> (error.value.SplitFailed? || error.value.RequestFailed?)
      ensures error == Some(SplitFailed) ==> !RouteBatches.EverythingFits(size, limits)
      ensures refused == (old(refused) || error == Some(RequestFailed))
      ensures broken == (old(broken) || error.Some?)
      ensures error.None? ==> batch == []
    {
      if |batch| == 0 { return None; }
      var sent := WaitForPendingSend();
      if !sent { return Some(RequestFailed); }
      var routes := batch;
      batch := [];
      var split := RouteBatches.SplitRoutes(size, limits, routes);
      if !split.Batches? {
        RouteBatches.FittingRoutesSplit(size, limits, routes, split);
        broken := true;
        return Some(SplitFailed);
      }
      StartSender(split.batches);
      return None;
    }

    /** A new sender starts on batches numbered behind what was acknowledged. */
    method StartSender(batches: seq<seq<Route>>)
      requires Counted() && sendTail.None? && batch == []
      requires !broken ==> RoutesOf(acked) + Concat(batches) == added && NumberedFromZero(acked) && batchIndex == |acked|
      modifies this`sendTail, this`batchIndex
      ensures Valid()
    {
      var scheduled := Schedule(batches, batchIndex);
      if !broken { ScheduledRoutes(acked, scheduled, batches, batchIndex); }
      batchIndex := batchIndex + |scheduled|;
      sendTail := Some(Sending(scheduled, false));
      assert RoutesOf(acked + scheduled) + [] == RoutesOf(acked + scheduled);
    }

    /** Gives the batches consecutive indices. */
    static method Schedule(batches: seq<seq<Route>>, first: nat) returns (scheduled: seq<Scheduled>)
      ensures |scheduled| == |batches|
      ensures forall i :: 0 <= i < |batches| ==> scheduled[i] == Scheduled(first + i, batches[i])
    {
      scheduled := [];
      var next := first;
      for i := 0 to |batches|
        invariant next == first + i && |scheduled| == i
        invariant forall k :: 0 <= k < i ==> scheduled[k] == Scheduled(first + k, batches[k])
      {
        scheduled := scheduled + [Scheduled(next, batches[i])];
        next := next + 1;
      }
    }

    /** A route that may enter is stamped, counted and buffered. */
    method Take(route: Route, index: int)
      requires Valid() && 0 <= index < totalRoutes && index !in seenDeliveryIndices && SignedDeliveryIndex(route) == Some(index)
      modifies this`seenDeliveryIndices, this`routeCount, this`checksum, this`batch, this`added
      ensures Valid() && added == old(added) + [Stamp(route, index)] && batch == old(batch) + [Stamp(route, index)]
      ensures seenDeliveryIndices == old(seenDeliveryIndices) + {index}
    {
      var stamped := Stamp(route, index);
      AcceptNext(added, stamped, totalRoutes, seenDeliveryIndices);
      AddLast(sha, added, stamped);
      IndicesOfAppend(added, route, index);
      seenDeliveryIndices := seenDeliveryIndices + {index};
      routeCount := routeCount + 1;
      checksum := RouteChecksum.Add(checksum, RouteDigest(sha, stamped));
      batch := batch + [stamped];
      added := added + [stamped];
      assert !broken ==> RoutesOf(acked + Pending()) + batch == added;
    }

    /** A route is turned away exactly for what `Rejection` says, and then nothing changes. */
    method AddRoute(route: Route) returns (error: Option<StreamError>)
      requires Valid()
      modifies this
      ensures Valid()
      ensures var rejection := Rejection(route, totalRoutes, old(seenDeliveryIndices));
              if rejection.Some? then
                error == rejection && added == old(added) && batch == old(batch) && broken == old(broken) && refused == old(refused)
              else
                && (error.None? || error.value.SplitFailed? || error.value.RequestFailed?)
                && (error == Some(SplitFailed) ==> !RouteBatches.EverythingFits(size, limits))
                && refused == (old(refused) || error == Some(RequestFailed))
                && broken == (old(broken) || error.Some?)
                && added == old(added) + [Stamp(route, SignedDeliveryIndex(route).value)]
                && seenDeliveryIndices == old(seenDeliveryIndices) + {SignedDeliveryIndex(route).value}
                && (|old(batch)| + 1 < 1024 ==>
                      error.None? && batch == old(batch) + [Stamp(route, SignedDeliveryIndex(route).value)] && sendTail == old(sendTail) && acked == old(acked))
                && (|old(batch)| + 1 >= 1024 && error.None? ==> batch == [])
    {
      var index := SignedDeliveryIndex(route);
      if index.None? { return Some(MissingIndex); }
      if !(0 <= index.value < totalRoutes) { return Some(OutsideStream); }
      if index.value in seenDeliveryIndices { return Some(Duplicate); }
      Take(route, index.value);
      if |batch| >= ROUTE_STREAM_BATCH_ROUTES {
        error := EnqueueFlush();
      } else {
        error := None;
      }
    }

    /**
     Without an error, everything added was acknowledged: the batches, numbered from 0 without a gap, concatenate to
     the routes in the order they were added, every index of the stream was seen, and the checksum sent is both that
     of the routes and the combination of the batch checksums.
     */
    method Complete() returns (error: Option<StreamError>, expectedBatches: nat, sum: Checksum)
      requires Valid()
      modifies this`sendTail, this`acked, this`broken, this`refused, this`batch, this`batchIndex
      ensures Valid()
      ensures error == Some(SplitFailed) ==> !RouteBatches.EverythingFits(size, limits)
      ensures refused == (old(refused) || error == Some(RequestFailed))
      ensures error == Some(Incomplete) <==> |old(added)| != totalRoutes
      ensures error == Some(Incomplete) ==> acked == old(acked) && broken == old(broken)
      ensures error.Some? ==> error.value.Incomplete? || error.value.SplitFailed? || error.value.RequestFailed?
      ensures error.None? && !old(broken) ==>
        && RoutesOf(acked) == added
        && expectedBatches == |acked| && NumberedFromZero(acked)
        && (forall i :: i in seenDeliveryIndices <==> 0 <= i < totalRoutes)
        && sum == ChecksumOf(sha, added) == CombineAll(BatchChecksums(sha, BatchesOf(acked)))
    {
      expectedBatches, sum := 0, checksum;
      AcceptedCount(added, totalRoutes);
      if routeCount != totalRoutes || |seenDeliveryIndices| != totalRoutes {
        return Some(Incomplete), expectedBatches, sum;
      }
      error := EnqueueFlush();
      if error.Some? { return; }
      var sent := WaitForPendingSend();
      if !sent { return Some(RequestFailed), expectedBatches, sum; }
      expectedBatches := batchIndex;
      FullRange(seenDeliveryIndices, totalRoutes);
      BatchingIsIrrelevant(sha, BatchesOf(acked));
      if * { error, refused := Some(RequestFailed), true; } // transfer.route_stream.complete
    }
  }

  lemma AcceptNext(added: seq<Route>, stamped: Route, totalRoutes: int, seen: set<int>)
    requires Accepted(added, totalRoutes) && seen == IndicesOf(added)
    requires stamped.deliveryIndex.Some? && 0 <= stamped.deliveryIndex.value < totalRoutes
    requires stamped.deliveryIndex.value !in seen
    ensures Accepted(added + [stamped], totalRoutes)
  {
    forall i | 0 <= i < |added| ensures added[i].deliveryIndex != stamped.deliveryIndex {
      assert added[i] in added;
      assert added[i].deliveryIndex.value in seen;
    }
  }

  lemma ScheduledRoutes(acked: seq<Scheduled>, scheduled: seq<Scheduled>, batches: seq<seq<Route>>, first: nat)
    requires |scheduled| == |batches|
    requires forall i :: 0 <= i < |batches| ==> scheduled[i] == Scheduled(first + i, batches[i])
    ensures RoutesOf(acked + scheduled) == RoutesOf(acked) + Concat(batches)
    ensures NumberedFromZero(acked) && |acked| == first ==> NumberedFromZero(acked + scheduled)
  {
    assert BatchesOf(scheduled) == batches;
    assert BatchesOf(acked + scheduled) == BatchesOf(acked) + batches;
    ConcatPlus(BatchesOf(acked), batches);
  }
}
