/**
 `splitRoutes` of the Go lifecycle control (sdks/go/nats_control.go): packing
 routes into physical batches by binary search over an encoded size that is
 monotone over contiguous windows.
 */
module RouteBatches {
  import opened Basics

  /** What encoding one candidate batch gives: its size, or an encoder error. */
  datatype Encoded = Size(bytes: nat) | EncodeError

  datatype SplitResult<T> = Batches(batches: seq<seq<T>>) | TooLarge(bytes: nat) | Failed

  const ROUTE_TARGET_PAYLOAD_BYTES: nat := 4 * 1024 * 1024

  /** The payload limit of a batch; `target` is the size batches aim for. */
  datatype Limits = Limits(maxPayloadBytes: nat) {
    function Target(): nat {
      if maxPayloadBytes < ROUTE_TARGET_PAYLOAD_BYTES then maxPayloadBytes else ROUTE_TARGET_PAYLOAD_BYTES
    }
  }

  ghost predicate Encodes<T(!new)>(size: seq<T> -> Encoded, routes: seq<T>) {
    forall i, j :: 0 <= i <= j <= |routes| ==> size(routes[i..j]).Size?
  }

  ghost predicate Monotone<T(!new)>(size: seq<T> -> Encoded, routes: seq<T>) {
    forall i, k, l, j :: 0 <= i <= k <= l <= j <= |routes| && size(routes[i..j]).Size? && size(routes[k..l]).Size?
      ==> size(routes[k..l]).bytes <= size(routes[i..j]).bytes
  }

  /** Every window encodes, and a larger window never encodes smaller. */
  ghost predicate WellSized<T(!new)>(size: seq<T> -> Encoded, routes: seq<T>) {
    Encodes(size, routes) && Monotone(size, routes)
  }

  /** A batch that may be published: within the maximum, and within 4 MiB unless it is a single route. */
  ghost predicate Allowed<T(!new)>(size: seq<T> -> Encoded, limits: Limits, batch: seq<T>) {
    && |batch| >= 1
    && size(batch).Size?
    && size(batch).bytes <= limits.maxPayloadBytes && (|batch| == 1 || size(batch).bytes <= 4_194_304)
  }

  /** The routes that cannot be published even alone. */
  ghost predicate Oversized<T(!new)>(size: seq<T> -> Encoded, limits: Limits, routes: seq<T>, k: int) {
    0 <= k < |routes| && size(routes[k..k + 1]).Size? && size(routes[k..k + 1]).bytes > limits.maxPayloadBytes
  }

  /** Every batch encodes, and every single route is within the maximum. */
  ghost predicate EverythingFits<T(!new)>(size: seq<T> -> Encoded, limits: Limits) {
    forall batch: seq<T> :: size(batch).Size? && (|batch| == 1 ==> size(batch).bytes <= limits.maxPayloadBytes)
  }

  /** Then no split fails. */
  lemma FittingRoutesSplit<T(!new)>(size: seq<T> -> Encoded, limits: Limits, routes: seq<T>, result: SplitResult<T>)
    requires result.TooLarge? ==> exists k :: Oversized(size, limits, routes, k) && size(routes[k..k + 1]).bytes == result.bytes
    requires result.Failed? ==> !Encodes(size, routes)
    ensures EverythingFits(size, limits) ==> result.Batches?
  {
  }

  ghost predicate AllowedSplit<T(!new)>(size: seq<T> -> Encoded, limits: Limits, routes: seq<T>, batches: seq<seq<T>>) {
    Concat(batches) == routes && forall b :: b in batches ==> Allowed(size, limits, b)
  }

  /** No allowed split of the routes has fewer batches. */
  ghost predicate Shortest<T(!new)>(size: seq<T> -> Encoded, limits: Limits, routes: seq<T>, batches: seq<seq<T>>) {
    forall other :: AllowedSplit(size, limits, routes, other) ==> |batches| <= |other|
  }

  /** Consecutive allowed batches, each reaching as far as an allowed batch from its first route can. */
  ghost predicate GreedyPrefix<T(!new)>(size: seq<T> -> Encoded, limits: Limits, routes: seq<T>, batches: seq<seq<T>>, cuts: seq<nat>) {
    && |cuts| == |batches| + 1 && cuts[0] == 0
    && (forall i :: 0 <= i < |cuts| ==> cuts[i] <= |routes|)
    && (forall i :: 0 <= i < |batches| ==>
          && cuts[i] < cuts[i + 1]
          && batches[i] == routes[cuts[i]..cuts[i + 1]]
          && Allowed(size, limits, batches[i])
          && NothingLonger(size, limits, routes, cuts[i], cuts[i + 1]))
  }

  /** No allowed batch that starts at `offset` ends beyond `end`. */
  ghost predicate NothingLonger<T(!new)>(size: seq<T> -> Encoded, limits: Limits, routes: seq<T>, offset: nat, end: nat)
    requires offset <= end
  {
    forall e :: end < e <= |routes| ==> !Allowed(size, limits, routes[offset..e])
  }

  lemma AllowedSubwindow<T(!new)>(size: seq<T> -> Encoded, limits: Limits, routes: seq<T>, i: nat, k: nat, j: nat)
    requires WellSized(size, routes)
    requires i <= k < j <= |routes|
    requires Allowed(size, limits, routes[i..j])
    ensures Allowed(size, limits, routes[k..j])
  {
    assert size(routes[k..j]).bytes <= size(routes[i..j]).bytes;
  }

  /**
   Greedy stays ahead: batches that reach as far as they can from `cuts[i]` need no more batches than any allowed
   split of the routes from an offset at or before it.
   */
  lemma {:induction false} GreedyStaysAhead<T(!new)>(
      size: seq<T> -> Encoded, limits: Limits, routes: seq<T>,
      batches: seq<seq<T>>, cuts: seq<nat>, i: nat, offset: nat, other: seq<seq<T>>)
    requires WellSized(size, routes)
    requires GreedyPrefix(size, limits, routes, batches, cuts) && cuts[|batches|] == |routes|
    requires i <= |batches| && offset <= cuts[i]
    requires Concat(other) == routes[offset..] && forall b :: b in other ==> Allowed(size, limits, b)
    ensures |batches| - i <= |other|
    decreases |other| + |batches| - i
  {
    if i == |batches| {
    } else {
      assert batches[i] == routes[cuts[i]..cuts[i + 1]] && cuts[i] < cuts[i + 1] <= |routes|;
      assert other != [];
      var end := offset + |other[0]|;
      assert other[0] in other;
      assert routes[offset..][..|other[0]|] == other[0] && routes[offset..][|other[0]|..] == Concat(other[1..]);
      assert other[0] == routes[offset..end] && Concat(other[1..]) == routes[end..];
      if end <= cuts[i] {
        GreedyStaysAhead(size, limits, routes, batches, cuts, i, end, other[1..]);
      } else {
        AllowedSubwindow(size, limits, routes, offset, cuts[i], end);
        assert NothingLonger(size, limits, routes, cuts[i], cuts[i + 1]);
        assert end <= cuts[i + 1];
        GreedyStaysAhead(size, limits, routes, batches, cuts, i + 1, end, other[1..]);
      }
    }
  }

  /** A split exists only when every single route is within the maximum. */
  lemma {:induction false} SplitNeedsSmallRoutes<T(!new)>(
      size: seq<T> -> Encoded, limits: Limits, routes: seq<T>, offset: nat, batches: seq<seq<T>>, k: nat)
    requires WellSized(size, routes)
    requires offset <= k < |routes|
    requires Concat(batches) == routes[offset..] && forall b :: b in batches ==> Allowed(size, limits, b)
    ensures !Oversized(size, limits, routes, k)
    decreases |batches|
  {
    assert batches != [];
    var end := offset + |batches[0]|;
    assert batches[0] in batches;
    assert routes[offset..][..|batches[0]|] == batches[0] && routes[offset..][|batches[0]|..] == Concat(batches[1..]);
    assert batches[0] == routes[offset..end] && Concat(batches[1..]) == routes[end..];
    if k < end {
      assert size(routes[k..k + 1]).bytes <= size(routes[offset..end]).bytes;
    } else {
      SplitNeedsSmallRoutes(size, limits, routes, end, batches[1..], k);
    }
  }

  /** The widest window from `offset` within the target, by binary search; 0 when no window is. */
  method WidestWithinTarget<T(!new)>(size: seq<T> -> Encoded, limits: Limits, routes: seq<T>, offset: nat)
      returns (accepted: Option<nat>)
    requires offset < |routes|
    ensures accepted.None? ==> !Encodes(size, routes)
    ensures accepted.Some? ==> accepted.value <= |routes| - offset
    ensures accepted.Some? && accepted.value > 0 ==>
      var window := size(routes[offset..offset + accepted.value]); window.Size? && window.bytes <= limits.Target()
    ensures accepted.Some? && WellSized(size, routes) ==>
      forall e :: offset + accepted.value < e <= |routes| ==> size(routes[offset..e]).bytes > limits.Target()
  {
    var low, high, best := 1, |routes| - offset, 0;
    var count := high;
    while low <= high
      invariant 1 <= low <= high + 1 <= |routes| - offset + 1
      invariant best == low - 1
      invariant low <= high ==> low <= count <= high
      invariant best > 0 ==>
        var window := size(routes[offset..offset + best]); window.Size? && window.bytes <= limits.Target()
      invariant WellSized(size, routes) ==>
        forall e :: offset + high < e <= |routes| ==> size(routes[offset..e]).bytes > limits.Target()
      decreases high - low
    {
      var encoded := size(routes[offset..offset + count]);
      if encoded.EncodeError? { return None; }
      if encoded.bytes <= limits.Target() {
        best := count;
        low := count + 1;
      } else {
        if WellSized(size, routes) {
          forall e | offset + count <= e <= |routes| ensures size(routes[offset..e]).bytes > limits.Target() {
            assert encoded.bytes <= size(routes[offset..e]).bytes;
          }
        }
        high := count - 1;
      }
      count := (low + high) / 2;
    }
    return Some(best);
  }

  /** One more batch: nothing longer from `offset` is allowed. */
  lemma ExtendPrefix<T(!new)>(
      size: seq<T> -> Encoded, limits: Limits, routes: seq<T>, batches: seq<seq<T>>, cuts: seq<nat>, end: nat)
    requires GreedyPrefix(size, limits, routes, batches, cuts)
    requires cuts[|batches|] < end <= |routes|
    requires Allowed(size, limits, routes[cuts[|batches|]..end])
    requires NothingLonger(size, limits, routes, cuts[|batches|], end)
    ensures GreedyPrefix(size, limits, routes, batches + [routes[cuts[|batches|]..end]], cuts + [end])
  {
    var batches' := batches + [routes[cuts[|batches|]..end]];
    var cuts' := cuts + [end];
    forall i | 0 <= i < |batches'|
      ensures cuts'[i] < cuts'[i + 1] && batches'[i] == routes[cuts'[i]..cuts'[i + 1]] && Allowed(size, limits, batches'[i])
      ensures NothingLonger(size, limits, routes, cuts'[i], cuts'[i + 1])
    {
      if i < |batches| { assert batches'[i] == batches[i]; }
    }
  }

  /** Complete greedy batches are a shortest allowed split, and no route is oversized. */
  lemma GreedyIsOptimal<T(!new)>(size: seq<T> -> Encoded, limits: Limits, routes: seq<T>, batches: seq<seq<T>>, cuts: seq<nat>)
    requires WellSized(size, routes)
    requires GreedyPrefix(size, limits, routes, batches, cuts) && cuts[|batches|] == |routes|
    requires AllowedSplit(size, limits, routes, batches)
    ensures Shortest(size, limits, routes, batches)
    ensures forall k :: !Oversized(size, limits, routes, k)
  {
    assert routes[0..] == routes;
    forall other | AllowedSplit(size, limits, routes, other) ensures |batches| <= |other| {
      GreedyStaysAhead(size, limits, routes, batches, cuts, 0, 0, other);
    }
    forall k ensures !Oversized(size, limits, routes, k) {
      if 0 <= k < |routes| { SplitNeedsSmallRoutes(size, limits, routes, 0, batches, k); }
    }
  }

  /** One turn of the outer loop: the batch that starts at `offset`. */
  method NextBatch<T(!new)>(size: seq<T> -> Encoded, limits: Limits, routes: seq<T>, offset: nat) returns (next: SplitResult<T>)
    requires offset < |routes|
    ensures next.Failed? ==> !Encodes(size, routes)
    ensures next.TooLarge? ==> Oversized(size, limits, routes, offset) && size(routes[offset..offset + 1]).bytes == next.bytes
    ensures next.Batches? ==>
      && |next.batches| == 1 && Allowed(size, limits, next.batches[0])
      && offset + |next.batches[0]| <= |routes| && next.batches[0] == routes[offset..offset + |next.batches[0]|]
    ensures next.Batches? && WellSized(size, routes) ==>
      NothingLonger(size, limits, routes, offset, offset + |next.batches[0]|)
  {
    var widest := WidestWithinTarget(size, limits, routes, offset);
    if widest.None? { return Failed; }
    var accepted := widest.value;
    if accepted == 0 {
      var encoded := size(routes[offset..offset + 1]);
      if encoded.EncodeError? { return Failed; }
      if encoded.bytes > limits.maxPayloadBytes {
        return TooLarge(encoded.bytes);
      }
      accepted := 1;
    }
    return Batches([routes[offset..offset + accepted]]);
  }

  lemma PackAnother<T(!new)>(size: seq<T> -> Encoded, limits: Limits, routes: seq<T>, batches: seq<seq<T>>, offset: nat, end: nat)
    requires offset < end <= |routes|
    requires AllowedSplit(size, limits, routes[..offset], batches)
    requires Allowed(size, limits, routes[offset..end])
    ensures AllowedSplit(size, limits, routes[..end], batches + [routes[offset..end]])
  {
    ConcatAppend(batches, routes[offset..end]);
    assert routes[..offset] + routes[offset..end] == routes[..end];
  }

  method SplitRoutes<T(!new)>(size: seq<T> -> Encoded, limits: Limits, routes: seq<T>) returns (result: SplitResult<T>)
    // Whatever the sizes are, what is published concatenates to the input and respects the limits.
    ensures result.Batches? ==> AllowedSplit(size, limits, routes, result.batches)
    ensures result.TooLarge? ==>
      exists k :: Oversized(size, limits, routes, k) && size(routes[k..k + 1]).bytes == result.bytes
    ensures result.Failed? ==> !Encodes(size, routes)
    // With a monotone size it fails exactly when some route alone is above the maximum, and no split is shorter.
    ensures WellSized(size, routes) ==> (result.TooLarge? <==> exists k :: Oversized(size, limits, routes, k))
    ensures WellSized(size, routes) && result.Batches? ==> Shortest(size, limits, routes, result.batches)
  {
    var chunks: seq<seq<T>> := [];
    ghost var cuts: seq<nat> := [0];
    ghost var wellSized := WellSized(size, routes);
    var offset := 0;
    while offset < |routes|
      invariant 0 <= offset <= |routes|
      invariant AllowedSplit(size, limits, routes[..offset], chunks)
      invariant |cuts| == |chunks| + 1 && cuts[|chunks|] == offset
      invariant wellSized ==> GreedyPrefix(size, limits, routes, chunks, cuts)
    {
      var next := NextBatch(size, limits, routes, offset);
      if next.Failed? { return Failed; }
      if next.TooLarge? { return TooLarge(next.bytes); }
      var chunk := next.batches[0];
      if wellSized { ExtendPrefix(size, limits, routes, chunks, cuts, offset + |chunk|); }
      PackAnother(size, limits, routes, chunks, offset, offset + |chunk|);
      chunks := chunks + [chunk];
      offset := offset + |chunk|;
      cuts := cuts + [offset];
    }
    assert routes[..offset] == routes;
    if wellSized { GreedyIsOptimal(size, limits, routes, chunks, cuts); }
    return Batches(chunks);
  }
}
