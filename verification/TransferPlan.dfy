/**
 Compact transfer plans (sdks/go/provider_signing.go): the chunk iterator, the
 materialized chunks, and the whole way of a plan through the route stream.
 */
module TransferPlan {
  import opened Basics
  import opened Routes
  import opened RouteChecksum
  import opened RouteStream
  import RouteBatches

  datatype Source = Source(sourceId: string, size: int, url: string, globalChunkStart: int, chunkCount: int)

  datatype Destination = Destination(destinationId: string, provider: string, destinationIndex: int, finalObjectKeys: map<string, string>, metadata: Metadata)

  datatype Descriptor = Descriptor(
    planNonce: string, chunkSize: int, sources: seq<Source>, destinations: seq<Destination>,
    logicalChunkCount: int, deliveryRouteCount: int)

  datatype Target = Target(destinationId: string, provider: string, objectKey: string, metadata: Metadata)

  datatype Chunk = Chunk(
    chunkIndex: int, sourceId: string, sourceChunkIndex: int, sourceOffset: int, chunkSize: int, sourceUrl: string,
    targets: seq<Target>)

  const MULTIPART_MAX_SOURCE_CHUNKS: int := 10_000

  // ----- well-formed plans

  /** The number of chunks of the sources before `i`: the global chunk start the plan promises. */
  function ChunksBefore(sources: seq<Source>, i: nat): int
    requires i <= |sources|
  {
    if i == 0 then 0 else ChunksBefore(sources, i - 1) + sources[i - 1].chunkCount
  }

  /** The chunks of a source cover its bytes: every chunk but the last is full, none starts past the end. */
  predicate Covers(source: Source, chunkSize: int) {
    if source.chunkCount == 0 then source.size == 0
    else (source.chunkCount - 1) * chunkSize <= source.size <= source.chunkCount * chunkSize
  }

  ghost predicate WellFormedSource(plan: Descriptor, i: nat)
    requires i < |plan.sources|
  {
    && 0 <= plan.sources[i].chunkCount <= MULTIPART_MAX_SOURCE_CHUNKS
    && plan.sources[i].globalChunkStart == ChunksBefore(plan.sources, i)
    && Covers(plan.sources[i], plan.chunkSize)
  }

  ghost predicate WellFormed(plan: Descriptor) {
    && plan.chunkSize > 0
    && (forall i {:trigger WellFormedSource(plan, i)} :: 0 <= i < |plan.sources| ==> WellFormedSource(plan, i))
    && (forall i, j :: 0 <= i < j < |plan.sources| ==> plan.sources[i].sourceId != plan.sources[j].sourceId)
    && (forall d :: 0 <= d < |plan.destinations| ==> 0 <= plan.destinations[d].destinationIndex < |plan.destinations|)
    && (forall d, e :: 0 <= d < e < |plan.destinations| ==> plan.destinations[d].destinationIndex != plan.destinations[e].destinationIndex)
    && (forall d, i :: 0 <= d < |plan.destinations| && 0 <= i < |plan.sources| ==>
          plan.sources[i].sourceId in plan.destinations[d].finalObjectKeys
          && plan.destinations[d].finalObjectKeys[plan.sources[i].sourceId] != "")
    && plan.logicalChunkCount == ChunksBefore(plan.sources, |plan.sources|)
    && plan.deliveryRouteCount == plan.logicalChunkCount * |plan.destinations|
  }

  // ----- materializePlanChunk

  function FinalKey(destination: Destination, sourceId: string): string {
    if sourceId in destination.finalObjectKeys then destination.finalObjectKeys[sourceId] else ""
  }

  /** MultipartPartNumber(chunk, 0) */
  function PartNumber(sourceChunkIndex: int): Option<int> {
    if 0 <= sourceChunkIndex < MULTIPART_MAX_SOURCE_CHUNKS then Some(sourceChunkIndex + 1) else None
  }

  /** strings.EqualFold(provider, "hippius") on ASCII. */
  function Lower(c: char): char {
    if 'A' <= c <= 'Z' then ((c as int) + 32) as char else c
  }

  function IsHippius(provider: string): bool {
    |provider| == 7 && forall i :: 0 <= i < 7 ==> Lower(provider[i]) == "hippius"[i]
  }

  /** How staging keys and route generations are formatted. */
  datatype Names = Names(chunkKey: (string, string, int) -> string, generation: (int, string) -> string)

  method PlanTarget(plan: Descriptor, names: Names, destination: Destination, sourceId: string, chunkIndex: int, sourceChunkIndex: int, partNumber: int)
      returns (target: Option<Target>)
    requires partNumber == sourceChunkIndex + 1
    ensures target.None? <==> FinalKey(destination, sourceId) == ""
    ensures target.Some? ==> IsTargetOf(plan, names, destination, sourceId, chunkIndex, sourceChunkIndex, target.value)
  {
    var finalObjectKey := FinalKey(destination, sourceId);
    if finalObjectKey == "" { return None; }
    var metadata := destination.metadata["final_object_key" := Text(finalObjectKey)]["part_number" := Integer(partNumber)]
      ["logical_attempt_index" := Integer(0)]["attempt_slot" := Integer(0)]
      ["route_generation_id" := Text(names.generation(chunkIndex, destination.destinationId))]
      ["delivery_index" := Integer(chunkIndex * |plan.destinations| + destination.destinationIndex)];
    var objectKey := if IsHippius(destination.provider) then names.chunkKey(finalObjectKey, plan.planNonce, sourceChunkIndex) else finalObjectKey;
    target := Some(Target(destination.destinationId, destination.provider, objectKey, metadata));
  }

  method MaterializePlanChunk(plan: Descriptor, names: Names, sourceId: string, chunkIndex: int) returns (result: Option<Chunk>)
    ensures result.Some? ==> result.value.sourceId == sourceId && IsPlanChunk(plan, names, chunkIndex, result.value)
    ensures result.None? <==> !Materializable(plan, sourceId, chunkIndex)
  {
    var found: nat := 0;
    while found < |plan.sources| && plan.sources[found].sourceId != sourceId
      invariant found <= |plan.sources|
      invariant forall k :: 0 <= k < found ==> plan.sources[k].sourceId != sourceId
    {
      found := found + 1;
    }
    if found == |plan.sources| { return None; }
    var source := plan.sources[found];
    assert IsFirst(plan.sources, sourceId, found);
    var sourceChunkIndex := chunkIndex - source.globalChunkStart;
    if sourceChunkIndex < 0 || sourceChunkIndex >= source.chunkCount { return None; }
    var sourceOffset := sourceChunkIndex * plan.chunkSize;
    var chunkSize := plan.chunkSize;
    if source.size - sourceOffset < chunkSize {
      chunkSize := source.size - sourceOffset;
    }
    var partNumber := PartNumber(sourceChunkIndex);
    if partNumber.None? { return None; }
    var targets: seq<Target> := [];
    for d := 0 to |plan.destinations|
      invariant |targets| == d
      invariant forall k :: 0 <= k < d ==> FinalKey(plan.destinations[k], sourceId) != ""
      invariant forall k :: 0 <= k < d ==>
        IsTargetOf(plan, names, plan.destinations[k], sourceId, chunkIndex, sourceChunkIndex, targets[k])
    {
      var target := PlanTarget(plan, names, plan.destinations[d], sourceId, chunkIndex, sourceChunkIndex, partNumber.value);
      if target.None? { return None; }
      targets := targets + [target.value];
    }
    result := Some(Chunk(chunkIndex, sourceId, sourceChunkIndex, sourceOffset, chunkSize, source.url, targets));
  }

  ghost predicate IsFirst(sources: seq<Source>, sourceId: string, i: int) {
    0 <= i < |sources| && sources[i].sourceId == sourceId && forall k :: 0 <= k < i ==> sources[k].sourceId != sourceId
  }

  /** When a chunk exists: a source with the id, an index inside it, a part number, and a final key everywhere. */
  ghost predicate Materializable(plan: Descriptor, sourceId: string, chunkIndex: int) {
    exists i :: IsFirst(plan.sources, sourceId, i)
      && 0 <= chunkIndex - plan.sources[i].globalChunkStart < plan.sources[i].chunkCount
      && chunkIndex - plan.sources[i].globalChunkStart < 10_000
      && forall d :: 0 <= d < |plan.destinations| ==> FinalKey(plan.destinations[d], sourceId) != ""
  }

  /** The keys a plan adds to the metadata of a destination. */
  const PLANNED_KEYS: set<string> :=
    {"final_object_key", "part_number", "logical_attempt_index", "attempt_slot", "route_generation_id", "delivery_index"}

  /** A planned route is the first attempt, in the first slot, of the generation its chunk and destination name. */
  ghost predicate FirstAttempt(names: Names, chunkIndex: int, destinationId: string, metadata: Metadata) {
    && "logical_attempt_index" in metadata && metadata["logical_attempt_index"] == Integer(0)
    && "attempt_slot" in metadata && metadata["attempt_slot"] == Integer(0)
    && "route_generation_id" in metadata && metadata["route_generation_id"] == Text(names.generation(chunkIndex, destinationId))
  }

  ghost predicate IsTargetOf(plan: Descriptor, names: Names, destination: Destination, sourceId: string, chunkIndex: int, sourceChunkIndex: int, target: Target) {
    && target.destinationId == destination.destinationId
    && target.provider == destination.provider
    && "delivery_index" in target.metadata
    && target.metadata["delivery_index"] == Integer(chunkIndex * |plan.destinations| + destination.destinationIndex)
    && "part_number" in target.metadata && target.metadata["part_number"] == Integer(sourceChunkIndex + 1)
    && "final_object_key" in target.metadata && target.metadata["final_object_key"] == Text(FinalKey(destination, sourceId))
    && FirstAttempt(names, chunkIndex, destination.destinationId, target.metadata)
    && (forall k :: k in target.metadata <==> k in destination.metadata || k in PLANNED_KEYS)
    && (forall k :: k in destination.metadata && k !in PLANNED_KEYS ==> target.metadata[k] == destination.metadata[k])
    && target.objectKey == (if IsHippius(destination.provider)
                            then names.chunkKey(FinalKey(destination, sourceId), plan.planNonce, sourceChunkIndex)
                            else FinalKey(destination, sourceId))
  }

  ghost predicate IsChunkOf(plan: Descriptor, names: Names, source: Source, chunkIndex: int, chunk: Chunk) {
    var k := chunkIndex - source.globalChunkStart;
    && chunk.chunkIndex == chunkIndex && chunk.sourceId == source.sourceId && chunk.sourceUrl == source.url
    && 0 <= k < source.chunkCount && chunk.sourceChunkIndex == k
    && chunk.sourceOffset == k * plan.chunkSize
    && chunk.sourceOffset + chunk.chunkSize == (if source.size < (k + 1) * plan.chunkSize then source.size else (k + 1) * plan.chunkSize)
    && |chunk.targets| == |plan.destinations|
    && forall d :: 0 <= d < |plan.destinations| ==>
         IsTargetOf(plan, names, plan.destinations[d], source.sourceId, chunkIndex, k, chunk.targets[d])
  }

  /** The chunk of the first source with its id. */
  ghost predicate IsPlanChunk(plan: Descriptor, names: Names, chunkIndex: int, chunk: Chunk) {
    exists i :: IsFirst(plan.sources, chunk.sourceId, i) && IsChunkOf(plan, names, plan.sources[i], chunkIndex, chunk)
  }

  // ----- what chunks and indices of a well-formed plan are

  function ChunkEnd(source: Source, chunkSize: int, k: int): int {
    if source.size < (k + 1) * chunkSize then source.size else (k + 1) * chunkSize
  }

  /** Chunk by chunk, the byte ranges start at 0, meet without gap or overlap, and end at the source's size. */
  ghost predicate Tiles(source: Source, chunkSize: int) {
    && (source.chunkCount == 0 ==> source.size == 0)
    && (forall k {:trigger ChunkEnd(source, chunkSize, k)} :: 0 <= k < source.chunkCount ==> k * chunkSize <= ChunkEnd(source, chunkSize, k))
    && (forall k {:trigger ChunkEnd(source, chunkSize, k)} :: 0 <= k < source.chunkCount - 1 ==> ChunkEnd(source, chunkSize, k) == (k + 1) * chunkSize)
    && (source.chunkCount > 0 ==> ChunkEnd(source, chunkSize, source.chunkCount - 1) == source.size)
  }

  /** The chunks tile the source's bytes exactly when the chunk count fits its size. */
  lemma TilesIffCovers(source: Source, chunkSize: int)
    requires chunkSize > 0 && source.chunkCount >= 0
    ensures Tiles(source, chunkSize) <==> Covers(source, chunkSize)
  {
    if source.chunkCount > 0 {
      var last := source.chunkCount - 1;
      if Tiles(source, chunkSize) {
        assert last * chunkSize <= ChunkEnd(source, chunkSize, last) == source.size;
      }
      if Covers(source, chunkSize) {
        forall k | 0 <= k < source.chunkCount
          ensures k * chunkSize <= ChunkEnd(source, chunkSize, k)
          ensures k < last ==> ChunkEnd(source, chunkSize, k) == (k + 1) * chunkSize
        {
          MulMono(k, last, chunkSize);
          if k < last { MulMono(k + 1, last, chunkSize); }
        }
      }
    }
  }

  ghost predicate NoChunkIsEmpty(source: Source, chunkSize: int) {
    forall k {:trigger ChunkEnd(source, chunkSize, k)} :: 0 <= k < source.chunkCount ==> k * chunkSize < ChunkEnd(source, chunkSize, k)
  }

  /** The chunk count is the ceiling of the size over the chunk size exactly when the chunks tile the bytes and none is empty. */
  lemma CeilingIffNoChunkIsEmpty(source: Source, chunkSize: int)
    requires chunkSize > 0 && source.chunkCount >= 0 && source.size >= 0
    ensures source.chunkCount == CeilDiv(source.size, chunkSize) <==> Tiles(source, chunkSize) && NoChunkIsEmpty(source, chunkSize)
  {
    var n := CeilDiv(source.size, chunkSize);
    CeilDivMeaning(source.size, chunkSize);
    TilesIffCovers(source, chunkSize);
    if source.chunkCount == n {
      forall k | 0 <= k < n ensures k * chunkSize < ChunkEnd(source, chunkSize, k) {
        MulMono(k, n - 1, chunkSize);
        assert (k + 1) * chunkSize == k * chunkSize + chunkSize;
      }
    }
    if Tiles(source, chunkSize) && NoChunkIsEmpty(source, chunkSize) && source.chunkCount > 0 {
      var last := source.chunkCount - 1;
      assert last * chunkSize < ChunkEnd(source, chunkSize, last) == source.size;
      assert (last + 1) * chunkSize == last * chunkSize + chunkSize;
      CeilDivIs(source.size, chunkSize, source.chunkCount);
    }
  }

  /** A planned route: a chunk by its global index, and the position of a destination. */
  datatype Coordinate = Coordinate(chunkIndex: int, destination: int)

  ghost predicate Planned(plan: Descriptor, c: Coordinate) {
    0 <= c.chunkIndex < plan.logicalChunkCount && 0 <= c.destination < |plan.destinations|
  }

  function DeliveryIndex(plan: Descriptor, c: Coordinate): int
    requires 0 <= c.destination < |plan.destinations|
  {
    c.chunkIndex * |plan.destinations| + plan.destinations[c.destination].destinationIndex
  }

  lemma PairInRange(c: int, d: int, m: int, n: int)
    requires 0 <= c < m && 0 <= d < n
    ensures 0 <= c * n + d < m * n
  {
    MulMono(0, c, n);
    MulMono(c + 1, m, n);
  }

  lemma PairInjective(c1: int, d1: int, c2: int, d2: int, n: int)
    requires 0 <= d1 < n && 0 <= d2 < n && c1 * n + d1 == c2 * n + d2
    ensures c1 == c2 && d1 == d2
  {
    if c1 < c2 { MulMono(c1 + 1, c2, n); }
    if c2 < c1 { MulMono(c2 + 1, c1, n); }
  }

  lemma PairSurjective(index: int, m: int, n: int)
    requires m >= 0 && n >= 0 && 0 <= index < m * n
    ensures n > 0 && 0 <= index / n < m && 0 <= index % n < n && (index / n) * n + index % n == index
  {
    assert n != 0;
    if index / n >= m { MulMono(m, index / n, n); }
  }

  lemma DeliveryIndexInRange(plan: Descriptor, c: Coordinate)
    requires WellFormed(plan) && Planned(plan, c)
    ensures 0 <= DeliveryIndex(plan, c) < plan.deliveryRouteCount
  {
    PairInRange(c.chunkIndex, plan.destinations[c.destination].destinationIndex, plan.logicalChunkCount, |plan.destinations|);
  }

  lemma DeliveryIndexInjective(plan: Descriptor, c1: Coordinate, c2: Coordinate)
    requires WellFormed(plan) && Planned(plan, c1) && Planned(plan, c2)
    requires DeliveryIndex(plan, c1) == DeliveryIndex(plan, c2)
    ensures c1 == c2
  {
    PairInjective(c1.chunkIndex, plan.destinations[c1.destination].destinationIndex,
                  c2.chunkIndex, plan.destinations[c2.destination].destinationIndex, |plan.destinations|);
  }

  function DestinationIndices(destinations: seq<Destination>): set<int> {
    set d | d in destinations :: d.destinationIndex
  }

  lemma {:induction false} DistinctIndicesCount(destinations: seq<Destination>)
    requires forall d, e :: 0 <= d < e < |destinations| ==> destinations[d].destinationIndex != destinations[e].destinationIndex
    ensures |DestinationIndices(destinations)| == |destinations|
  {
    if destinations != [] {
      var n := |destinations| - 1;
      var last := destinations[n];
      assert destinations == destinations[..n] + [last];
      DistinctIndicesCount(destinations[..n]);
      assert DestinationIndices(destinations) == DestinationIndices(destinations[..n]) + {last.destinationIndex};
    }
  }

  /** The destination indices are all of [0, |destinations|). */
  lemma DestinationWithIndex(plan: Descriptor, index: int) returns (d: int)
    requires WellFormed(plan) && 0 <= index < |plan.destinations|
    ensures 0 <= d < |plan.destinations| && plan.destinations[d].destinationIndex == index
  {
    DistinctIndicesCount(plan.destinations);
    FullRange(DestinationIndices(plan.destinations), |plan.destinations|);
    assert index in DestinationIndices(plan.destinations);
    d :| 0 <= d < |plan.destinations| && plan.destinations[d].destinationIndex == index;
  }

  lemma {:induction false} ChunksBeforeMono(plan: Descriptor, i: nat, j: nat)
    requires WellFormed(plan) && i <= j <= |plan.sources|
    ensures ChunksBefore(plan.sources, i) <= ChunksBefore(plan.sources, j)
    decreases j
  {
    if i < j {
      assert WellFormedSource(plan, j - 1);
      ChunksBeforeMono(plan, i, j - 1);
    }
  }

  lemma LogicalCountNonNegative(plan: Descriptor, i: nat)
    requires WellFormed(plan) && i <= |plan.sources|
    ensures 0 <= ChunksBefore(plan.sources, i) <= plan.logicalChunkCount
  {
    ChunksBeforeMono(plan, 0, i);
    ChunksBeforeMono(plan, i, |plan.sources|);
  }

  /** Every index of the stream belongs to a planned route; with injectivity, the indices are a bijection. */
  lemma DeliveryIndexSurjective(plan: Descriptor, index: int) returns (c: Coordinate)
    requires WellFormed(plan) && 0 <= index < plan.deliveryRouteCount
    ensures Planned(plan, c) && DeliveryIndex(plan, c) == index
  {
    LogicalCountNonNegative(plan, 0);
    PairSurjective(index, plan.logicalChunkCount, |plan.destinations|);
    var d := DestinationWithIndex(plan, index % |plan.destinations|);
    c := Coordinate(index / |plan.destinations|, d);
  }

  lemma MaterializableAt(plan: Descriptor, i: nat, chunkIndex: int)
    requires i < |plan.sources| && IsFirst(plan.sources, plan.sources[i].sourceId, i)
    requires 0 <= chunkIndex - plan.sources[i].globalChunkStart < plan.sources[i].chunkCount <= MULTIPART_MAX_SOURCE_CHUNKS
    requires forall d :: 0 <= d < |plan.destinations| ==> FinalKey(plan.destinations[d], plan.sources[i].sourceId) != ""
    ensures Materializable(plan, plan.sources[i].sourceId, chunkIndex)
  {
  }

  /** What the next chunk of a well-formed plan is. */
  lemma WellFormedChunk(plan: Descriptor, i: nat, k: nat)
    requires WellFormed(plan) && i < |plan.sources| && k < plan.sources[i].chunkCount
    ensures plan.sources[i].globalChunkStart == ChunksBefore(plan.sources, i)
    ensures Materializable(plan, plan.sources[i].sourceId, plan.sources[i].globalChunkStart + k)
    ensures ChunksBefore(plan.sources, i) + k < plan.logicalChunkCount
  {
    assert WellFormedSource(plan, i);
    LogicalCountNonNegative(plan, i + 1);
    MaterializableAt(plan, i, plan.sources[i].globalChunkStart + k);
  }

  // ----- the iterator

  /** The chunk the iterator asks for; on a well-formed plan it exists and carries its global index. */
  method ChunkAt(plan: Descriptor, names: Names, i: nat, k: nat) returns (chunk: Option<Chunk>)
    requires i < |plan.sources| && k < plan.sources[i].chunkCount
    ensures WellFormed(plan) ==>
      && chunk.Some? && IsPlanChunk(plan, names, ChunksBefore(plan.sources, i) + k, chunk.value)
      && ChunksBefore(plan.sources, i) + k < plan.logicalChunkCount
  {
    if WellFormed(plan) { WellFormedChunk(plan, i, k); }
    chunk := MaterializePlanChunk(plan, names, plan.sources[i].sourceId, plan.sources[i].globalChunkStart + k);
  }

  datatype NextResult = Item(chunk: Chunk) | Done | NotFound

  class PlanChunkIterator {
    const plan: Descriptor
    const names: Names
    var sourceIndex: nat
    var sourceChunkIndex: nat

    ghost predicate Valid()
      reads this
    {
      && sourceIndex <= |plan.sources|
      && (sourceIndex < |plan.sources| ==> sourceChunkIndex == 0 || sourceChunkIndex <= plan.sources[sourceIndex].chunkCount)
      && (sourceIndex == |plan.sources| ==> sourceChunkIndex == 0)
    }

    /** How many chunks were handed out. */
    ghost function Position(): int
      requires Valid()
      reads this
    {
      ChunksBefore(plan.sources, sourceIndex) + sourceChunkIndex
    }

    constructor (plan: Descriptor, names: Names)
      ensures Valid() && Position() == 0 && this.plan == plan && this.names == names
    {
      this.plan, this.names := plan, names;
      sourceIndex, sourceChunkIndex := 0, 0;
    }

    /** On a well-formed plan, the calls hand out chunks 0, 1, ... up to the logical chunk count, and then none. */
    method Next() returns (result: NextResult)
      requires Valid()
      modifies this
      ensures Valid()
      ensures WellFormed(plan) ==> !result.NotFound?
      ensures WellFormed(plan) ==> (result.Done? <==> old(Position()) == plan.logicalChunkCount)
      ensures WellFormed(plan) && result.Done? ==> Position() == plan.logicalChunkCount
      ensures WellFormed(plan) && result.Item? ==>
        && Position() == old(Position()) + 1 <= plan.logicalChunkCount
        && IsPlanChunk(plan, names, old(Position()), result.chunk)
    {
      while sourceIndex < |plan.sources|
        invariant Valid()
        invariant WellFormed(plan) ==> Position() == old(Position())
        decreases |plan.sources| - sourceIndex
      {
        if sourceChunkIndex < plan.sources[sourceIndex].chunkCount {
          var chunk := ChunkAt(plan, names, sourceIndex, sourceChunkIndex);
          sourceChunkIndex := sourceChunkIndex + 1;
          return if chunk.None? then NotFound else Item(chunk.value);
        }
        assert WellFormed(plan) ==> WellFormedSource(plan, sourceIndex);
        sourceIndex := sourceIndex + 1;
        sourceChunkIndex := 0;
      }
      return Done;
    }
  }

  // ----- signing, and the whole stream

  const PART_ROUTE_METADATA_KEYS: set<string> :=
    {"part_number", "logical_attempt_index", "attempt_slot", "route_generation_id", "delivery_index", "etag_required"}

  /** The keys signDestinationRoute adds to the target's metadata. */
  const CONTROL_KEYS: set<string> :=
    {"multipart_group_id", "upload_id", "complete_url", "abort_url", "list_page_url", "final_head_url", "final_object_key",
     "expected_object_size", "expected_part_count", "max_part_number", "final_object_metadata"}

  method PartRouteMetadata(metadata: Metadata, directPut: bool) returns (out: Metadata)
    ensures forall k :: k in out <==> k in metadata && k in PART_ROUTE_METADATA_KEYS && (directPut ==> k != "part_number")
    ensures forall k :: k in out ==> out[k] == metadata[k]
  {
    out := map[];
    var todo := metadata.Keys;
    while todo != {}
      invariant todo <= metadata.Keys
      invariant forall k :: k in out <==> k in metadata && k !in todo && k in PART_ROUTE_METADATA_KEYS
      invariant forall k :: k in out ==> out[k] == metadata[k]
    {
      var k :| k in todo;
      todo := todo - {k};
      if k in PART_ROUTE_METADATA_KEYS { out := out[k := metadata[k]]; }
    }
    if directPut { out := out - {"part_number"}; }
  }

  /** What presigning gives one route; `controls` are the multipart controls of its group, if any. */
  datatype Grant = Grant(
    sourceUrl: string, destUrl: string, expiresAt: string, headers: Option<map<string, string>>, directPut: bool, controls: Metadata)

  /** The route carries what was granted, and of the target's metadata what a part route keeps. */
  ghost predicate CarriesGrant(target: Target, grant: Grant, route: Route) {
    && route.sourceUrl == grant.sourceUrl && route.destUrl == grant.destUrl && route.expiresAt == grant.expiresAt
    && route.headers == grant.headers && route.destHeaders == map[]
    && (forall k :: k in grant.controls ==> k in route.metadata && route.metadata[k] == grant.controls[k])
    && (forall k :: k !in grant.controls ==>
          (k in route.metadata <==> k in target.metadata && k in PART_ROUTE_METADATA_KEYS && !(k == "part_number" && grant.directPut)))
    && (forall k :: k !in grant.controls && k in route.metadata ==> route.metadata[k] == target.metadata[k])
  }

  /** Signing never touches the planned delivery index, and leaves the route's own field unset. */
  method SignRoute(chunk: Chunk, target: Target, grant: Grant) returns (route: Route)
    requires grant.controls.Keys <= CONTROL_KEYS
    ensures route.sourceId == chunk.sourceId && route.destinationId == target.destinationId && route.chunkIndex == chunk.chunkIndex
    ensures route.sourceOffset == chunk.sourceOffset && route.chunkSize == chunk.chunkSize && route.deliveryIndex.None?
    ensures CarriesGrant(target, grant, route)
  {
    var kept := PartRouteMetadata(target.metadata, grant.directPut);
    route := Route(chunk.sourceId, target.destinationId, chunk.chunkIndex, None, grant.sourceUrl, grant.destUrl,
                   chunk.sourceOffset, chunk.chunkSize, grant.expiresAt, grant.headers, map[], kept + grant.controls);
  }

  datatype StreamOutcome = Streamed(expectedBatches: nat, sum: Checksum) | Interrupted | Unsigned | PlanBroken | Rejected(error: StreamError)

  type Signer = (Chunk, Target) -> Option<Grant>

  ghost predicate Unsignable(signer: Signer) { exists chunk, target :: signer(chunk, target).None? }

  /**
   Every failure has its reason: a route that cannot be signed, a cancellation (when `cancels` says that there is one),
   a batch that does not fit, a refused request.
   */
  ghost predicate Blamed(outcome: StreamOutcome, signer: Signer, sender: RouteStreamSender, cancels: bool)
    reads sender
  {
    match outcome
    case Streamed(_, _) => true
    case Unsigned => Unsignable(signer)
    case Interrupted => cancels
    case PlanBroken => false
    case Rejected(error) =>
      (error.SplitFailed? && !RouteBatches.EverythingFits(sender.size, sender.limits)) || (error.RequestFailed? && sender.refused)
  }

  /** What the routes handed to the sender and those still being signed say about the sender's indices. */
  ghost predicate Progress(plan: Descriptor, names: Names, handedOut: set<Coordinate>, pending: map<Coordinate, Chunk>, seen: set<int>) {
    && pending.Keys <= handedOut
    && (forall c :: c in handedOut ==> Planned(plan, c))
    && (forall c :: c in pending ==> IsPlanChunk(plan, names, c.chunkIndex, pending[c]))
    && SeenInv(IndexFn(plan), handedOut, pending.Keys, seen)
  }

  function IndexFn(plan: Descriptor): Coordinate -> int {
    (c: Coordinate) => if 0 <= c.destination < |plan.destinations| then DeliveryIndex(plan, c) else -1
  }

  /** Seen are the indices of exactly the routes that were handed out and are no longer pending. */
  ghost predicate SeenInv(f: Coordinate -> int, handedOut: set<Coordinate>, pending: set<Coordinate>, seen: set<int>) {
    && (forall c :: c in handedOut ==> (c in pending <==> f(c) !in seen))
    && (forall i :: i in seen ==> exists c :: c in handedOut && f(c) == i)
  }

  lemma SeenArrive(f: Coordinate -> int, handedOut: set<Coordinate>, pending: set<Coordinate>, seen: set<int>, c: Coordinate)
    requires SeenInv(f, handedOut, pending, seen) && c in pending && c in handedOut
    requires forall d :: d in handedOut && f(d) == f(c) ==> d == c
    ensures f(c) !in seen && SeenInv(f, handedOut, pending - {c}, seen + {f(c)})
  {
  }

  ghost predicate IndexInjective(plan: Descriptor) {
    forall c, d :: Planned(plan, c) && Planned(plan, d) && DeliveryIndex(plan, c) == DeliveryIndex(plan, d) ==> c == d
  }

  lemma PlanIndexInjective(plan: Descriptor)
    requires WellFormed(plan)
    ensures IndexInjective(plan)
  {
    forall c, d | Planned(plan, c) && Planned(plan, d) && DeliveryIndex(plan, c) == DeliveryIndex(plan, d) ensures c == d {
      DeliveryIndexInjective(plan, c, d);
    }
  }

  lemma HandOut(plan: Descriptor, names: Names, handedOut: set<Coordinate>, pending: map<Coordinate, Chunk>, seen: set<int>, c: Coordinate, chunk: Chunk)
    requires IndexInjective(plan) && Progress(plan, names, handedOut, pending, seen)
    requires c !in handedOut && Planned(plan, c) && IsPlanChunk(plan, names, c.chunkIndex, chunk)
    ensures Progress(plan, names, handedOut + {c}, pending[c := chunk], seen)
  {
  }

  /** Once every planned route arrived, the indices are the whole stream. */
  lemma AllArrived(plan: Descriptor, names: Names, handedOut: set<Coordinate>, seen: set<int>)
    requires WellFormed(plan) && Progress(plan, names, handedOut, map[], seen)
    requires forall c :: Planned(plan, c) ==> c in handedOut
    ensures plan.deliveryRouteCount >= 0 && |seen| == plan.deliveryRouteCount
  {
    LogicalCountNonNegative(plan, 0);
    MulMono(0, plan.logicalChunkCount, |plan.destinations|);
    forall i ensures i in seen <==> 0 <= i < plan.deliveryRouteCount {
      if i in seen {
        var c :| c in handedOut && IndexFn(plan)(c) == i;
        DeliveryIndexInRange(plan, c);
      }
      if 0 <= i < plan.deliveryRouteCount {
        var c := DeliveryIndexSurjective(plan, i);
        assert c in handedOut && IndexFn(plan)(c) == i;
      }
    }
    RangeCount(seen, plan.deliveryRouteCount);
  }

  lemma {:induction false} RangeCount(s: set<int>, n: nat)
    requires forall i :: i in s <==> 0 <= i < n
    ensures |s| == n
  {
    if n == 0 {
      forall i ensures i !in s { }
      assert s == {};
    } else {
      RangeCount(s - {n - 1}, n - 1);
    }
  }

  /** The route is about one chunk of a source of the plan, and about all its bytes. */
  ghost predicate CarriesChunk(plan: Descriptor, route: Route) {
    exists i :: 0 <= i < |plan.sources| && IsChunkRange(plan.sources[i], plan.chunkSize, route)
  }

  ghost predicate IsChunkRange(source: Source, chunkSize: int, route: Route) {
    var k := route.chunkIndex - source.globalChunkStart;
    && 0 <= k < source.chunkCount && route.sourceId == source.sourceId
    && route.sourceOffset == k * chunkSize && route.sourceOffset + route.chunkSize == ChunkEnd(source, chunkSize, k)
  }

  /** What was signed for the chunk and the target of a coordinate is what the route carries, part number and attempt included. */
  ghost predicate SignedFor(plan: Descriptor, names: Names, signer: Signer, c: Coordinate, route: Route) {
    exists chunk :: IsPlanChunk(plan, names, c.chunkIndex, chunk) && SignedWith(plan, names, signer, c, chunk, route)
  }

  ghost predicate SignedWith(plan: Descriptor, names: Names, signer: Signer, c: Coordinate, chunk: Chunk, route: Route) {
    && 0 <= c.destination < |plan.destinations| && |chunk.targets| == |plan.destinations|
    && var grant := signer(chunk, chunk.targets[c.destination]);
    && grant.Some? && CarriesGrant(chunk.targets[c.destination], grant.value, route)
    && FirstAttempt(names, c.chunkIndex, plan.destinations[c.destination].destinationId, route.metadata)
    && (if grant.value.directPut then "part_number" !in route.metadata
        else "part_number" in route.metadata && route.metadata["part_number"] == Integer(chunk.sourceChunkIndex + 1))
  }

  /** Which planned route a stamped route is: its bytes, its destination, its place in the delivery, and how it was signed. */
  ghost predicate IsRouteOf(plan: Descriptor, names: Names, signer: Signer, c: Coordinate, route: Route) {
    && Planned(plan, c) && CarriesChunk(plan, route) && SignedFor(plan, names, signer, c, route)
    && route.chunkIndex == c.chunkIndex
    && route.destinationId == plan.destinations[c.destination].destinationId
    && route.deliveryIndex == Some(DeliveryIndex(plan, c))
  }

  ghost predicate AllPlanned(plan: Descriptor, names: Names, signer: Signer, routes: seq<Route>) {
    forall r :: r in routes ==> InPlan(plan, names, signer, r)
  }

  ghost predicate InPlan(plan: Descriptor, names: Names, signer: Signer, route: Route) {
    exists c :: IsRouteOf(plan, names, signer, c, route)
  }

  ghost predicate SignerKeepsToControls(signer: Signer) {
    forall chunk, target :: signer(chunk, target).Some? ==> signer(chunk, target).value.controls.Keys <= CONTROL_KEYS
  }

  /** What holds of the sender between two completed routes. */
  ghost predicate Sending(plan: Descriptor, names: Names, signer: Signer, sender: RouteStreamSender)
    reads sender
  {
    sender.Valid() && !sender.broken && sender.totalRoutes == plan.deliveryRouteCount && AllPlanned(plan, names, signer, sender.added)
  }

  /** Signing the target of a coordinate gives a route of that coordinate, or fails. */
  method SignPending(plan: Descriptor, names: Names, c: Coordinate, chunk: Chunk, signer: Signer) returns (route: Option<Route>)
    requires Planned(plan, c) && IsPlanChunk(plan, names, c.chunkIndex, chunk) && SignerKeepsToControls(signer)
    ensures route.None? ==> Unsignable(signer)
    ensures route.Some? ==> SignedDeliveryIndex(route.value) == Some(DeliveryIndex(plan, c))
    ensures route.Some? ==> IsRouteOf(plan, names, signer, c, Stamp(route.value, DeliveryIndex(plan, c)))
  {
    PlanChunkTargets(plan, names, c.chunkIndex, chunk);
    var grant := signer(chunk, chunk.targets[c.destination]);
    if grant.None? { return None; }
    var signed := SignRoute(chunk, chunk.targets[c.destination], grant.value);
    SignedIsPlanned(plan, names, signer, c, chunk, signed);
    route := Some(signed);
  }

  lemma SignedIsPlanned(plan: Descriptor, names: Names, signer: Signer, c: Coordinate, chunk: Chunk, signed: Route)
    requires Planned(plan, c) && IsPlanChunk(plan, names, c.chunkIndex, chunk) && |chunk.targets| == |plan.destinations|
    requires var grant := signer(chunk, chunk.targets[c.destination]);
             grant.Some? && grant.value.controls.Keys <= CONTROL_KEYS && CarriesGrant(chunk.targets[c.destination], grant.value, signed)
    requires signed.sourceId == chunk.sourceId && signed.destinationId == chunk.targets[c.destination].destinationId && signed.chunkIndex == chunk.chunkIndex
    requires signed.sourceOffset == chunk.sourceOffset && signed.chunkSize == chunk.chunkSize && signed.deliveryIndex.None?
    ensures SignedDeliveryIndex(signed) == Some(DeliveryIndex(plan, c))
    ensures IsRouteOf(plan, names, signer, c, Stamp(signed, DeliveryIndex(plan, c)))
  {
    var target := chunk.targets[c.destination];
    PlanChunkTargets(plan, names, c.chunkIndex, chunk);
    KeepsPlanned(names, c.chunkIndex, target, signer(chunk, target).value, signed);
    ChunkRange(plan, names, chunk, Stamp(signed, DeliveryIndex(plan, c)));
    assert SignedWith(plan, names, signer, c, chunk, Stamp(signed, DeliveryIndex(plan, c)));
  }

  /** What a target's metadata plans reaches the route, since no control of a grant has such a key. */
  lemma KeepsPlanned(names: Names, chunkIndex: int, target: Target, grant: Grant, route: Route)
    requires CarriesGrant(target, grant, route) && grant.controls.Keys <= CONTROL_KEYS
    requires FirstAttempt(names, chunkIndex, target.destinationId, target.metadata) && "part_number" in target.metadata
    requires "delivery_index" in target.metadata && target.metadata["delivery_index"].Integer?
    ensures FirstAttempt(names, chunkIndex, target.destinationId, route.metadata)
    ensures SignedDeliveryIndex(route) == Some(target.metadata["delivery_index"].n)
    ensures if grant.directPut then "part_number" !in route.metadata
            else "part_number" in route.metadata && route.metadata["part_number"] == target.metadata["part_number"]
  {
    assert "delivery_index" !in CONTROL_KEYS && "part_number" !in CONTROL_KEYS;
    assert "logical_attempt_index" !in CONTROL_KEYS && "attempt_slot" !in CONTROL_KEYS && "route_generation_id" !in CONTROL_KEYS;
  }

  lemma ChunkRange(plan: Descriptor, names: Names, chunk: Chunk, route: Route)
    requires IsPlanChunk(plan, names, chunk.chunkIndex, chunk)
    requires route.chunkIndex == chunk.chunkIndex && route.sourceId == chunk.sourceId
    requires route.sourceOffset == chunk.sourceOffset && route.chunkSize == chunk.chunkSize
    ensures CarriesChunk(plan, route)
  {
    var i :| IsFirst(plan.sources, chunk.sourceId, i) && IsChunkOf(plan, names, plan.sources[i], chunk.chunkIndex, chunk);
    assert IsChunkRange(plan.sources[i], plan.chunkSize, route);
  }

  lemma PlanChunkTargets(plan: Descriptor, names: Names, chunkIndex: int, chunk: Chunk)
    requires IsPlanChunk(plan, names, chunkIndex, chunk)
    ensures |chunk.targets| == |plan.destinations| && chunk.chunkIndex == chunkIndex
    ensures forall d :: 0 <= d < |plan.destinations| ==>
      && chunk.targets[d].destinationId == plan.destinations[d].destinationId
      && FirstAttempt(names, chunkIndex, plan.destinations[d].destinationId, chunk.targets[d].metadata)
      && "part_number" in chunk.targets[d].metadata && chunk.targets[d].metadata["part_number"] == Integer(chunk.sourceChunkIndex + 1)
      && "delivery_index" in chunk.targets[d].metadata
      && chunk.targets[d].metadata["delivery_index"] == Integer(chunkIndex * |plan.destinations| + plan.destinations[d].destinationIndex)
  {
  }

  lemma ArriveInPlan(plan: Descriptor, names: Names, handedOut: set<Coordinate>, pending: map<Coordinate, Chunk>, seen: set<int>, c: Coordinate)
    requires WellFormed(plan) && Progress(plan, names, handedOut, pending, seen) && c in pending
    ensures DeliveryIndex(plan, c) !in seen && 0 <= DeliveryIndex(plan, c) < plan.deliveryRouteCount
    ensures Progress(plan, names, handedOut, pending - {c}, seen + {DeliveryIndex(plan, c)})
  {
    PlanIndexInjective(plan);
    DeliveryIndexInRange(plan, c);
    Arrives(plan, names, handedOut, pending, seen, c);
  }

  lemma Arrives(plan: Descriptor, names: Names, handedOut: set<Coordinate>, pending: map<Coordinate, Chunk>, seen: set<int>, c: Coordinate)
    requires IndexInjective(plan) && Progress(plan, names, handedOut, pending, seen) && c in pending
    ensures DeliveryIndex(plan, c) !in seen && Progress(plan, names, handedOut, pending - {c}, seen + {DeliveryIndex(plan, c)})
  {
    SeenArrive(IndexFn(plan), handedOut, pending.Keys, seen, c);
    assert (pending - {c}).Keys == pending.Keys - {c};
  }

  lemma AllPlannedAppend(plan: Descriptor, names: Names, signer: Signer, routes: seq<Route>, c: Coordinate, route: Route)
    requires AllPlanned(plan, names, signer, routes) && IsRouteOf(plan, names, signer, c, route)
    ensures AllPlanned(plan, names, signer, routes + [route])
  {
    assert InPlan(plan, names, signer, route);
  }

  /** A route of a coordinate the sender has not seen is accepted. */
  method AddPlanned(
      plan: Descriptor, ghost names: Names, sender: RouteStreamSender, c: Coordinate, route: Route, ghost signer: Signer, ghost cancels: bool) returns (failure: Option<StreamOutcome>)
    requires Sending(plan, names, signer, sender) && Planned(plan, c)
    requires SignedDeliveryIndex(route) == Some(DeliveryIndex(plan, c)) && IsRouteOf(plan, names, signer, c, Stamp(route, DeliveryIndex(plan, c)))
    requires 0 <= DeliveryIndex(plan, c) < plan.deliveryRouteCount && DeliveryIndex(plan, c) !in sender.seenDeliveryIndices
    modifies sender
    ensures sender.Valid()
    ensures failure.Some? ==> !failure.value.Streamed? && Blamed(failure.value, signer, sender, cancels)
    ensures failure.None? ==> Sending(plan, names, signer, sender)
    ensures failure.None? ==> sender.seenDeliveryIndices == old(sender.seenDeliveryIndices) + {DeliveryIndex(plan, c)}
  {
    AllPlannedAppend(plan, names, signer, sender.added, c, Stamp(route, DeliveryIndex(plan, c)));
    var error := sender.AddRoute(route);
    failure := if error.Some? then Some(Rejected(error.value)) else None;
  }

  /** One completed route, whichever of the pending ones it is, goes to the sender; it is never turned away. */
  method FlushCompletedRoute(
      plan: Descriptor, names: Names, sender: RouteStreamSender, signer: Signer, cancels: bool, pending: map<Coordinate, Chunk>, ghost handedOut: set<Coordinate>)
      returns (failure: Option<StreamOutcome>, pending': map<Coordinate, Chunk>)
    requires WellFormed(plan) && SignerKeepsToControls(signer)
    requires Sending(plan, names, signer, sender) && Progress(plan, names, handedOut, pending, sender.seenDeliveryIndices) && pending != map[]
    modifies sender
    ensures sender.Valid()
    ensures failure.Some? ==> !failure.value.Streamed? && Blamed(failure.value, signer, sender, cancels)
    ensures failure.None? ==> Sending(plan, names, signer, sender) && Progress(plan, names, handedOut, pending', sender.seenDeliveryIndices)
    ensures pending'.Keys < pending.Keys && |pending'| == |pending| - 1
  {
    var c :| c in pending;
    pending' := pending - {c};
    OneLess(pending, c);
    var route := SignPending(plan, names, c, pending[c], signer);
    if route.None? { return Some(Unsigned), pending'; }
    var stop: bool := *; // ownership lost
    if stop && cancels { return Some(Interrupted), pending'; }
    ArriveInPlan(plan, names, handedOut, pending, sender.seenDeliveryIndices, c);
    failure := AddPlanned(plan, names, sender, c, route.value, signer, cancels);
  }

  lemma OneLess(pending: map<Coordinate, Chunk>, c: Coordinate)
    requires c in pending
    ensures (pending - {c}).Keys < pending.Keys && |pending - {c}| == |pending| - 1
  {
    var less := pending - {c};
    assert c !in less.Keys && pending.Keys == less.Keys + {c};
    assert |pending| == |pending.Keys| && |less| == |less.Keys|;
  }

  lemma OneMorePending(pending: map<Coordinate, Chunk>, c: Coordinate, chunk: Chunk)
    requires c !in pending
    ensures |pending[c := chunk]| == |pending| + 1
  {
  }

  /** What was handed out when the iterator stands at `position` and `d` targets of its last chunk were started. */
  ghost predicate HandedOutTo(plan: Descriptor, handedOut: set<Coordinate>, position: int, d: int) {
    forall c :: c in handedOut <==> Planned(plan, c) && (c.chunkIndex < position || (c.chunkIndex == position && c.destination < d))
  }

  lemma HandOutNext(plan: Descriptor, names: Names, handedOut: set<Coordinate>, pending: map<Coordinate, Chunk>, seen: set<int>, position: int, d: int, chunk: Chunk)
    requires WellFormed(plan) && Progress(plan, names, handedOut, pending, seen) && HandedOutTo(plan, handedOut, position, d)
    requires 0 <= position < plan.logicalChunkCount && 0 <= d < |plan.destinations| && IsPlanChunk(plan, names, position, chunk)
    ensures Progress(plan, names, handedOut + {Coordinate(position, d)}, pending[Coordinate(position, d) := chunk], seen)
    ensures HandedOutTo(plan, handedOut + {Coordinate(position, d)}, position, d + 1)
  {
    PlanIndexInjective(plan);
    HandOut(plan, names, handedOut, pending, seen, Coordinate(position, d), chunk);
  }

  /** No more routes are being signed than the window allows. */
  ghost predicate InWindow(pending: map<Coordinate, Chunk>, concurrency: int) { pending == map[] || |pending| < concurrency }

  lemma WindowStays(before: map<Coordinate, Chunk>, after: map<Coordinate, Chunk>, concurrency: int)
    requires InWindow(before, concurrency) && |after| == if |before| + 1 >= concurrency then |before| else |before| + 1
    ensures InWindow(after, concurrency)
  {
  }

  /** One target starts signing; a completed route is flushed exactly when the window is full. */
  method StartTarget(
      plan: Descriptor, names: Names, sender: RouteStreamSender, signer: Signer, cancels: bool, concurrency: int,
      chunk: Chunk, d: nat, pending: map<Coordinate, Chunk>, ghost handedOut: set<Coordinate>)
      returns (failure: Option<StreamOutcome>, pending': map<Coordinate, Chunk>)
    requires WellFormed(plan) && SignerKeepsToControls(signer) && 0 <= chunk.chunkIndex < plan.logicalChunkCount && d < |plan.destinations|
    requires IsPlanChunk(plan, names, chunk.chunkIndex, chunk)
    requires Sending(plan, names, signer, sender) && Progress(plan, names, handedOut, pending, sender.seenDeliveryIndices)
    requires HandedOutTo(plan, handedOut, chunk.chunkIndex, d)
    modifies sender
    ensures sender.Valid()
    ensures failure.Some? ==> !failure.value.Streamed? && Blamed(failure.value, signer, sender, cancels)
    ensures failure.None? ==>
      Sending(plan, names, signer, sender) && Progress(plan, names, handedOut + {Coordinate(chunk.chunkIndex, d)}, pending', sender.seenDeliveryIndices)
    ensures failure.None? ==> |pending'| == if |pending| + 1 >= concurrency then |pending| else |pending| + 1
  {
    HandOutNext(plan, names, handedOut, pending, sender.seenDeliveryIndices, chunk.chunkIndex, d, chunk);
    OneMorePending(pending, Coordinate(chunk.chunkIndex, d), chunk);
    pending' := pending[Coordinate(chunk.chunkIndex, d) := chunk];
    failure := None;
    if |pending'| >= concurrency {
      failure, pending' := FlushCompletedRoute(plan, names, sender, signer, cancels, pending', handedOut + {Coordinate(chunk.chunkIndex, d)});
    }
  }

  /** One chunk: its targets start signing; a completed route is flushed whenever the window is full. */
  method StreamChunk(
      plan: Descriptor, names: Names, sender: RouteStreamSender, signer: Signer, cancels: bool, concurrency: int,
      chunk: Chunk, ghost position: int, pending: map<Coordinate, Chunk>, ghost handedOut: set<Coordinate>)
      returns (failure: Option<StreamOutcome>, pending': map<Coordinate, Chunk>, ghost handedOut': set<Coordinate>)
    requires WellFormed(plan) && SignerKeepsToControls(signer) && 0 <= position < plan.logicalChunkCount
    requires IsPlanChunk(plan, names, position, chunk)
    requires Sending(plan, names, signer, sender) && Progress(plan, names, handedOut, pending, sender.seenDeliveryIndices)
    requires HandedOutTo(plan, handedOut, position, 0) && InWindow(pending, concurrency)
    modifies sender
    ensures sender.Valid()
    ensures failure.Some? ==> !failure.value.Streamed? && Blamed(failure.value, signer, sender, cancels)
    ensures failure.None? ==> Sending(plan, names, signer, sender) && Progress(plan, names, handedOut', pending', sender.seenDeliveryIndices)
    ensures failure.None? ==> HandedOutTo(plan, handedOut', position + 1, 0)
    ensures failure.None? ==> InWindow(pending', concurrency)
  {
    failure, pending', handedOut' := None, pending, handedOut;
    PlanChunkTargets(plan, names, position, chunk);
    for d := 0 to |chunk.targets|
      invariant Sending(plan, names, signer, sender) && Progress(plan, names, handedOut', pending', sender.seenDeliveryIndices)
      invariant HandedOutTo(plan, handedOut', position, d) && InWindow(pending', concurrency) && failure.None?
    {
      HandedOneMore(plan, handedOut', position, d);
      ghost var before := pending';
      failure, pending' := StartTarget(plan, names, sender, signer, cancels, concurrency, chunk, d, pending', handedOut');
      if failure.Some? { return; }
      WindowStays(before, pending', concurrency);
      handedOut' := handedOut' + {Coordinate(position, d)};
    }
  }

  lemma HandedOneMore(plan: Descriptor, handedOut: set<Coordinate>, position: int, d: nat)
    requires HandedOutTo(plan, handedOut, position, d) && 0 <= position < plan.logicalChunkCount && d < |plan.destinations|
    ensures HandedOutTo(plan, handedOut + {Coordinate(position, d)}, position, d + 1)
  {
  }

  /** What a sender that streamed the whole plan holds. */
  ghost predicate StreamedWhole(plan: Descriptor, names: Names, signer: Signer, sender: RouteStreamSender, expectedBatches: nat, sum: Checksum)
    reads sender
  {
    && RoutesOf(sender.acked) == sender.added && AllPlanned(plan, names, signer, sender.added)
    && |sender.added| == plan.deliveryRouteCount
    && (forall i :: i in sender.seenDeliveryIndices <==> 0 <= i < plan.deliveryRouteCount)
    && expectedBatches == |sender.acked| && NumberedFromZero(sender.acked)
    && sum == ChecksumOf(sender.sha, sender.added) == CombineAll(BatchChecksums(sender.sha, BatchesOf(sender.acked)))
  }

  method CompleteStream(plan: Descriptor, ghost names: Names, sender: RouteStreamSender, ghost signer: Signer, ghost cancels: bool) returns (outcome: StreamOutcome)
    requires Sending(plan, names, signer, sender) && |sender.seenDeliveryIndices| == plan.deliveryRouteCount
    modifies sender
    ensures sender.Valid()
    ensures Blamed(outcome, signer, sender, cancels)
    ensures outcome.Streamed? ==> StreamedWhole(plan, names, signer, sender, outcome.expectedBatches, outcome.sum)
  {
    AcceptedCount(sender.added, sender.totalRoutes);
    var error, expectedBatches, sum := sender.Complete();
    outcome := if error.Some? then Rejected(error.value) else Streamed(expectedBatches, sum);
  }

  /** Every chunk was started: the pending routes complete in any order, then the stream does. */
  method FinishStream(
      plan: Descriptor, names: Names, sender: RouteStreamSender, signer: Signer, cancels: bool, started: map<Coordinate, Chunk>, ghost handedOut: set<Coordinate>)
      returns (outcome: StreamOutcome)
    requires WellFormed(plan) && SignerKeepsToControls(signer)
    requires Sending(plan, names, signer, sender) && Progress(plan, names, handedOut, started, sender.seenDeliveryIndices)
    requires HandedOutTo(plan, handedOut, plan.logicalChunkCount, 0)
    modifies sender
    ensures sender.Valid()
    ensures Blamed(outcome, signer, sender, cancels)
    ensures outcome.Streamed? ==> StreamedWhole(plan, names, signer, sender, outcome.expectedBatches, outcome.sum)
  {
    var pending := started;
    while pending != map[]
      invariant Sending(plan, names, signer, sender) && Progress(plan, names, handedOut, pending, sender.seenDeliveryIndices)
      decreases pending.Keys
    {
      var failure: Option<StreamOutcome>;
      failure, pending := FlushCompletedRoute(plan, names, sender, signer, cancels, pending, handedOut);
      if failure.Some? { return failure.value; }
    }
    var stop: bool := *; // manifest.wait, or ownership lost
    if stop && cancels { return Interrupted; }
    AllArrived(plan, names, handedOut, sender.seenDeliveryIndices);
    outcome := CompleteStream(plan, names, sender, signer, cancels);
  }

  /**
   A well-formed plan always streams: whatever order signing completes in and whatever the concurrency window is, the
   sender turns no route away and its final count check passes; when every route can be signed, everything fits, no
   request is refused and nothing cancels the stream, it streams.
   When it streams, exactly the planned routes were acknowledged, in the order they completed.
   */
  method StreamRoutes(plan: Descriptor, names: Names, sender: RouteStreamSender, signer: Signer, cancels: bool, concurrency: int) returns (outcome: StreamOutcome)
    requires WellFormed(plan) && SignerKeepsToControls(signer)
    requires Sending(plan, names, signer, sender) && sender.added == []
    modifies sender
    ensures sender.Valid()
    ensures Blamed(outcome, signer, sender, cancels)
    ensures outcome.Streamed? ==> StreamedWhole(plan, names, signer, sender, outcome.expectedBatches, outcome.sum)
    ensures !Unsignable(signer) && RouteBatches.EverythingFits(sender.size, sender.limits) && !sender.refused && !cancels ==> outcome.Streamed?
  {
    var chunks := new PlanChunkIterator(plan, names);
    var pending: map<Coordinate, Chunk> := map[];
    ghost var handedOut: set<Coordinate> := {};
    AcceptedCount(sender.added, sender.totalRoutes);
    LogicalCountNonNegative(plan, 0);
    while true
      invariant chunks.Valid() && chunks.plan == plan && chunks.names == names
      invariant 0 <= chunks.Position() <= plan.logicalChunkCount
      invariant Sending(plan, names, signer, sender) && Progress(plan, names, handedOut, pending, sender.seenDeliveryIndices)
      invariant HandedOutTo(plan, handedOut, chunks.Position(), 0) && InWindow(pending, concurrency)
      decreases plan.logicalChunkCount - chunks.Position()
    {
      ghost var position := chunks.Position();
      var next := chunks.Next();
      if next.NotFound? { return PlanBroken; }
      if next.Done? { break; }
      var stop: bool := *; // throwIfCancelled
      if stop && cancels { return Interrupted; }
      var failure: Option<StreamOutcome>;
      failure, pending, handedOut :=
        StreamChunk(plan, names, sender, signer, cancels, concurrency, next.chunk, position, pending, handedOut);
      if failure.Some? { return failure.value; }
    }
    outcome := FinishStream(plan, names, sender, signer, cancels, pending, handedOut);
  }
}
