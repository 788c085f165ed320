/**
 Signed routes and their compact wire form (sdks/go/nats_control.go, sdks/go/client.go).
 A metadata value is an integer when `exactIntegerValue` accepts it, else a string or something else.
 */
module Routes {
  import opened Basics

  datatype Value = Integer(n: int) | Text(s: string) | Other(tag: int)

  type Metadata = map<string, Value>

  /** `headers` tells Go's nil map (None) from an empty one; they marshal differently. */
  datatype Route = Route(
    sourceId: string, destinationId: string, chunkIndex: int, deliveryIndex: Option<int>,
    sourceUrl: string, destUrl: string, sourceOffset: int, chunkSize: int, expiresAt: string,
    headers: Option<map<string, string>>, destHeaders: map<string, string>, metadata: Metadata)

  /** What identifies a source chunk: the seven fields `compactSignedRoutes` marshals. */
  datatype SourceKey = SourceKey(
    sourceId: string, chunkIndex: int, sourceUrl: string, sourceOffset: int, chunkSize: int, expiresAt: string,
    headers: Option<map<string, string>>)

  /** One `source_chunks` entry without its `source_ref`, which is its position. */
  datatype SourceEntry = SourceEntry(
    sourceId: string, chunkIndex: int, sourceUrl: string, sourceOffset: int, chunkSize: int,
    expiresAt: Option<string>, headers: Option<map<string, string>>)

  /** One `routes` entry; a field that would be empty is left out. */
  datatype RouteEntry = RouteEntry(
    sourceRef: nat, destinationId: string, deliveryIndex: int, destUrl: string, expiresAt: Option<string>,
    destHeaders: Option<map<string, string>>, multipartGroupId: Option<string>, metadata: Option<Metadata>)

  function KeyOf(route: Route): SourceKey {
    SourceKey(route.sourceId, route.chunkIndex, route.sourceUrl, route.sourceOffset, route.chunkSize, route.expiresAt, route.headers)
  }

  function NonEmpty(s: string): Option<string> { if s == "" then None else Some(s) }

  function NonEmptyMap<K, V>(m: map<K, V>): Option<map<K, V>> { if m == map[] then None else Some(m) }

  function EntryOf(key: SourceKey): SourceEntry {
    SourceEntry(key.sourceId, key.chunkIndex, key.sourceUrl, key.sourceOffset, key.chunkSize, NonEmpty(key.expiresAt),
                if key.headers.None? then None else NonEmptyMap(key.headers.value))
  }

  /** A metadata value, when it is a string. */
  function TextOf(metadata: Metadata, key: string): string {
    if key in metadata && metadata[key].Text? then metadata[key].s else ""
  }

  // ----- delivery indices

  /** signedRouteDeliveryIndex: metadata first, then the field. */
  function SignedDeliveryIndex(route: Route): Option<int> {
    if "delivery_index" in route.metadata && route.metadata["delivery_index"].Integer?
    then Some(route.metadata["delivery_index"].n)
    else route.deliveryIndex
  }

  /** The index `compactSignedRoutes` writes: the field first, then metadata, then the position in the batch. */
  function WireDeliveryIndex(route: Route, position: nat): int {
    if route.deliveryIndex.Some? then route.deliveryIndex.value
    else if "delivery_index" in route.metadata && route.metadata["delivery_index"].Integer? && route.metadata["delivery_index"].n >= 0
    then route.metadata["delivery_index"].n
    else position
  }

  /** What `addRoute` stores: the route with the index it validated in its field. */
  function Stamp(route: Route, index: int): Route {
    route.(deliveryIndex := Some(index))
  }

  /**
   The two preferences agree on a route straight from signing exactly when its field is not contradicted by its
   metadata, or, without a field, when the metadata index is not negative or happens to be the position.
   */
  lemma PreferencesAgreeIff(route: Route, position: nat)
    ensures var signed := SignedDeliveryIndex(route);
            var metadataIndex := SignedDeliveryIndex(route.(deliveryIndex := None));
            signed.Some? ==>
              (WireDeliveryIndex(route, position) == signed.value <==>
                 if route.deliveryIndex.Some? then metadataIndex.None? || metadataIndex == route.deliveryIndex
                 else metadataIndex.value >= 0 || metadataIndex.value == position)
  {
    if route.deliveryIndex.None? && SignedDeliveryIndex(route).Some? {
      assert route.(deliveryIndex := None) == route;
    }
  }

  /** After `addRoute` the index on the wire is always the one the sender validated, wherever the route is batched. */
  lemma StampedIndexReachesTheWire(route: Route, position: nat)
    ensures SignedDeliveryIndex(route).Some? ==>
      WireDeliveryIndex(Stamp(route, SignedDeliveryIndex(route).value), position) == SignedDeliveryIndex(route).value
  {
  }

  // ----- metadata on the wire

  const COORDINATE_KEYS: seq<string> := ["source_id", "destination_id", "chunk_index", "route_chunk_index", "delivery_index"]

  const ATTEMPT_KEYS: set<string> := {"etag_required", "part_number", "logical_attempt_index", "attempt_slot", "route_generation_id"}

  /** The loops that drop coordinate keys, and in a multipart group every key that is not per attempt. */
  method CompactMetadata(metadata: Metadata) returns (out: Metadata, groupId: string)
    ensures groupId == TextOf(metadata, "multipart_group_id")
    ensures forall k :: k in out <==> k in metadata && k !in COORDINATE_KEYS && (groupId != "" ==> k in ATTEMPT_KEYS)
    ensures forall k :: k in out ==> out[k] == metadata[k]
  {
    out := metadata;
    for i := 0 to |COORDINATE_KEYS|
      invariant forall k :: k in out <==> k in metadata && k !in COORDINATE_KEYS[..i]
      invariant forall k :: k in out ==> out[k] == metadata[k]
    {
      out := out - {COORDINATE_KEYS[i]};
    }
    assert "multipart_group_id" !in COORDINATE_KEYS;
    groupId := TextOf(out, "multipart_group_id");
    if groupId != "" {
      var todo := out.Keys;
      while todo != {}
        invariant forall k :: k in todo ==> k in out
        invariant forall k :: k in out <==> k in metadata && k !in COORDINATE_KEYS && (k in todo || k in ATTEMPT_KEYS)
        invariant forall k :: k in out ==> out[k] == metadata[k]
        decreases todo
      {
        var k :| k in todo;
        todo := todo - {k};
        if k !in ATTEMPT_KEYS {
          out := out - {k};
        }
      }
    }
  }

  // ----- compaction

  /** What is empty is left out, and nothing else. */
  ghost predicate Kept(s: string, wire: Option<string>) { if s == "" then wire.None? else wire == Some(s) }

  ghost predicate KeptHeaders(headers: map<string, string>, wire: Option<map<string, string>>) {
    if headers == map[] then wire.None? else wire == Some(headers)
  }

  /** Of the metadata, every key but the coordinates is kept; of a multipart group's, the keys of an attempt. */
  ghost predicate KeptMetadata(metadata: Metadata, wire: Option<Metadata>) {
    && wire != Some(map[])
    && (forall k :: wire.Some? && k in wire.value <==>
          k in metadata && k !in COORDINATE_KEYS && (TextOf(metadata, "multipart_group_id") != "" ==> k in ATTEMPT_KEYS))
    && (forall k :: wire.Some? && k in wire.value && k in metadata ==> wire.value[k] == metadata[k])
  }

  /** Looking up the entry's `source_ref` gives back every source field of the route. */
  ghost predicate RestoresSource(sources: seq<SourceEntry>, entry: RouteEntry, route: Route) {
    && entry.sourceRef < |sources|
    && var source := sources[entry.sourceRef];
    && source.sourceId == route.sourceId && source.chunkIndex == route.chunkIndex
    && source.sourceUrl == route.sourceUrl
    && source.sourceOffset == route.sourceOffset && source.chunkSize == route.chunkSize
    && Kept(route.expiresAt, source.expiresAt)
    && KeptHeaders(if route.headers.None? then map[] else route.headers.value, source.headers)
  }

  /** The entry keeps the route's own coordinates and its metadata. */
  ghost predicate RestoresRoute(entry: RouteEntry, route: Route, position: nat) {
    && entry.destinationId == route.destinationId && entry.destUrl == route.destUrl
    && entry.deliveryIndex == WireDeliveryIndex(route, position)
    && Kept(route.expiresAt, entry.expiresAt) && KeptHeaders(route.destHeaders, entry.destHeaders)
    && Kept(TextOf(route.metadata, "multipart_group_id"), entry.multipartGroupId)
    && KeptMetadata(route.metadata, entry.metadata)
  }

  /** The source keys of the entries are distinct, and each entry is what its key says. */
  ghost predicate SourceTable(keys: seq<SourceKey>, sources: seq<SourceEntry>) {
    && |keys| == |sources|
    && (forall i, j :: 0 <= i < j < |keys| ==> keys[i] != keys[j])
    && (forall i :: 0 <= i < |keys| ==> sources[i] == EntryOf(keys[i]))
  }

  function KeysOf(routes: seq<Route>): set<SourceKey> { set r | r in routes :: KeyOf(r) }

  /** Two routes that differ only in a nil and an empty header map. */
  ghost predicate HeaderTwins(routes: seq<Route>, a: int, b: int) {
    && 0 <= a < |routes| && 0 <= b < |routes|
    && routes[a].headers == None && routes[b].headers == Some(map[])
    && KeyOf(routes[a]).(headers := None) == KeyOf(routes[b]).(headers := None)
  }

  lemma EqualEntries(k1: SourceKey, k2: SourceKey)
    requires k1 != k2
    ensures EntryOf(k1) == EntryOf(k2) <==>
      && k1.(headers := None) == k2.(headers := None)
      && ((k1.headers == None && k2.headers == Some(map[])) || (k1.headers == Some(map[]) && k2.headers == None))
  {
  }

  /** Emitted source entries repeat exactly when a nil and an empty header map meet on the same source chunk. */
  lemma EntriesRepeatIff(routes: seq<Route>, keys: seq<SourceKey>, sources: seq<SourceEntry>)
    requires SourceTable(keys, sources)
    requires forall k :: k in keys <==> k in KeysOf(routes)
    ensures (exists i, j :: 0 <= i < j < |sources| && sources[i] == sources[j]) <==>
            (exists a, b :: HeaderTwins(routes, a, b))
  {
    if i, j :| 0 <= i < j < |sources| && sources[i] == sources[j] {
      EqualEntries(keys[i], keys[j]);
      assert keys[i] in keys && keys[j] in keys;
      var a :| 0 <= a < |routes| && KeyOf(routes[a]) == keys[i];
      var b :| 0 <= b < |routes| && KeyOf(routes[b]) == keys[j];
      assert HeaderTwins(routes, a, b) || HeaderTwins(routes, b, a);
    }
    if a, b :| HeaderTwins(routes, a, b) {
      assert routes[a] in routes && routes[b] in routes;
      assert KeyOf(routes[a]) in KeysOf(routes) && KeyOf(routes[b]) in KeysOf(routes);
      var i :| 0 <= i < |keys| && keys[i] == KeyOf(routes[a]);
      var j :| 0 <= j < |keys| && keys[j] == KeyOf(routes[b]);
      EqualEntries(keys[i], keys[j]);
      assert sources[i] == sources[j];
      assert i != j;
    }
  }

  /** Such routes there are: any one without headers, and its copy with an empty header map. */
  lemma TwinsRepeat(route: Route, keys: seq<SourceKey>, sources: seq<SourceEntry>)
    requires route.headers == None && SourceTable(keys, sources)
    requires forall k :: k in keys <==> k in KeysOf([route, route.(headers := Some(map[]))])
    ensures exists i, j :: 0 <= i < j < |sources| && sources[i] == sources[j]
  {
    var twins := [route, route.(headers := Some(map[]))];
    assert HeaderTwins(twins, 0, 1);
    EntriesRepeatIff(twins, keys, sources);
  }

  method CompactRoute(route: Route, position: nat, sourceRef: nat) returns (entry: RouteEntry)
    ensures RestoresRoute(entry, route, position) && entry.sourceRef == sourceRef
  {
    var metadata, groupId := CompactMetadata(route.metadata);
    entry := RouteEntry(sourceRef, route.destinationId, WireDeliveryIndex(route, position), route.destUrl, NonEmpty(route.expiresAt),
                        NonEmptyMap(route.destHeaders), NonEmpty(groupId), NonEmptyMap(metadata));
  }

  /** `refs` finds the position of every key of the table. */
  ghost predicate RefsInv(keys: seq<SourceKey>, refs: map<SourceKey, nat>) {
    && (forall k :: k in refs <==> k in keys)
    && (forall k :: k in refs ==> refs[k] < |keys| && keys[refs[k]] == k)
  }

  /** Each entry points at the key of its route. */
  ghost predicate PointsAtKeys(routes: seq<Route>, keys: seq<SourceKey>, entries: seq<RouteEntry>) {
    && |entries| <= |routes|
    && forall t {:trigger entries[t]} :: 0 <= t < |entries| ==>
         entries[t].sourceRef < |keys| && keys[entries[t].sourceRef] == KeyOf(routes[t])
  }

  lemma KeysOfNext(routes: seq<Route>, r: nat)
    requires r < |routes|
    ensures KeysOf(routes[..r + 1]) == KeysOf(routes[..r]) + {KeyOf(routes[r])}
  {
    assert routes[..r + 1] == routes[..r] + [routes[r]];
  }

  ghost predicate RoutesRestored(routes: seq<Route>, entries: seq<RouteEntry>) {
    && |entries| <= |routes|
    && forall t {:trigger entries[t]} :: 0 <= t < |entries| ==> RestoresRoute(entries[t], routes[t], t)
  }

  lemma RestoredAppend(routes: seq<Route>, entries: seq<RouteEntry>, entry: RouteEntry)
    requires RoutesRestored(routes, entries) && |entries| < |routes| && RestoresRoute(entry, routes[|entries|], |entries|)
    ensures RoutesRestored(routes, entries + [entry])
  {
  }

  ghost predicate KeysAre(keys: seq<SourceKey>, routes: seq<Route>) { forall k :: k in keys <==> k in KeysOf(routes) }

  /** What a complete table and complete entries mean for a decoder. */
  lemma TableMeaning(routes: seq<Route>, keys: seq<SourceKey>, sources: seq<SourceEntry>, entries: seq<RouteEntry>)
    requires SourceTable(keys, sources) && PointsAtKeys(routes, keys, entries) && |entries| == |routes|
    ensures forall r {:trigger entries[r]} :: 0 <= r < |routes| ==> RestoresSource(sources, entries[r], routes[r])
    ensures forall r, t {:trigger entries[r], entries[t]} :: 0 <= r < |routes| && 0 <= t < |routes| ==>
      (entries[r].sourceRef == entries[t].sourceRef <==> KeyOf(routes[r]) == KeyOf(routes[t]))
  {
  }

  /** The position of a key in the table, which it enters when it is new. */
  method RefOf(key: SourceKey, sources: seq<SourceEntry>, refs: map<SourceKey, nat>, ghost keys: seq<SourceKey>)
      returns (ref: nat, sources': seq<SourceEntry>, refs': map<SourceKey, nat>, ghost keys': seq<SourceKey>)
    requires SourceTable(keys, sources) && RefsInv(keys, refs)
    ensures SourceTable(keys', sources') && RefsInv(keys', refs') && keys <= keys'
    ensures ref < |keys'| && keys'[ref] == key
    ensures forall k :: k in keys' <==> k in keys || k == key
  {
    sources', refs', keys' := sources, refs, keys;
    if key !in refs {
      refs' := refs[key := |sources|];
      sources' := sources + [EntryOf(key)];
      keys' := keys + [key];
    }
    ref := refs'[key];
  }

  method CompactSignedRoutes(routes: seq<Route>) returns (sources: seq<SourceEntry>, entries: seq<RouteEntry>)
    ensures |entries| == |routes|
    ensures forall r {:trigger entries[r]} :: 0 <= r < |routes| ==> RestoresSource(sources, entries[r], routes[r])
    ensures forall r {:trigger entries[r]} :: 0 <= r < |routes| ==> RestoresRoute(entries[r], routes[r], r)
    ensures (exists i, j :: 0 <= i < j < |sources| && sources[i] == sources[j]) <==>
            (exists a, b :: HeaderTwins(routes, a, b))
    ensures forall r, t {:trigger entries[r], entries[t]} :: 0 <= r < |routes| && 0 <= t < |routes| ==>
      (entries[r].sourceRef == entries[t].sourceRef <==> KeyOf(routes[r]) == KeyOf(routes[t]))
  {
    ghost var keys;
    sources, entries, keys := BuildTable(routes);
    TableMeaning(routes, keys, sources, entries);
    EntriesRepeatIff(routes, keys, sources);
  }

  /** The table of source entries, and the routes that point into it. */
  method BuildTable(routes: seq<Route>) returns (sources: seq<SourceEntry>, entries: seq<RouteEntry>, ghost keys: seq<SourceKey>)
    ensures |entries| == |routes| && SourceTable(keys, sources) && KeysAre(keys, routes)
    ensures PointsAtKeys(routes, keys, entries) && RoutesRestored(routes, entries)
  {
    sources, entries, keys := [], [], [];
    var refs: map<SourceKey, nat> := map[];
    for r := 0 to |routes|
      invariant |entries| == r
      invariant SourceTable(keys, sources) && RefsInv(keys, refs)
      invariant KeysAre(keys, routes[..r])
      invariant PointsAtKeys(routes, keys, entries) && RoutesRestored(routes, entries)
    {
      var key := KeyOf(routes[r]);
      KeysOfNext(routes, r);
      var ref;
      ghost var before := keys;
      ref, sources, refs, keys := RefOf(key, sources, refs, keys);
      var entry := CompactRoute(routes[r], r, ref);
      RestoredAppend(routes, entries, entry);
      PointsAppend(routes, before, keys, entries, entry);
      entries := entries + [entry];
    }
    assert routes[..|routes|] == routes;
  }

  lemma PointsAppend(routes: seq<Route>, before: seq<SourceKey>, keys: seq<SourceKey>, entries: seq<RouteEntry>, entry: RouteEntry)
    requires before <= keys && PointsAtKeys(routes, before, entries) && |entries| < |routes|
    requires entry.sourceRef < |keys| && keys[entry.sourceRef] == KeyOf(routes[|entries|])
    ensures PointsAtKeys(routes, keys, entries + [entry])
  {
  }
}
