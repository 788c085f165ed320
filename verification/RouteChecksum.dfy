/**
 The order- and batching-independent route checksum (sdks/go/client.go): the XOR
 of the SHA-256 digests of the route keys, with a count. SHA-256 is a parameter.
 */
module RouteChecksum {
  import opened Basics
  import opened Routes

  function Zeros(n: nat): (zeros: seq<bv8>)
    ensures |zeros| == n && forall i :: 0 <= i < n ==> zeros[i] == 0
  {
    if n == 0 then [] else [0] + Zeros(n - 1)
  }

  type Digest = d: seq<bv8> | |d| == 32 witness Zeros(32)

  /** SHA-256 of the key source:destination:chunk. */
  type Sha = (string, string, int) -> Digest

  datatype Checksum = Checksum(bytes: Digest, count: nat)

  const EMPTY: Checksum := Checksum(Zeros(32), 0)

  function XorByte(x: bv8, y: bv8): bv8 { x ^ y }

  function Xor(a: Digest, b: Digest): Digest { seq(32, i requires 0 <= i < 32 => XorByte(a[i], b[i])) }

  function Combine(a: Checksum, b: Checksum): Checksum { Checksum(Xor(a.bytes, b.bytes), a.count + b.count) }

  function RouteDigest(sha: Sha, route: Route): Checksum {
    Checksum(sha(route.sourceId, route.destinationId, route.chunkIndex), 1)
  }

  function ChecksumOf(sha: Sha, routes: seq<Route>): Checksum {
    if routes == [] then EMPTY else Combine(RouteDigest(sha, routes[0]), ChecksumOf(sha, routes[1..]))
  }

  /** `add`: the digest is folded into the 32 bytes one by one. */
  method Add(checksum: Checksum, digest: Checksum) returns (sum: Checksum)
    requires digest.count == 1
    ensures sum == Combine(checksum, digest)
  {
    var bytes: seq<bv8> := checksum.bytes;
    for i := 0 to 32
      invariant |bytes| == 32
      invariant forall k :: 0 <= k < 32 ==> bytes[k] == if k < i then XorByte(checksum.bytes[k], digest.bytes[k]) else checksum.bytes[k]
    {
      bytes := bytes[i := bytes[i] ^ digest.bytes[i]];
    }
    assert bytes == Xor(checksum.bytes, digest.bytes);
    sum := Checksum(bytes, checksum.count + 1);
  }

  method ChecksumForRoutes(sha: Sha, routes: seq<Route>) returns (sum: Checksum)
    ensures sum == ChecksumOf(sha, routes)
  {
    sum := EMPTY;
    for i := 0 to |routes|
      invariant sum == ChecksumOf(sha, routes[..i])
    {
      assert routes[..i + 1] == routes[..i] + [routes[i]];
      AddLast(sha, routes[..i], routes[i]);
      sum := Add(sum, RouteDigest(sha, routes[i]));
    }
    assert routes[..|routes|] == routes;
  }

  /** A route counts once, with the digest of its source, destination and chunk. */
  lemma ChecksumOfOne(sha: Sha, route: Route)
    ensures var sum := ChecksumOf(sha, [route]);
            && sum.count == 1 && |sum.bytes| == 32
            && forall k :: 0 <= k < 32 ==> sum.bytes[k] == sha(route.sourceId, route.destinationId, route.chunkIndex)[k]
  {
    var sum := ChecksumOf(sha, [route]);
    assert [route][1..] == [] && ChecksumOf(sha, [route][1..]) == EMPTY;
    assert sum == Combine(RouteDigest(sha, route), EMPTY);
    forall k | 0 <= k < 32 ensures sum.bytes[k] == sha(route.sourceId, route.destinationId, route.chunkIndex)[k] {
      XorZero(sha(route.sourceId, route.destinationId, route.chunkIndex)[k]);
    }
  }

  lemma XorZero(x: bv8)
    ensures XorByte(x, 0) == x
  {
  }

  // ----- algebra

  lemma XorAt(a: bv8, b: bv8, c: bv8)
    ensures XorByte(XorByte(a, b), c) == XorByte(a, XorByte(b, c))
    ensures XorByte(a, b) == XorByte(b, a) && XorByte(a, 0) == a
  {
  }

  lemma CombineAssociative(a: Checksum, b: Checksum, c: Checksum)
    ensures Combine(Combine(a, b), c) == Combine(a, Combine(b, c))
  {
    forall i | 0 <= i < 32
      ensures XorByte(XorByte(a.bytes[i], b.bytes[i]), c.bytes[i]) == XorByte(a.bytes[i], XorByte(b.bytes[i], c.bytes[i]))
    {
      XorAt(a.bytes[i], b.bytes[i], c.bytes[i]);
    }
    assert Xor(Xor(a.bytes, b.bytes), c.bytes) == Xor(a.bytes, Xor(b.bytes, c.bytes));
  }

  lemma CombineCommutative(a: Checksum, b: Checksum)
    ensures Combine(a, b) == Combine(b, a)
  {
    forall i | 0 <= i < 32 ensures XorByte(a.bytes[i], b.bytes[i]) == XorByte(b.bytes[i], a.bytes[i]) {
      XorAt(a.bytes[i], b.bytes[i], 0);
    }
    assert Xor(a.bytes, b.bytes) == Xor(b.bytes, a.bytes);
  }

  lemma CombineEmpty(a: Checksum)
    ensures Combine(EMPTY, a) == a && Combine(a, EMPTY) == a
  {
    CombineCommutative(EMPTY, a);
    forall i | 0 <= i < 32 ensures XorByte(a.bytes[i], EMPTY.bytes[i]) == a.bytes[i] {
      XorAt(a.bytes[i], 0, 0);
    }
    assert Xor(a.bytes, EMPTY.bytes) == a.bytes;
  }

  lemma {:induction false} ChecksumConcat(sha: Sha, a: seq<Route>, b: seq<Route>)
    ensures ChecksumOf(sha, a + b) == Combine(ChecksumOf(sha, a), ChecksumOf(sha, b))
  {
    if a == [] {
      assert a + b == b;
      CombineEmpty(ChecksumOf(sha, b));
    } else {
      assert (a + b)[1..] == a[1..] + b;
      ChecksumConcat(sha, a[1..], b);
      CombineAssociative(RouteDigest(sha, a[0]), ChecksumOf(sha, a[1..]), ChecksumOf(sha, b));
    }
  }

  lemma AddLast(sha: Sha, routes: seq<Route>, route: Route)
    ensures ChecksumOf(sha, routes + [route]) == Combine(ChecksumOf(sha, routes), RouteDigest(sha, route))
  {
    ChecksumConcat(sha, routes, [route]);
    assert [route][1..] == [];
    CombineEmpty(RouteDigest(sha, route));
  }

  function CombineAll(sums: seq<Checksum>): Checksum {
    if sums == [] then EMPTY else Combine(sums[0], CombineAll(sums[1..]))
  }

  function BatchChecksums(sha: Sha, batches: seq<seq<Route>>): seq<Checksum> {
    seq(|batches|, i requires 0 <= i < |batches| => ChecksumOf(sha, batches[i]))
  }

  /** However routes are batched, XORing the batch checksums and summing their counts gives the checksum of all. */
  lemma {:induction false} BatchingIsIrrelevant(sha: Sha, batches: seq<seq<Route>>)
    ensures ChecksumOf(sha, Concat(batches)) == CombineAll(BatchChecksums(sha, batches))
  {
    if batches != [] {
      BatchingIsIrrelevant(sha, batches[1..]);
      ChecksumConcat(sha, batches[0], Concat(batches[1..]));
      assert BatchChecksums(sha, batches)[1..] == BatchChecksums(sha, batches[1..]);
    }
  }

  /** The order in which routes complete signing does not change the checksum. */
  lemma {:induction false} OrderIsIrrelevant(sha: Sha, a: seq<Route>, b: seq<Route>)
    requires multiset(a) == multiset(b)
    ensures ChecksumOf(sha, a) == ChecksumOf(sha, b)
    decreases |a|
  {
    if a == [] {
      assert |multiset(b)| == 0;
    } else {
      var left, right := TakeOut(a, b);
      OrderIsIrrelevant(sha, a[1..], left + right);
      PullToFront(sha, left, a[0], right);
    }
  }

  lemma PullToFront(sha: Sha, left: seq<Route>, route: Route, right: seq<Route>)
    ensures ChecksumOf(sha, left + ([route] + right)) == Combine(RouteDigest(sha, route), ChecksumOf(sha, left + right))
  {
    var d, l, r := RouteDigest(sha, route), ChecksumOf(sha, left), ChecksumOf(sha, right);
    ChecksumConcat(sha, left, [route] + right);
    assert ([route] + right)[1..] == right;
    ChecksumConcat(sha, left, right);
    CombineAssociative(l, d, r);
    CombineCommutative(l, d);
    CombineAssociative(d, l, r);
  }
}
