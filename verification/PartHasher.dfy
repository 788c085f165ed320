/**
 Streaming part hashes of a Hugging Face LFS upload (sdks/go/huggingface.go):
 `huggingFaceHashSource`, and the two counts its result has to pass. The hash
 functions are parameters; a hash object is the bytes written to it so far.
 */
module PartHasher {
  import opened Basics

  type Bytes = seq<bv8>

  /** How a response body ends: a last read that carries io.EOF, or one that carries an error. */
  datatype End = Eof | ReadError

  /** What `Read` returns, call by call: any number of reads without an error, then the last one. */
  datatype Body = Body(calls: seq<Bytes>, last: Bytes, end: End)

  datatype HashResult<D> = Hashed(whole: Option<D>, etags: seq<D>) | Failed

  function Content(body: Body): Bytes { Concat(body.calls) + body.last }

  /** The fixed-size split: full parts, then what remains when it is not empty. */
  function Split(content: Bytes, partSize: nat): (parts: seq<Bytes>)
    requires partSize > 0
    decreases |content|
  {
    if content == [] then []
    else if |content| <= partSize then [content]
    else [content[..partSize]] + Split(content[partSize..], partSize)
  }

  function Digests<D>(md5: Bytes -> D, parts: seq<Bytes>): seq<D> {
    seq(|parts|, i requires 0 <= i < |parts| => md5(parts[i]))
  }

  // ----- what the split is

  /** Full parts followed by a shorter, possibly empty, rest are the fixed-size split of their concatenation. */
  lemma {:induction false} SplitUnique(full: seq<Bytes>, rest: Bytes, partSize: nat)
    requires partSize > 0 && |rest| < partSize
    requires forall p :: p in full ==> |p| == partSize
    ensures Split(Concat(full) + rest, partSize) == full + (if rest == [] then [] else [rest])
    decreases |full|
  {
    var content := Concat(full) + rest;
    if full == [] {
      assert content == rest;
    } else {
      assert full[0] in full;
      SplitUnique(full[1..], rest, partSize);
      assert content[..partSize] == full[0];
      assert content[partSize..] == Concat(full[1..]) + rest;
      if |content| == partSize {
        assert content[partSize..] == [];
        assert full[1..] == [] && rest == [];
        assert content == full[0];
        assert full == [full[0]];
      } else {
        assert full == [full[0]] + full[1..];
      }
    }
  }

  /** The split loses nothing, has no empty part, only its last part may be short, and it has ceil(size / partSize) parts. */
  lemma {:induction false} SplitMeaning(content: Bytes, partSize: nat)
    requires partSize > 0
    ensures Concat(Split(content, partSize)) == content
    ensures forall i :: 0 <= i < |Split(content, partSize)| ==> 0 < |Split(content, partSize)[i]| <= partSize
    ensures forall i :: 0 <= i < |Split(content, partSize)| - 1 ==> |Split(content, partSize)[i]| == partSize
    ensures |Split(content, partSize)| == PartCount(|content|, partSize)
    decreases |content|
  {
    if content == [] {
      CeilStep(0, partSize);
    } else if |content| <= partSize {
      assert Concat([content]) == content by { assert [content][1..] == []; }
      CeilStep(|content|, partSize);
    } else {
      SplitMeaning(content[partSize..], partSize);
      CeilStep(|content|, partSize);
      assert content == content[..partSize] + content[partSize..];
      assert ([content[..partSize]] + Split(content[partSize..], partSize))[1..] == Split(content[partSize..], partSize);
    }
  }

  /** The expected count of `huggingFaceLFSBatch`: (size + chunkSize - 1) / chunkSize. */
  function PartCount(size: nat, chunkSize: nat): nat
    requires chunkSize > 0
  {
    CeilDiv(size, chunkSize)
  }

  lemma CeilStep(size: nat, chunkSize: nat)
    requires chunkSize > 0
    ensures size == 0 ==> PartCount(size, chunkSize) == 0
    ensures 0 < size <= chunkSize ==> PartCount(size, chunkSize) == 1
    ensures size > chunkSize ==> PartCount(size, chunkSize) == 1 + PartCount(size - chunkSize, chunkSize)
  {
    if 0 < size <= chunkSize {
      DivIs(size + chunkSize - 1, chunkSize, 1);
    } else if size == 0 {
      DivIs(chunkSize - 1, chunkSize, 0);
    } else {
      var q := PartCount(size - chunkSize, chunkSize);
      assert (size - 1) == q * chunkSize + (size - 1) % chunkSize;
      DivIs(size + chunkSize - 1, chunkSize, q + 1);
    }
  }

  // ----- the streaming form

  /** What the hash state stands for after `seen`: closed full parts, and the open part. */
  ghost predicate PartState<D>(md5: Bytes -> D, partSize: nat, seen: Bytes, full: seq<Bytes>, etags: seq<D>, part: Bytes) {
    && |part| < partSize
    && (forall p :: p in full ==> |p| == partSize)
    && etags == Digests(md5, full)
    && seen == Concat(full) + part
  }

  /** The open part grows, and stays open. */
  lemma GrowPart<D>(md5: Bytes -> D, partSize: nat, seen: Bytes, full: seq<Bytes>, etags: seq<D>, part: Bytes, more: Bytes)
    requires PartState(md5, partSize, seen, full, etags, part) && |part| + |more| < partSize
    ensures PartState(md5, partSize, seen + more, full, etags, part + more)
  {
    assert Concat(full) + part + more == Concat(full) + (part + more);
  }

  /** The open part fills up exactly: it is closed, and an empty one opened. */
  lemma ClosePart<D>(md5: Bytes -> D, partSize: nat, seen: Bytes, full: seq<Bytes>, etags: seq<D>, part: Bytes, more: Bytes)
    requires PartState(md5, partSize, seen, full, etags, part) && |part| + |more| == partSize
    ensures PartState(md5, partSize, seen + more, full + [part + more], etags + [md5(part + more)], [])
  {
    ConcatAppend(full, part + more);
    assert Concat(full) + part + more == Concat(full) + (part + more);
  }

  /** The inner loop: one read's bytes go into the current part, which is closed each time it fills up. */
  method WriteRead<D>(
      md5: Bytes -> D, partSize: nat, chunk: Bytes, part: Bytes, etags: seq<D>, ghost seen: Bytes, ghost full: seq<Bytes>)
      returns (part': Bytes, etags': seq<D>, ghost full': seq<Bytes>)
    requires PartState(md5, partSize, seen, full, etags, part)
    ensures PartState(md5, partSize, seen + chunk, full', etags', part')
  {
    var rest := chunk;
    ghost var before := seen;
    part', etags', full' := part, etags, full;
    while |rest| > 0
      invariant before + rest == seen + chunk
      invariant PartState(md5, partSize, before, full', etags', part')
    {
      var room := partSize - |part'|;
      if |rest| < room {
        GrowPart(md5, partSize, before, full', etags', part', rest);
        part' := part' + rest;
        return;
      }
      var fill := rest[..room];
      ClosePart(md5, partSize, before, full', etags', part', fill);
      Reassociate(before, rest, room);
      full' := full' + [part' + fill];
      etags' := etags' + [md5(part' + fill)];
      part' := [];
      before, rest := before + fill, rest[room..];
    }
    assert before + rest == before;
  }

  lemma Reassociate(before: Bytes, rest: Bytes, room: nat)
    requires room <= |rest|
    ensures (before + rest[..room]) + rest[room..] == before + rest
  {
  }

  /** After the last read, closing a non-empty open part completes the split. */
  lemma FinishParts<D>(md5: Bytes -> D, partSize: nat, seen: Bytes, full: seq<Bytes>, etags: seq<D>, part: Bytes)
    requires partSize > 0 && PartState(md5, partSize, seen, full, etags, part)
    ensures Digests(md5, Split(seen, partSize)) == etags + (if |part| > 0 then [md5(part)] else [])
  {
    SplitUnique(full, part, partSize);
  }

  lemma ReadNext(calls: seq<Bytes>, call: nat)
    requires call < |calls|
    ensures Concat(calls[..call + 1]) == Concat(calls[..call]) + calls[call]
  {
    assert calls[..call + 1] == calls[..call] + [calls[call]];
    ConcatAppend(calls[..call], calls[call]);
  }

  /**
   However the body is divided into reads, the part ETags are the digests of the fixed-size split of the whole
   body, and the whole digest is that of the whole body. Without a part size there are no ETags.
   */
  method HashSource<D>(body: Body, partSize: int, wholeSHA256: bool, sha256: Bytes -> D, md5: Bytes -> D)
      returns (result: HashResult<D>)
    ensures result.Failed? <==> body.end.ReadError?
    ensures result.Hashed? ==> result.whole == if wholeSHA256 then Some(sha256(Content(body))) else None
    ensures result.Hashed? ==>
      result.etags == if partSize > 0 then Digests(md5, Split(Content(body), partSize)) else []
  {
    var whole: Bytes, part: Bytes := [], [];
    var etags: seq<D> := [];
    ghost var full: seq<Bytes> := [];
    ghost var seen: Bytes := [];
    var call := 0;
    while true
      invariant 0 <= call <= |body.calls| && seen == Concat(body.calls[..call])
      invariant wholeSHA256 ==> whole == seen
      invariant partSize > 0 ==> PartState(md5, partSize, seen, full, etags, part)
      invariant partSize <= 0 ==> part == [] && etags == []
      decreases |body.calls| - call
    {
      var read := if call < |body.calls| then body.calls[call] else body.last;
      if |read| > 0 {
        if wholeSHA256 { whole := whole + read; }
        if partSize > 0 {
          part, etags, full := WriteRead(md5, partSize, read, part, etags, seen, full);
        }
      } else {
        assert seen + read == seen;
      }
      if call == |body.calls| {
        assert body.calls[..call] == body.calls;
        seen := seen + read;
        if body.end.ReadError? { return Failed; }
        break;
      }
      ReadNext(body.calls, call);
      seen := seen + read;
      call := call + 1;
    }
    assert seen == Content(body);
    if partSize > 0 {
      FinishParts(md5, partSize, seen, full, etags, part);
      if |part| > 0 {
        etags := etags + [md5(part)];
      }
    }
    return Hashed(if wholeSHA256 then Some(sha256(whole)) else None, etags);
  }

  /**
   Finalize's check against the part URLs the Hub issued. Once `huggingFaceLFSBatch` accepted the URLs of a file
   of `size` bytes, it passes for a body of that size, and for a body of another size exactly when the part
   counts agree.
   */
  lemma EtagCountMatchesPartUrls<D>(body: Body, size: nat, chunkSize: nat, urls: nat, md5: Bytes -> D)
    requires chunkSize > 0
    requires urls == PartCount(size, chunkSize)
    ensures var etags := Digests(md5, Split(Content(body), chunkSize));
            (|etags| == urls <==> PartCount(|Content(body)|, chunkSize) == PartCount(size, chunkSize))
            && (|Content(body)| == size ==> |etags| == urls)
  {
    SplitMeaning(Content(body), chunkSize);
  }
}
