/** Which due requests a pump of the Room bridge forwards: the oldest, each subject once. */
module BridgeBatches {
  import opened Basics
  import opened Bridge
  import opened StableSort

  lemma {:induction false} IdsMeaning(requests: seq<Request>, id: string) returns (r: Request)
    requires id in Ids(requests)
    ensures r in requests && r.id == id
  {
    if requests[0].id == id { r := requests[0]; } else { r := IdsMeaning(requests[1..], id); }
  }

  lemma {:induction false} IdsContain(requests: seq<Request>, r: Request)
    requires r in requests
    ensures r.id in Ids(requests)
  {
    if requests[0] != r { IdsContain(requests[1..], r); }
  }

  ghost predicate OldestFirst(requests: seq<Request>) {
    forall i, j :: 0 <= i < j < |requests| ==> requests[i].receivedAt <= requests[j].receivedAt
  }

  lemma {:induction false} FilterKeepsOrder(requests: seq<Request>, keep: Request -> bool)
    requires OldestFirst(requests)
    ensures OldestFirst(Filter(requests, keep))
  {
    if requests != [] {
      var rest := Filter(requests[1..], keep);
      assert OldestFirst(requests[1..]);
      FilterKeepsOrder(requests[1..], keep);
      FilterMeaning(requests[1..], keep);
      forall k | 0 <= k < |rest| ensures requests[0].receivedAt <= rest[k].receivedAt { assert rest[k] in rest; }
    }
  }

  lemma UnrepliedMeaning(requests: seq<Request>)
    ensures OldestFirst(Unreplied(requests))
    ensures forall r :: r in Unreplied(requests) <==> r in requests && r.reply.None?
  {
    var unreplied := (r: Request) => r.reply.None?;
    FilterMeaning(requests, unreplied);
    var sorted := Unreplied(requests);
    assert sorted == Sort(ByReceivedAt(), Filter(requests, unreplied));
    SortMeaning(ByReceivedAt(), Filter(requests, unreplied));
    forall i, j | 0 <= i < j < |sorted| ensures sorted[i].receivedAt <= sorted[j].receivedAt { assert !ByReceivedAt()(sorted[j], sorted[i]); }
    forall r ensures r in sorted <==> r in requests && unreplied(r) { SortKeeps(ByReceivedAt(), Filter(requests, unreplied), r); }
  }

  /** Unanswered, asked less often than allowed, and not asked within the last `retrySeconds`. */
  ghost predicate MayBeAsked(c: Answers, now: int, r: Request)
    requires c.Cre?
  {
    r.reply.None? && r.attempts < c.maxAttempts && (r.forwardedAt.Some? ==> now >= r.forwardedAt.value + c.retrySeconds)
  }

  /** The due requests are those that may be asked now, oldest first. */
  lemma DueMeaning(c: Answers, nextRunAt: int, requests: seq<Request>, now: int)
    requires c.Cre?
    ensures OldestFirst(DueRequests(c, nextRunAt, requests, now))
    ensures forall r :: r in DueRequests(c, nextRunAt, requests, now) <==> now >= nextRunAt && r in requests && MayBeAsked(c, now, r)
  {
    var sorted := Unreplied(requests);
    UnrepliedMeaning(requests);
    FilterKeepsOrder(sorted, r => Due(c, now, r));
    FilterMeaning(sorted, r => Due(c, now, r));
    assert forall r :: Due(c, now, r) <==> MayBeAsked(c, now, r);
  }

  /** Requests received in the same second are forwarded in the order they were added. */
  lemma TiesKeepTheirOrder(requests: seq<Request>, like: Request)
    ensures Filter(Unreplied(requests), Ties(ByReceivedAt(), like)) ==
            Filter(Filter(requests, (r: Request) => r.reply.None?), Ties(ByReceivedAt(), like))
  {
    SortIsStable(ByReceivedAt(), Filter(requests, (r: Request) => r.reply.None?), like);
  }

  /** What a batch asks for, and for whom. */
  ghost predicate GoodBatch(due: seq<Request>, publishOnchain: bool, batch: Batch) {
    && |batch.attest| <= MAX_ATTESTATIONS
    && (forall r :: r in batch.members ==> r in due && r.publishOnchain == publishOnchain && Describe(r.attestation) in batch.attest)
    && (forall key :: key in batch.attest ==> Describe(batch.attest[key]) == key && AskedBy(batch, key))
    && (forall r :: r in due && r.publishOnchain == publishOnchain && r !in batch.members ==>
          |batch.attest| == MAX_ATTESTATIONS && Describe(r.attestation) !in batch.attest)
  }

  ghost predicate AskedBy(batch: Batch, key: string) {
    key in batch.attest && exists r :: r in batch.members && r.attestation == batch.attest[key]
  }

  lemma {:induction false} ChooseMeaning(due: seq<Request>, publishOnchain: bool)
    ensures GoodBatch(due, publishOnchain, Choose(due, publishOnchain))
  {
    if due != [] {
      var init, last := due[..|due| - 1], due[|due| - 1];
      ChooseMeaning(init, publishOnchain);
      ConsiderKeeps(init, last, publishOnchain, Choose(init, publishOnchain));
      assert due == init + [last];
    }
  }

  /** The oldest due request leads the batch it decides. */
  lemma {:induction false} OldestLeads(due: seq<Request>, publishOnchain: bool)
    requires due != [] && due[0].publishOnchain == publishOnchain
    ensures Choose(due, publishOnchain).members != [] && Choose(due, publishOnchain).members[0] == due[0]
  {
    var init := due[..|due| - 1];
    if init == [] {
      assert |Choose(init, publishOnchain).attest| == 0;
    } else {
      OldestLeads(init, publishOnchain);
    }
  }

  lemma ConsiderKeeps(due: seq<Request>, last: Request, publishOnchain: bool, batch: Batch)
    requires GoodBatch(due, publishOnchain, batch)
    ensures GoodBatch(due + [last], publishOnchain, Consider(batch, last, publishOnchain))
  {
    var after := Consider(batch, last, publishOnchain);
    if after != batch {
      forall key | key in after.attest ensures Describe(after.attest[key]) == key && AskedBy(after, key) {
        if key == Describe(last.attestation) {
          assert last in after.members;
        } else {
          var r :| r in batch.members && r.attestation == batch.attest[key];
          assert r in after.members;
        }
      }
    }
  }
}
