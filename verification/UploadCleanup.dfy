/**
 What a failed stream does with the uploads, the lease and the signers of its owner
 (`abortCreatedUploads`, `cancelAndAbortProviderFailure` and the failure decisions of
 `streamRoutes`, sdks/go/provider_transfer.go).
 */
module UploadCleanup {
  import opened Basics
  import opened Uploads
  import opened UploadTheorems
  import opened UploadSession
  import L = RecoveryLeases
  import T = TransferSigners

  /** An upload the cleanup aborts: it has an id, and its destination is not Hippius. */
  predicate Candidate(upload: Upload) { upload.uploadId != "" && !upload.destination.Hippius? }

  function Candidates(states: map<string, Upload>): set<string> {
    set g | g in states && Candidate(states[g])
  }

  function HandleOf(states: map<string, Upload>, group: string): Handle
    requires group in states
  {
    Handle(group, states[group].uploadId)
  }

  /** What had been asked and reported when Beam was told to cancel. */
  datatype Tally = Tally(asked: multiset<Handle>, reported: multiset<Handle>)

  /** The provider: an abort may take effect without being reported. It also keeps when Beam was told to cancel. */
  class Provider {
    ghost var aborted: set<Handle>
    ghost var reported: multiset<Handle>
    ghost var asked: multiset<Handle>
    ghost var cancels: seq<Tally>

    method Abort(handle: Handle) returns (ok: bool)
      modifies this`aborted, this`reported, this`asked
      ensures old(aborted) <= aborted <= old(aborted) + {handle}
      ensures ok ==> handle in aborted && reported == old(reported) + multiset{handle}
      ensures !ok ==> reported == old(reported)
      ensures asked == old(asked) + multiset{handle}
    {
      ok := *;
      var tookEffect: bool := *;
      if ok || tookEffect { aborted := aborted + {handle}; }
      if ok { reported := reported + multiset{handle}; }
      asked := asked + multiset{handle};
    }
  }

  /** Every group of `before` is still in `after`, or left it when its abort was reported. */
  ghost predicate AbortedSince(
      before: map<string, Upload>, after: map<string, Upload>, reportedBefore: multiset<Handle>, reported: multiset<Handle>, aborted: set<Handle>) {
    && after.Keys <= before.Keys
    && (forall g :: g in after ==> after[g] == before[g])
    && (forall g :: g in before && g !in after ==> Candidate(before[g]) && HandleOf(before, g) in aborted)
    && (forall h :: reported[h] == reportedBefore[h] + (if Left(before, after, h) then 1 else 0))
  }

  /** An upload the cleanup asks to abort: a registered one with an id, but none at a Hippius destination. */
  predicate Aborts(states: map<string, Upload>, h: Handle) {
    h.group in states && h.uploadId != "" && states[h.group].uploadId == h.uploadId && !states[h.group].destination.Hippius?
  }

  predicate Left(before: map<string, Upload>, after: map<string, Upload>, h: Handle) {
    h.group in before && h.group !in after && HandleOf(before, h.group) == h
  }

  lemma AbortedTwice(s0: map<string, Upload>, s1: map<string, Upload>, s2: map<string, Upload>,
                     r0: multiset<Handle>, r1: multiset<Handle>, r2: multiset<Handle>, a1: set<Handle>, a2: set<Handle>)
    requires AbortedSince(s0, s1, r0, r1, a1) && AbortedSince(s1, s2, r1, r2, a2) && a1 <= a2
    ensures AbortedSince(s0, s2, r0, r2, a2)
  {
    forall h ensures r2[h] == r0[h] + (if Left(s0, s2, h) then 1 else 0) {
      assert Left(s0, s2, h) <==> Left(s0, s1, h) || Left(s1, s2, h);
    }
  }

  /**
   Aborts every candidate in whatever order the calls return, and forgets those that were aborted, so that another
   attempt only touches the remainder. It reports no failure exactly when no candidate remains.
   */
  method AbortCreatedUploads(uploads: MultipartUploadRegistry, provider: Provider) returns (failures: set<string>)
    modifies uploads, provider`aborted, provider`reported, provider`asked
    ensures AbortedSince(old(uploads.states), uploads.states, old(provider.reported), provider.reported, provider.aborted)
    ensures old(provider.aborted) <= provider.aborted
    ensures failures == Candidates(uploads.states)
    ensures forall h :: provider.asked[h] == old(provider.asked)[h] + (if Aborts(old(uploads.states), h) then 1 else 0)
  {
    var snapshot := uploads.states;
    var todo := Candidates(snapshot);
    failures := {};
    while todo != {}
      invariant Candidates(uploads.states) == todo + failures && todo * failures == {}
      invariant AbortedSince(snapshot, uploads.states, old(provider.reported), provider.reported, provider.aborted)
      invariant old(provider.aborted) <= provider.aborted
      invariant todo <= Candidates(snapshot) && AskedExcept(snapshot, todo, old(provider.asked), provider.asked)
    {
      var g :| g in todo;
      ghost var states, reported, aborted, asked := uploads.states, provider.reported, provider.aborted, provider.asked;
      todo := todo - {g};
      var ok := provider.Abort(HandleOf(snapshot, g));
      if ok { uploads.Delete(g); } else { failures := failures + {g}; }
      AttemptNext(snapshot, states, todo, g, ok, old(provider.reported), reported, provider.reported, aborted, provider.aborted,
                  old(provider.asked), asked, provider.asked);
    }
  }

  /** One more abort, reported or not. */
  lemma AttemptNext(snapshot: map<string, Upload>, states: map<string, Upload>, todo: set<string>, g: string, ok: bool,
                    reported0: multiset<Handle>, reported: multiset<Handle>, reported': multiset<Handle>, aborted: set<Handle>, aborted': set<Handle>,
                    asked0: multiset<Handle>, asked: multiset<Handle>, asked': multiset<Handle>)
    requires AbortedSince(snapshot, states, reported0, reported, aborted) && aborted <= aborted' && AskedExcept(snapshot, todo + {g}, asked0, asked)
    requires g in Candidates(states) && g !in todo && todo + {g} <= Candidates(snapshot) && states[g] == snapshot[g]
    requires asked' == asked + multiset{HandleOf(snapshot, g)}
    requires reported' == if ok then reported + multiset{HandleOf(snapshot, g)} else reported
    requires ok ==> HandleOf(snapshot, g) in aborted'
    ensures AbortedSince(snapshot, if ok then states - {g} else states, reported0, reported', aborted')
    ensures ok ==> Candidates(states - {g}) == Candidates(states) - {g}
    ensures AskedExcept(snapshot, todo, asked0, asked')
  {
    assert todo + {g} - {g} == todo;
    AskedNext(snapshot, todo + {g}, g, asked0, asked);
    if ok { OneMoreAborted(snapshot, states, g, reported0, reported, reported', aborted, aborted'); }
  }

  /** Everything but what is still to do was asked for, once. */
  ghost predicate AskedExcept(snapshot: map<string, Upload>, todo: set<string>, asked0: multiset<Handle>, asked: multiset<Handle>) {
    forall h :: asked[h] == asked0[h] + (if Aborts(snapshot, h) && h.group !in todo then 1 else 0)
  }

  lemma AskedNext(snapshot: map<string, Upload>, todo: set<string>, g: string, asked0: multiset<Handle>, asked: multiset<Handle>)
    requires g in todo && todo <= Candidates(snapshot) && AskedExcept(snapshot, todo, asked0, asked)
    ensures AskedExcept(snapshot, todo - {g}, asked0, asked + multiset{HandleOf(snapshot, g)})
  {
  }

  lemma OneAborted(states: map<string, Upload>, g: string, reported: multiset<Handle>, reported': multiset<Handle>, aborted: set<Handle>)
    requires g in states && Candidate(states[g]) && HandleOf(states, g) in aborted
    requires reported' == reported + multiset{HandleOf(states, g)}
    ensures AbortedSince(states, states - {g}, reported, reported', aborted)
  {
    forall h ensures reported'[h] == reported[h] + (if Left(states, states - {g}, h) then 1 else 0) {
      assert Left(states, states - {g}, h) <==> h == HandleOf(states, g);
    }
  }

  lemma OneMoreAborted(snapshot: map<string, Upload>, states: map<string, Upload>, g: string, reported0: multiset<Handle>,
                       reported: multiset<Handle>, reported': multiset<Handle>, aborted: set<Handle>, aborted': set<Handle>)
    requires AbortedSince(snapshot, states, reported0, reported, aborted) && aborted <= aborted'
    requires g in states && Candidate(states[g]) && HandleOf(states, g) in aborted'
    requires reported' == reported + multiset{HandleOf(states, g)}
    ensures AbortedSince(snapshot, states - {g}, reported0, reported', aborted')
    ensures Candidates(states - {g}) == Candidates(states) - {g}
  {
    OneAborted(states, g, reported, reported', aborted');
    AbortedTwice(snapshot, states, states - {g}, reported0, reported, reported', aborted, aborted');
  }

  lemma NoneLeft(before: map<string, Upload>, after: map<string, Upload>)
    requires Candidates(after) == {} && forall g :: g in after ==> g in before && after[g] == before[g]
    ensures forall g :: g in before && Candidate(before[g]) ==> Left(before, after, HandleOf(before, g))
  {
    assert forall g :: g in after ==> g !in Candidates(after);
  }

  /** newProviderTransferError: what the caller is told about the cancellation and the cleanup. */
  datatype TransferError = TransferError(transferCancelled: bool, multipartCleanupComplete: bool)

  /** Complete: every upload of the snapshot was aborted, successfully once; otherwise some upload was never reported aborted. */
  ghost predicate Cleanup(complete: bool, snapshot: map<string, Upload>, reported0: multiset<Handle>, reported: multiset<Handle>, aborted: set<Handle>) {
    && (complete ==> forall h :: Aborts(snapshot, h) ==> h in aborted && reported[h] == reported0[h] + 1)
    && (!complete ==> exists h :: Aborts(snapshot, h) && reported[h] == reported0[h])
    && (forall h :: reported0[h] <= reported[h] <= reported0[h] + (if Aborts(snapshot, h) then 1 else 0))
  }

  /**
   When the stream had begun, Beam is told to cancel before any upload is asked for, and each is asked for once; when it
   had not, each is asked for before, and again exactly when that was not reported as done.
   */
  ghost predicate CancelledInOrder(begun: bool, snapshot: map<string, Upload>, before: Tally, cancel: Tally, after: Tally) {
    forall h ::
      if !Aborts(snapshot, h) then cancel.asked[h] == after.asked[h] == before.asked[h]
      else if begun then cancel.asked[h] == before.asked[h] && cancel.reported[h] == before.reported[h] && after.asked[h] == before.asked[h] + 1
      else cancel.asked[h] == before.asked[h] + 1
           && after.asked[h] == cancel.asked[h] + (if cancel.reported[h] == before.reported[h] then 1 else 0)
  }

  lemma CleanupIsAttempts(s0: map<string, Upload>, s1: map<string, Upload>, s2: map<string, Upload>,
                          r0: multiset<Handle>, r1: multiset<Handle>, r2: multiset<Handle>, a1: set<Handle>, a2: set<Handle>)
    requires AbortedSince(s0, s1, r0, r1, a1) && AbortedSince(s1, s2, r1, r2, a2) && a1 <= a2
    ensures Cleanup(Candidates(s2) == {}, s0, r0, r2, a2)
  {
    AbortedTwice(s0, s1, s2, r0, r1, r2, a1, a2);
    if Candidates(s2) == {} {
      NoneLeft(s0, s2);
      forall h | Aborts(s0, h) ensures h in a2 && r2[h] == r0[h] + 1 { assert Left(s0, s2, h); }
    } else {
      var g :| g in Candidates(s2);
      assert Aborts(s0, HandleOf(s0, g)) && !Left(s0, s2, HandleOf(s0, g));
    }
  }

  lemma AttemptsAsk(s0: map<string, Upload>, s1: map<string, Upload>, a1: set<Handle>, before: Tally, cancel: Tally, after: Tally, begun: bool)
    requires AbortedSince(s0, s1, before.reported, cancel.reported, a1) && (begun ==> s1 == s0)
    requires forall h :: cancel.asked[h] == before.asked[h] + (if !begun && Aborts(s0, h) then 1 else 0)
    requires forall h :: after.asked[h] == cancel.asked[h] + (if Aborts(s1, h) then 1 else 0)
    ensures CancelledInOrder(begun, s0, before, cancel, after)
  {
    forall h | Aborts(s0, h) ensures Aborts(s1, h) <==> !Left(s0, s1, h) { }
  }

  /**
   Cleanup works on a clone of the registry: whatever the disposal of the lease clears meanwhile, a cleanup reported
   complete has aborted every upload the registry held, each successfully exactly once over both attempts.
   */
  method CancelAndAbortProviderFailure(retained: MultipartUploadRegistry, provider: Provider, abortBeforeCancel: bool)
      returns (error: TransferError, ghost cancel: Tally)
    modifies retained, provider
    ensures Cleanup(error.multipartCleanupComplete, old(retained.states), old(provider.reported), provider.reported, provider.aborted)
    ensures provider.cancels == old(provider.cancels) + [cancel]
    ensures CancelledInOrder(!abortBeforeCancel, old(retained.states), Tally(old(provider.asked), old(provider.reported)), cancel,
                             Tally(provider.asked, provider.reported))
    ensures old(provider.aborted) <= provider.aborted
    ensures retained.states == old(retained.states) || retained.states == map[]
  {
    var uploads := retained.Clone();
    ghost var snapshot, before := uploads.states, Tally(provider.asked, provider.reported);
    var failures: set<string> := {};
    if abortBeforeCancel {
      failures := AbortCreatedUploads(uploads, provider);
    }
    ghost var states, aborted := uploads.states, provider.aborted;
    cancel := Tally(provider.asked, provider.reported);
    assert AbortedSince(snapshot, states, before.reported, cancel.reported, aborted);
    var cancelled, disposed := CancelTransfer(retained, provider);
    if !abortBeforeCancel || failures != {} {
      failures := AbortCreatedUploads(uploads, provider);
    }
    assert AbortedSince(states, uploads.states, cancel.reported, provider.reported, provider.aborted);
    CleanupIsAttempts(snapshot, states, uploads.states, before.reported, cancel.reported, provider.reported, aborted, provider.aborted);
    AttemptsAsk(snapshot, states, aborted, before, cancel, Tally(provider.asked, provider.reported), !abortBeforeCancel);
    error := TransferError(cancelled, failures == {});
  }

  /** Once Beam reports the transfer cancelled, a recovery loop may release the lease, which clears the registry. */
  method CancelTransfer(retained: MultipartUploadRegistry, provider: Provider) returns (cancelled: bool, disposed: bool)
    modifies retained, provider`cancels
    ensures retained.states == if disposed then map[] else old(retained.states)
    ensures provider.cancels == old(provider.cancels) + [Tally(provider.asked, provider.reported)]
  {
    cancelled := *;
    disposed := *;
    provider.cancels := provider.cancels + [Tally(provider.asked, provider.reported)];
    if disposed { retained.Clear(); }
  }

  /**
   With what every run keeps, a complete cleanup leaves no live upload behind: between streams every live upload is a
   registered one, and a plan's jobs are never on a destination the cleanup passes over. Jobs that share a group may
   hide an upload from it.
   */
  lemma CompleteCleanupLeavesNothing(plan: seq<Job>, restored: map<string, Upload>, trace: seq<Event>, aborted: set<Handle>, h: Handle)
    requires OwnGroups(plan) && RestoredFrom(plan, restored)
    requires forall j :: 0 <= j < |plan| ==> !plan[j].destination.Hippius?
    requires var s := Execute(Init(plan, restored), trace);
             && !s.disposed && AllIdle(s)
             && (forall k :: Aborts(s.uploads, k) ==> k in aborted)
    requires h in Execute(Init(plan, restored), trace).returned
    ensures h in Execute(Init(plan, restored), trace).aborted + aborted
  {
    var s := Execute(Init(plan, restored), trace);
    if h !in s.aborted {
      UploadsAreConserved(plan, restored, trace, h, h);
      InitInv(plan, restored);
      ExecuteInv(Init(plan, restored), trace);
      var job := JobOf(s, h.group);
      assert JobInv(s, job);
      assert Aborts(s.uploads, h);
    }
  }

  /** What a stream that failed has seen. */
  datatype Failure = Failure(ownershipLost: bool, recoveryReplay: bool, cancelled: bool, recoverable: bool, beginAttempted: bool)

  datatype Outcome = OwnershipLost | ReplayFailed | Cancelled | RecoveryPending | CleanedUp(error: TransferError)

  /** releaseOwned: this owner's signers and lease, never a replacement's. */
  method ReleaseOwned(control: L.NatsControl, client: T.Client, tid: string, lease: L.Lease, signers: T.Signers)
    modifies control, client
    ensures control.Now() == L.Step(old(control.Now()), L.ReleaseOwned(lease))
    ensures client.Now() == T.Step(old(client.Now()), T.Stop(tid, Some(signers)))
  {
    client.StopTransferSigners(tid, Some(signers));
    control.ReleaseLease(lease.tid, Some(lease));
  }

  /**
   What `streamRoutes` does about a failure. Uploads are aborted by nobody but an initial stream that still owns the
   transfer and failed for good; the lease goes on exactly when an initial stream was cancelled or may recover, and is
   let go exactly when ownership was lost or the uploads were cleaned up.
   */
  method HandleStreamFailure(
      control: L.NatsControl, client: T.Client, tid: string, lease: L.Lease, signers: T.Signers, minted: L.Epoch,
      uploads: MultipartUploadRegistry, provider: Provider, failure: Failure)
      returns (outcome: Outcome)
    modifies control, client, uploads, provider
    ensures outcome.CleanedUp? <==> !failure.ownershipLost && !failure.recoveryReplay && !failure.cancelled && !failure.recoverable
    ensures !outcome.CleanedUp? ==>
      && uploads.states == old(uploads.states) && provider.aborted == old(provider.aborted)
      && provider.asked == old(provider.asked) && provider.cancels == old(provider.cancels)
    ensures outcome.OwnershipLost? || outcome.CleanedUp? ==>
      && control.Now() == L.Step(old(control.Now()), L.ReleaseOwned(lease))
      && client.Now() == T.Step(old(client.Now()), T.Stop(tid, Some(signers)))
    ensures outcome.Cancelled? || outcome.RecoveryPending? ==>
      control.Now() == L.Step(old(control.Now()), L.Continue(lease, minted)) && client.Now() == old(client.Now())
    ensures outcome.ReplayFailed? ==> control.Now() == old(control.Now()) && client.Now() == old(client.Now())
    ensures outcome.OwnershipLost? <==> failure.ownershipLost
    ensures outcome.Cancelled? <==> !failure.ownershipLost && !failure.recoveryReplay && failure.cancelled
    ensures outcome.ReplayFailed? <==> !failure.ownershipLost && failure.recoveryReplay
    ensures outcome.CleanedUp? ==>
      && Cleanup(outcome.error.multipartCleanupComplete, old(uploads.states), old(provider.reported), provider.reported, provider.aborted)
      && |provider.cancels| == |old(provider.cancels)| + 1 && old(provider.cancels) <= provider.cancels
      && CancelledInOrder(failure.beginAttempted, old(uploads.states), Tally(old(provider.asked), old(provider.reported)),
                          provider.cancels[|provider.cancels| - 1], Tally(provider.asked, provider.reported))
  {
    if failure.ownershipLost {
      ReleaseOwned(control, client, tid, lease, signers);
      return OwnershipLost;
    }
    if failure.recoveryReplay { return ReplayFailed; }
    if failure.cancelled || failure.recoverable {
      var run := control.ContinueRecoveryLease(lease, minted);
      return if failure.cancelled then Cancelled else RecoveryPending;
    }
    ghost var before, beforeSigners := control.Now(), client.Now();
    var error, cancel := CancelAndAbortProviderFailure(uploads, provider, !failure.beginAttempted);
    assert control.Now() == before && client.Now() == beforeSigners;
    ReleaseOwned(control, client, tid, lease, signers);
    return CleanedUp(error);
  }
}
