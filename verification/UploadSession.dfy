/**
 The registry of retained uploads and `setupMultipartGroup` (sdks/go/provider_transfer.go)
 as code over it. Between any two of its steps other workers, a fence, a cleanup or the
 disposal of the lease may run: `others` says which steps they take there.
 */
module UploadSession {
  import opened Basics
  import opened Uploads

  /** multipartUploadRegistry; its mutex makes each method one step. */
  class MultipartUploadRegistry {
    var states: map<string, Upload>

    constructor ()
      ensures states == map[]
    {
      states := map[];
    }

    method Get(group: string) returns (state: Option<Upload>)
      ensures state == if group in states then Some(states[group]) else None
    {
      state := if group in states then Some(states[group]) else None;
    }

    method Set(group: string, state: Upload)
      modifies this
      ensures states == old(states)[group := state]
    {
      states := states[group := state];
    }

    method Delete(group: string)
      modifies this
      ensures states == old(states) - {group}
    {
      states := states - {group};
    }

    /** An independent registry: clearing this one later does not change the clone. */
    method Clone() returns (copy: MultipartUploadRegistry)
      ensures fresh(copy) && copy.states == states
    {
      copy := new MultipartUploadRegistry();
      copy.states := states;
    }

    method Clear()
      modifies this
      ensures states == map[]
    {
      states := map[];
    }
  }

  datatype Call = Succeeds | Fails(tookEffect: bool)
  datatype Create = CreatesUpload(uploadId: string) | CreateError
  datatype Callback = NoCallback | Called(answer: Call)

  /** What the provider, the signer, the caller and the control plane answer during one setup. */
  datatype Foreign = Foreign(create: Create, sign: bool, identify: Callback, publish: Call, abort: Call)

  datatype Setup = Ready(upload: Upload) | SetupError

  ghost predicate OnlyOthers(trace: seq<Event>, job: nat) {
    forall k :: 0 <= k < |trace| ==> Of(trace[k]) != Some(job)
  }

  lemma OthersStepKeepsPhase(s: State, event: Event, job: nat)
    requires Of(event) != Some(job)
    ensures At(Step(s, event), job) == At(s, job) && Step(s, event).plan == s.plan
    ensures s.published <= Step(s, event).published && (s.fenced ==> Step(s, event).fenced)
  {
    StepKeepsPlan(s, event);
    StepGrows(s, event);
    if event.BeginStream? || event.EndStream? || event.CleanupAborts? || event.Fence? || event.Dispose? {
      assert Step(s, event).phases == s.phases;
    } else {
      StepMovesOne(s, event);
    }
  }

  /** A worker's step moves that worker only. */
  lemma StepMovesOne(s: State, event: Event)
    requires Of(event).Some?
    ensures forall j: nat :: j != event.job ==> At(Step(s, event), j) == At(s, j)
  {
    match event
    case Take(_, _) | Lookup(_) =>
    case CreateReturns(_, _) | CreateFails(_) | Record(_) =>
    case Sign(_, _) | Decide(_) =>
    case Identify(_, _, _) | Publish(_, _, _) =>
    case AbortReturns(_) | AbortFails(_, _) | Delete(_) =>
  }

  /** Publications are remembered, and lost ownership does not come back. */
  lemma StepGrows(s: State, event: Event)
    ensures s.published <= Step(s, event).published && (s.fenced ==> Step(s, event).fenced)
  {
  }

  lemma {:induction false} OthersKeepPhase(s: State, trace: seq<Event>, job: nat)
    requires OnlyOthers(trace, job)
    ensures At(Execute(s, trace), job) == At(s, job) && Execute(s, trace).plan == s.plan
    ensures s.published <= Execute(s, trace).published && (s.fenced ==> Execute(s, trace).fenced)
    decreases |trace|
  {
    if trace != [] {
      OthersStepKeepsPhase(s, trace[0], job);
      assert OnlyOthers(trace[1..], job);
      OthersKeepPhase(Step(s, trace[0]), trace[1..], job);
    }
  }

  class Session {
    const plan: seq<Job>
    const uploads: MultipartUploadRegistry
    var fenced: bool                 // ownershipErr(session.ownership) != nil
    var now: State                   // the session and everything around it, as the state machine sees it

    constructor (plan: seq<Job>, uploads: MultipartUploadRegistry)
      ensures Valid() && now == Init(plan, uploads.states) && this.plan == plan && this.uploads == uploads
    {
      this.plan := plan;
      this.uploads := uploads;
      fenced := false;
      now := Init(plan, uploads.states);
    }

    ghost predicate Valid()
      reads this, uploads
    {
      now.uploads == uploads.states && now.fenced == fenced && now.plan == plan
    }

    /** The steps others take while this worker waits, a worker of the same group among them. */
    method Others(trace: seq<Event>, job: nat)
      requires Valid() && OnlyOthers(trace, job)
      modifies this, uploads
      ensures Valid() && now == Execute(old(now), trace)
      ensures At(now, job) == At(old(now), job) && old(now).published <= now.published && (old(fenced) ==> fenced)
    {
      OthersKeepPhase(now, trace, job);
      now := Execute(now, trace);
      uploads.states := now.uploads;
      fenced := now.fenced;
    }

    /** Ownership is checked before anything else. */
    method TakeJob(job: nat) returns (err: bool)
      requires Valid() && At(now, job).Idle? && now.streaming && job in now.queued && job < |plan|
      modifies this
      ensures Valid() && now == Step(old(now), Take(job, false))
      ensures err == old(fenced) && fenced == old(fenced) && At(now, job) == if err then Idle else Starting
    {
      err := fenced;
      now := Step(now, Take(job, false));
    }

    method LookUp(job: nat) returns (retained: Option<Upload>)
      requires Valid() && At(now, job).Starting? && job < |plan|
      modifies this`now
      ensures Valid() && now == Step(old(now), Lookup(job))
      ensures At(now, job) == if retained.Some? then Signing(retained.value.uploadId, false) else Creating
    {
      retained := uploads.Get(plan[job].group);
      now := Step(now, Lookup(job));
    }

    /** A provider that names an upload it has already named for the object is taken to have failed. */
    method CreateUpload(job: nat, create: Create) returns (uploadId: Option<string>, event: Event)
      requires Valid() && At(now, job).Creating? && job < |plan|
      modifies this`now
      ensures Valid() && now == Step(old(now), event) && Of(event) == Some(job)
      ensures At(now, job) == if uploadId.Some? then Created(uploadId.value) else Idle
      ensures uploadId.Some? <==>
        create.CreatesUpload? && create.uploadId != "" && Handle(plan[job].group, create.uploadId) !in old(now).returned + old(now).aborted
      ensures uploadId.Some? ==> create == CreatesUpload(uploadId.value) && event == CreateReturns(job, uploadId.value)
      ensures uploadId.None? ==> event == CreateFails(job)
    {
      if create.CreatesUpload? && create.uploadId != "" && Handle(plan[job].group, create.uploadId) !in now.returned + now.aborted {
        uploadId, event := Some(create.uploadId), CreateReturns(job, create.uploadId);
      } else {
        uploadId, event := None, CreateFails(job);
      }
      now := Step(now, event);
    }

    method RecordUpload(job: nat, uploadId: string)
      requires Valid() && At(now, job) == Created(uploadId) && job < |plan|
      modifies this`now, uploads
      ensures Valid() && now == Step(old(now), Record(job))
      ensures At(now, job) == Signing(uploadId, true)
    {
      uploads.Set(plan[job].group, UploadFor(plan[job], uploadId));
      now := Step(now, Record(job));
    }

    /** signMultipartGroupState, and the signed state replacing the unsigned one. */
    method SignGroup(job: nat, uploadId: string, ok: bool)
      requires Valid() && At(now, job).Signing? && At(now, job).uploadId == uploadId && job < |plan|
      modifies this`now, uploads
      ensures Valid() && now == Step(old(now), Sign(job, ok))
      ensures At(now, job) ==
        if ok then Publishing(uploadId, At(old(now), job).created) else Failing(uploadId, At(old(now), job).created)
    {
      if ok { uploads.Set(plan[job].group, UploadFor(plan[job], uploadId)); }
      now := Step(now, Sign(job, ok));
    }

    /** The first half of publishing: ownership is checked, and the callback, if there is one, gets the group's identity. */
    method IdentifyGroup(job: nat, callback: Callback) returns (err: bool, event: Event)
      requires Valid() && At(now, job).Publishing? && job < |plan|
      modifies this`now
      ensures Valid() && now == Step(old(now), event) && Of(event) == Some(job)
      ensures err == (fenced || (callback.Called? && callback.answer.Fails?))
      ensures event == (match callback
                        case NoCallback => Identify(job, true, false)
                        case Called(Succeeds) => Identify(job, true, true)
                        case Called(Fails(tookEffect)) => Identify(job, false, tookEffect))
      ensures At(now, job) == if err then Failing(At(old(now), job).uploadId, At(old(now), job).created)
                              else Manifesting(At(old(now), job).uploadId, At(old(now), job).created)
    {
      err := fenced || (callback.Called? && callback.answer.Fails?);
      event := match callback
               case NoCallback => Identify(job, true, false)
               case Called(Succeeds) => Identify(job, true, true)
               case Called(Fails(tookEffect)) => Identify(job, false, tookEffect);
      now := Step(now, event);
    }

    /** The second half: the manifest is sent. */
    method SendManifest(job: nat, publish: Call) returns (err: bool, event: Event)
      requires Valid() && At(now, job).Manifesting? && job < |plan|
      modifies this`now
      ensures Valid() && now == Step(old(now), event) && Of(event) == Some(job)
      ensures err == publish.Fails? && event == if err then Publish(job, false, publish.tookEffect) else Publish(job, true, true)
      ensures err ==> At(now, job) == Failing(At(old(now), job).uploadId, At(old(now), job).created)
      ensures !err ==> At(now, job) == Idle && Handle(plan[job].group, At(old(now), job).uploadId) in now.published
    {
      err := publish.Fails?;
      event := if err then Publish(job, false, publish.tookEffect) else Publish(job, true, true);
      now := Step(now, event);
    }

    method DecideAbort(job: nat) returns (abort: bool)
      requires Valid() && At(now, job).Failing? && job < |plan|
      modifies this`now
      ensures Valid() && now == Step(old(now), Decide(job))
      ensures abort == (At(old(now), job).created && !fenced)
      ensures At(now, job) == if abort then Aborting(At(old(now), job).uploadId) else Idle
    {
      abort := At(now, job).created && !fenced;
      now := Step(now, Decide(job));
    }

    method AbortUpload(job: nat, abort: Call) returns (event: Event)
      requires Valid() && At(now, job).Aborting? && job < |plan|
      modifies this`now
      ensures Valid() && now == Step(old(now), event) && Of(event) == Some(job)
      ensures At(now, job) == if abort.Succeeds? then Aborted(At(old(now), job).uploadId) else Idle
      ensures event == if abort.Succeeds? then AbortReturns(job) else AbortFails(job, abort.tookEffect)
    {
      event := if abort.Succeeds? then AbortReturns(job) else AbortFails(job, abort.tookEffect);
      now := Step(now, event);
    }

    method DeleteUpload(job: nat)
      requires Valid() && At(now, job).Aborted? && job < |plan|
      modifies this`now, uploads
      ensures Valid() && now == Step(old(now), Delete(job)) && At(now, job) == Idle
    {
      uploads.Delete(plan[job].group);
      now := Step(now, Delete(job));
    }

    /** What follows an error: the upload this setup created is aborted and forgotten, unless ownership was lost. */
    method FailSetup(job: nat, foreign: Foreign, others: seq<seq<Event>>) returns (ghost trace: seq<Event>)
      requires Valid() && At(now, job).Failing? && job < |plan|
      requires |others| == 2 && forall k :: 0 <= k < |others| ==> OnlyOthers(others[k], job)
      modifies this, uploads
      ensures Valid() && now == Execute(old(now), trace) && At(now, job).Idle? && (old(fenced) ==> fenced)
      // What this setup created is aborted unless ownership is lost, and forgotten once the abort succeeded.
      ensures At(old(now), job).created && !old(fenced) ==>
        if foreign.abort.Succeeds? then AbortReturns(job) in trace && Delete(job) in trace else AbortFails(job, foreign.abort.tookEffect) in trace
    {
      var abort := DecideAbort(job);
      trace := OneMore(old(now), [], old(now), Decide(job));
      if !abort { return; }
      trace := Interleave(old(now), trace, others[0], now);
      Others(others[0], job);
      ghost var before := now;
      var event := AbortUpload(job, foreign.abort);
      trace := OneMore(old(now), trace, before, event);
      if foreign.abort.Fails? { return; }
      trace := Interleave(old(now), trace, others[1], now);
      Others(others[1], job);
      before := now;
      DeleteUpload(job);
      trace := OneMore(old(now), trace, before, Delete(job));
    }

    /** Reuses the retained upload, or creates one and records it. */
    method ObtainUpload(job: nat, foreign: Foreign, others: seq<seq<Event>>)
        returns (uploadId: Option<string>, ghost trace: seq<Event>)
      requires Valid() && At(now, job).Starting? && job < |plan|
      requires |others| == 2 && forall k :: 0 <= k < |others| ==> OnlyOthers(others[k], job)
      modifies this, uploads
      ensures Valid() && now == Execute(old(now), trace)
      ensures old(fenced) ==> fenced
      ensures uploadId.None? ==> At(now, job).Idle? && CreateFails(job) in trace
      ensures uploadId.Some? ==> At(now, job).Signing? && At(now, job).uploadId == uploadId.value
    {
      var retained := LookUp(job);
      trace := OneMore(old(now), [], old(now), Lookup(job));
      if retained.Some? { return Some(retained.value.uploadId), trace; }
      trace := Interleave(old(now), trace, others[0], now);
      Others(others[0], job);
      ghost var before := now;
      var event;
      uploadId, event := CreateUpload(job, foreign.create);
      trace := OneMore(old(now), trace, before, event);
      if uploadId.None? { return; }
      trace := Interleave(old(now), trace, others[1], now);
      Others(others[1], job);
      before := now;
      RecordUpload(job, uploadId.value);
      trace := OneMore(old(now), trace, before, Record(job));
    }

    /**
     The whole setup is a run of the state machine from the moment the job is taken, whatever others do in between, and
     so keeps what every run keeps. It is ready exactly with the upload it published.
     */
    method SetupMultipartGroup(job: nat, foreign: Foreign, others: seq<seq<Event>>)
        returns (result: Setup, ghost trace: seq<Event>)
      requires Valid() && At(now, job).Idle? && now.streaming && job in now.queued && job < |plan|
      requires |others| == 9 && forall k :: 0 <= k < |others| ==> OnlyOthers(others[k], job)
      modifies this, uploads
      ensures Valid() && now == Execute(old(now), trace) && At(now, job).Idle?
      ensures Take(job, false) in trace && (result.SetupError? ==> fenced || CreateFails(job) in trace || FailsToPublish(foreign))
      ensures result.Ready? ==>
        && Handle(plan[job].group, result.upload.uploadId) in now.published && Publish(job, true, true) in trace
        && result.upload == UploadFor(plan[job], result.upload.uploadId)
      ensures Inv(old(now)) ==> Inv(now)
    {
      var err := TakeJob(job);
      trace := OneMore(old(now), [], old(now), Take(job, false));
      if err {
        if Inv(old(now)) { ExecuteInv(old(now), trace); }
        return SetupError, trace;
      }
      trace := Interleave(old(now), trace, others[0], now);
      Others(others[0], job);
      ghost var before := now;
      var uploadId, obtained := ObtainUpload(job, foreign, others[1..3]);
      trace := Interleave(old(now), trace, obtained, before);
      if uploadId.None? {
        if Inv(old(now)) { ExecuteInv(old(now), trace); }
        return SetupError, trace;
      }
      var done;
      ghost var signed;
      before := now;
      done, signed := SignAndPublish(job, uploadId.value, foreign, others[3..]);
      trace := Interleave(old(now), trace, signed, before);
      if Inv(old(now)) { ExecuteInv(old(now), trace); }
      result := if done then Ready(UploadFor(plan[job], uploadId.value)) else SetupError;
    }

    /** publishMultipartGroup: the identity, then the manifest. */
    method PublishMultipartGroup(job: nat, foreign: Foreign, others: seq<Event>) returns (err: bool, ghost trace: seq<Event>)
      requires Valid() && At(now, job).Publishing? && job < |plan| && OnlyOthers(others, job)
      modifies this, uploads
      ensures Valid() && now == Execute(old(now), trace) && (old(fenced) ==> fenced)
      ensures err ==> fenced || FailsToPublish(foreign)
      ensures err ==> At(now, job) == Failing(At(old(now), job).uploadId, At(old(now), job).created)
      ensures !err ==> At(now, job) == Idle && Handle(plan[job].group, At(old(now), job).uploadId) in now.published
      ensures !err ==> Publish(job, true, true) in trace && Identify(job, true, foreign.identify.Called?) in trace
    {
      var identified;
      err, identified := IdentifyGroup(job, foreign.identify);
      trace := OneMore(old(now), [], old(now), identified);
      if err { return; }
      trace := Interleave(old(now), trace, others, now);
      Others(others, job);
      ghost var before := now;
      var sent;
      err, sent := SendManifest(job, foreign.publish);
      trace := OneMore(old(now), trace, before, sent);
    }

    method SignAndPublish(job: nat, uploadId: string, foreign: Foreign, others: seq<seq<Event>>)
        returns (done: bool, ghost trace: seq<Event>)
      requires Valid() && At(now, job).Signing? && At(now, job).uploadId == uploadId && job < |plan|
      requires |others| == 6 && forall k :: 0 <= k < |others| ==> OnlyOthers(others[k], job)
      modifies this, uploads
      ensures Valid() && now == Execute(old(now), trace) && At(now, job).Idle?
      ensures done ==> Handle(plan[job].group, uploadId) in now.published && Publish(job, true, true) in trace
      ensures !done ==> fenced || FailsToPublish(foreign)
    {
      trace := Interleave(old(now), [], others[0], now);
      Others(others[0], job);
      ghost var before := now;
      SignGroup(job, uploadId, foreign.sign);
      trace := OneMore(old(now), trace, before, Sign(job, foreign.sign));
      trace := Interleave(old(now), trace, others[1], now);
      Others(others[1], job);
      if foreign.sign {
        before := now;
        var err;
        ghost var sent;
        err, sent := PublishMultipartGroup(job, foreign, others[2]);
        trace := Interleave(old(now), trace, sent, before);
        if !err { return true, trace; }
      }
      trace := Interleave(old(now), trace, others[3], now);
      Others(others[3], job);
      before := now;
      ghost var failed := FailSetup(job, foreign, others[4..]);
      trace := Interleave(old(now), trace, failed, before);
      done := false;
    }
  }

  predicate FailsToPublish(foreign: Foreign) {
    !foreign.sign || foreign.publish.Fails? || (foreign.identify.Called? && foreign.identify.answer.Fails?)
  }

  lemma Interleave(s: State, trace: seq<Event>, more: seq<Event>, now: State) returns (longer: seq<Event>)
    requires Execute(s, trace) == now
    ensures Execute(s, longer) == Execute(now, more)
    ensures forall event :: event in trace || event in more ==> event in longer
  {
    longer := trace + more;
    ExecutePlus(s, trace, more);
  }
}
