/**
 Who owns a multipart upload (`setupMultipartGroup` and its callers,
 sdks/go/provider_transfer.go). Every call outside and every registry access of a setup
 worker is one step, so workers, replays, a fence and the disposal of the lease interleave
 freely; a call may fail before or after its effect.
 */
module Uploads {
  import opened Basics

  datatype Destination = S3Compatible(config: nat) | Hippius(config: nat) | HuggingFace(config: nat)

  /** multipartUploadState without its signed controls. */
  datatype Upload = Upload(destination: Destination, objectKey: string, uploadId: string)

  /** multipartGroupJob: the group id keys the registry and need not be the job's alone. */
  datatype Job = Job(group: string, destination: Destination, objectKey: string)

  /** An upload at the provider: the group it was created for, and the id the provider gave it. */
  datatype Handle = Handle(group: string, uploadId: string)

  /** Where the worker of a job stands; `created` says whether this very setup created the upload. */
  datatype Phase =
    | Idle
    | Starting
    | Creating
    | Created(uploadId: string)
    | Signing(uploadId: string, created: bool)
    | Publishing(uploadId: string, created: bool)     // the group's identity is to be reported
    | Manifesting(uploadId: string, created: bool)    // its manifest is to be sent
    | Failing(uploadId: string, created: bool)
    | Aborting(uploadId: string)
    | Aborted(uploadId: string)

  datatype State = State(
    plan: seq<Job>,
    uploads: map<string, Upload>,     // session.uploads
    phases: map<nat, Phase>,          // by the job's place in the plan
    queued: set<nat>,                 // jobs of the running stream not taken yet
    streaming: bool,
    fenced: bool,
    disposed: bool,
    // What happened at the provider, at the caller and at BeamCore.
    returned: set<Handle>,            // creations that returned, in this process or before a resume
    aborted: set<Handle>,
    lost: set<Handle>,                // aborts that took effect but were reported as failures
    cleaned: set<Handle>,             // aborted by the cleanup after a failed stream
    givenUp: set<Handle>,             // aborted and forgotten by the setup that created them
    identified: set<Handle>,          // the callback got the group's identity
    taken: set<Handle>,               // BeamCore took the group's manifest
    published: set<Handle>)           // and the SDK heard so

  datatype Event =
    | BeginStream                                  // the initial stream or a replay takes streamMu
    | EndStream
    | Take(job: nat, cancelled: bool)              // a worker takes the job, unless the stream was cancelled
    | Lookup(job: nat)
    | CreateReturns(job: nat, uploadId: string)
    | CreateFails(job: nat)                        // with or without an upload left behind
    | Record(job: nat)
    | Sign(job: nat, ok: bool)
    | Identify(job: nat, ok: bool, tookEffect: bool)  // without a callback: ok, and no effect
    | Publish(job: nat, ok: bool, tookEffect: bool)
    | Decide(job: nat)                             // abort what was created, unless ownership was lost
    | AbortReturns(job: nat)
    | AbortFails(job: nat, tookEffect: bool)
    | Delete(job: nat)
    | CleanupAborts(handle: Handle)
    | Fence
    | Dispose

  function At(s: State, job: nat): Phase {
    if job in s.phases then s.phases[job] else Idle
  }

  function Move(s: State, job: nat, phase: Phase): State {
    s.(phases := s.phases[job := phase])
  }

  function UploadFor(job: Job, uploadId: string): Upload {
    Upload(job.destination, job.objectKey, uploadId)
  }

  /** The upload a job's worker is about. */
  function Mine(s: State, job: nat): Handle
    requires job < |s.plan| && HasId(At(s, job))
  {
    Handle(s.plan[job].group, At(s, job).uploadId)
  }

  predicate HasId(phase: Phase) { !phase.Idle? && !phase.Starting? && !phase.Creating? }

  predicate AllIdle(s: State) {
    forall j | j in s.phases :: s.phases[j].Idle?
  }

  /** The jobs 0, 1, ... n-1. */
  function FirstJobs(n: nat): set<nat> { if n == 0 then {} else FirstJobs(n - 1) + {n - 1} }

  lemma {:induction false} FirstJobsMeaning(n: nat)
    ensures forall j: nat :: j in FirstJobs(n) <==> j < n
  {
    if n > 0 { FirstJobsMeaning(n - 1); }
  }

  function StreamStep(s: State, event: Event): State
    requires event.BeginStream? || event.EndStream? || event.Take? || event.Lookup?
  {
    match event
    case BeginStream => if s.streaming || s.disposed then s else s.(streaming := true, queued := FirstJobs(|s.plan|))
    case EndStream => if s.streaming && s.queued == {} && AllIdle(s) then s.(streaming := false) else s
    case Take(j, cancelled) =>
      if !s.streaming || j !in s.queued || j >= |s.plan| || !At(s, j).Idle? then s
      else Move(s.(queued := s.queued - {j}), j, if cancelled || s.fenced then Idle else Starting)
    case Lookup(j) =>
      if j >= |s.plan| || !At(s, j).Starting? then s
      else
        var g := s.plan[j].group;
        Move(s, j, if g in s.uploads then Signing(s.uploads[g].uploadId, false) else Creating)
  }

  function CreateStep(s: State, event: Event): State
    requires event.CreateReturns? || event.CreateFails? || event.Record?
  {
    if event.job >= |s.plan| then s
    else
      var j, g := event.job, s.plan[event.job].group;
      match event
      case CreateReturns(_, id) =>
        if !At(s, j).Creating? || id == "" || Handle(g, id) in s.returned + s.aborted then s
        else Move(s.(returned := s.returned + {Handle(g, id)}), j, Created(id))
      case CreateFails(_) => if !At(s, j).Creating? then s else Move(s, j, Idle)
      case Record(_) =>
        if !At(s, j).Created? then s
        else Move(s.(uploads := s.uploads[g := UploadFor(s.plan[j], At(s, j).uploadId)]), j, Signing(At(s, j).uploadId, true))
  }

  function SignStep(s: State, event: Event): State
    requires event.Sign? || event.Decide?
  {
    if event.job >= |s.plan| then s
    else
      var j := event.job;
      match event
      case Sign(_, ok) =>
        if !At(s, j).Signing? then s
        else if !ok then Move(s, j, Failing(At(s, j).uploadId, At(s, j).created))
        else
          Move(s.(uploads := s.uploads[s.plan[j].group := UploadFor(s.plan[j], At(s, j).uploadId)]),
               j, Publishing(At(s, j).uploadId, At(s, j).created))
      case Decide(_) =>
        if !At(s, j).Failing? then s
        else Move(s, j, if At(s, j).created && !s.fenced then Aborting(At(s, j).uploadId) else Idle)
  }

  /** publishMultipartGroup: ownership is checked first, then the callback is told, then the manifest is sent. */
  function PublishStep(s: State, event: Event): State
    requires event.Identify? || event.Publish?
  {
    if event.job >= |s.plan| then s
    else
      var j := event.job;
      match event
      case Identify(_, ok, tookEffect) =>
        if !At(s, j).Publishing? then s
        else if s.fenced then Move(s, j, Failing(At(s, j).uploadId, At(s, j).created))
        else
          Move(s.(identified := s.identified + (if tookEffect then {Mine(s, j)} else {})), j,
               if ok then Manifesting(At(s, j).uploadId, At(s, j).created) else Failing(At(s, j).uploadId, At(s, j).created))
      case Publish(_, ok, tookEffect) =>
        if !At(s, j).Manifesting? then s
        else
          Move(s.(taken := s.taken + (if ok || tookEffect then {Mine(s, j)} else {}),
                  published := s.published + (if ok then {Mine(s, j)} else {})), j,
               if ok then Idle else Failing(At(s, j).uploadId, At(s, j).created))
  }

  function AbortStep(s: State, event: Event): State
    requires event.AbortReturns? || event.AbortFails? || event.Delete?
  {
    if event.job >= |s.plan| then s
    else
      var j := event.job;
      match event
      case AbortReturns(_) =>
        if !At(s, j).Aborting? then s
        else Move(s.(aborted := s.aborted + {Mine(s, j)}), j, Aborted(At(s, j).uploadId))
      case AbortFails(_, tookEffect) =>
        if !At(s, j).Aborting? then s
        else
          var h := if tookEffect then {Mine(s, j)} else {};
          Move(s.(aborted := s.aborted + h, lost := s.lost + h), j, Idle)
      case Delete(_) =>
        if !At(s, j).Aborted? then s
        else Move(s.(uploads := s.uploads - {s.plan[j].group}, givenUp := s.givenUp + {Mine(s, j)}), j, Idle)
  }

  function DoCleanupAborts(s: State, h: Handle): State {
    s.(aborted := s.aborted + {h}, cleaned := s.cleaned + {h})
  }

  function Step(s: State, event: Event): State {
    match event
    case BeginStream | EndStream | Take(_, _) | Lookup(_) => StreamStep(s, event)
    case CreateReturns(_, _) | CreateFails(_) | Record(_) => CreateStep(s, event)
    case Sign(_, _) | Decide(_) => SignStep(s, event)
    case Identify(_, _, _) | Publish(_, _, _) => PublishStep(s, event)
    case AbortReturns(_) | AbortFails(_, _) | Delete(_) => AbortStep(s, event)
    case CleanupAborts(h) => DoCleanupAborts(s, h)
    case Fence => s.(fenced := true)
    case Dispose => s.(disposed := true, uploads := map[])
  }

  /** A new owner: nothing retained, or what a resume restored (`restored` is what the registry holds). */
  function Init(plan: seq<Job>, restored: map<string, Upload>): State {
    State(plan, restored, map[], {}, false, false, false,
          set g | g in restored :: Handle(g, restored[g].uploadId), {}, {}, {}, {}, {}, {}, {})
  }

  function Execute(s: State, trace: seq<Event>): State
    decreases |trace|
  {
    if trace == [] then s else Execute(Step(s, trace[0]), trace[1..])
  }

  // ----- what every step keeps, until the lease is disposed, when every job has its own group -----

  /** No two jobs share a group id. */
  ghost predicate OwnGroups(plan: seq<Job>) {
    forall i, j :: 0 <= i < j < |plan| ==> plan[i].group != plan[j].group
  }

  ghost predicate Planned(plan: seq<Job>, group: string) {
    exists j :: 0 <= j < |plan| && plan[j].group == group
  }

  ghost predicate Registered(s: State, h: Handle) {
    h.group in s.uploads && s.uploads[h.group].uploadId == h.uploadId
  }

  ghost predicate Live(s: State, h: Handle) { h in s.returned && h !in s.aborted }

  /** Somebody outside was told this upload is the group's. */
  ghost predicate Shown(s: State, h: Handle) { h in s.identified || h in s.taken }

  /** The phase of a job agrees with what the registry says about its group. */
  ghost predicate PhaseAgrees(s: State, job: nat)
    requires job < |s.plan|
  {
    var g := s.plan[job].group;
    match At(s, job)
    case Idle | Starting => true
    case Creating => g !in s.uploads
    case Created(id) =>
      && g !in s.uploads && Handle(g, id) in s.returned && id != "" && !Shown(s, Handle(g, id)) && Handle(g, id) !in s.givenUp
      && (Handle(g, id) in s.aborted ==> Handle(g, id) in s.cleaned)
    case Aborted(id) => Registered(s, Handle(g, id)) && Handle(g, id) in s.aborted
    case _ => Registered(s, Mine(s, job))
  }

  /** Conservation: a live upload is in the registry, or its worker is about to put it there. */
  ghost predicate Conserved(s: State, job: nat)
    requires job < |s.plan|
  {
    forall id :: Live(s, Handle(s.plan[job].group, id)) ==>
      Registered(s, Handle(s.plan[job].group, id)) || At(s, job) == Created(id)
  }

  /** This setup created the upload, and may take it back. */
  ghost predicate Owns(phase: Phase) {
    phase.Creating? || phase.Created? || phase.Aborting? || phase.Aborted?
    || ((phase.Signing? || phase.Publishing? || phase.Manifesting? || phase.Failing?) && phase.created)
  }

  /** What was reported as published stays registered, and no worker may take it back. */
  ghost predicate PublishedKept(s: State, job: nat)
    requires job < |s.plan|
  {
    forall id :: Handle(s.plan[job].group, id) in s.published ==> Registered(s, Handle(s.plan[job].group, id)) && !Owns(At(s, job))
  }

  /** What was shown stays registered exactly unless the setup that created it gave it up. */
  ghost predicate ShownKept(s: State, job: nat)
    requires job < |s.plan|
  {
    forall id ::
      var h := Handle(s.plan[job].group, id);
      && (Shown(s, h) ==> h in s.returned && (Registered(s, h) <==> h !in s.givenUp))
      && (h in s.givenUp ==> h in s.aborted && !Registered(s, h))
  }

  ghost predicate RegistryKnown(s: State, job: nat)
    requires job < |s.plan|
  {
    var g := s.plan[job].group;
    g in s.uploads ==>
      && s.uploads[g] == UploadFor(s.plan[job], s.uploads[g].uploadId)
      && Handle(g, s.uploads[g].uploadId) in s.returned && s.uploads[g].uploadId != ""
  }

  /** A registered upload is live, unless the cleanup, a lost abort, or an abort about to be recorded ended it. */
  ghost predicate RegistryLive(s: State, job: nat)
    requires job < |s.plan|
  {
    forall id :: Registered(s, Handle(s.plan[job].group, id)) && Handle(s.plan[job].group, id) in s.aborted ==>
      Handle(s.plan[job].group, id) in s.lost || Handle(s.plan[job].group, id) in s.cleaned || At(s, job) == Aborted(id)
  }

  ghost predicate JobInv(s: State, job: nat)
    requires job < |s.plan|
  {
    && PhaseAgrees(s, job) && RegistryKnown(s, job) && Conserved(s, job)
    && PublishedKept(s, job) && ShownKept(s, job) && RegistryLive(s, job)
  }

  /** Nothing belongs to a group that no job has. */
  ghost predicate OnlyPlanned(s: State) {
    && (forall h :: h in s.returned || Shown(s, h) || h in s.published ==> Planned(s.plan, h.group))
    && (forall g :: g in s.uploads ==> Planned(s.plan, g))
  }

  ghost predicate Inv(s: State) {
    OwnGroups(s.plan) && (!s.disposed ==> OnlyPlanned(s) && forall j :: 0 <= j < |s.plan| ==> JobInv(s, j))
  }

  /** The job an event is about. */
  function Of(event: Event): Option<nat> {
    match event
    case BeginStream | EndStream | CleanupAborts(_) | Fence | Dispose => None
    case Take(j, _) => Some(j)
    case Lookup(j) => Some(j)
    case CreateReturns(j, _) => Some(j)
    case CreateFails(j) => Some(j)
    case Record(j) => Some(j)
    case Sign(j, _) => Some(j)
    case Identify(j, _, _) => Some(j)
    case Publish(j, _, _) => Some(j)
    case Decide(j) => Some(j)
    case AbortReturns(j) => Some(j)
    case AbortFails(j, _) => Some(j)
    case Delete(j) => Some(j)
  }

  /** What a group can see is the same. */
  ghost predicate SameGroup(s: State, s': State, group: string) {
    && (group in s'.uploads <==> group in s.uploads)
    && (group in s.uploads ==> s'.uploads[group] == s.uploads[group])
    && (forall id ::
          var h := Handle(group, id);
          && (h in s'.returned <==> h in s.returned) && (h in s'.aborted <==> h in s.aborted)
          && (h in s'.lost <==> h in s.lost) && (h in s'.cleaned <==> h in s.cleaned) && (h in s'.givenUp <==> h in s.givenUp)
          && (h in s'.identified <==> h in s.identified) && (h in s'.taken <==> h in s.taken) && (h in s'.published <==> h in s.published))
  }

  /** What `job` can see of a step of a job with another group. */
  ghost predicate Local(s: State, s': State, job: nat)
    requires job < |s.plan|
  {
    s'.plan == s.plan && At(s', job) == At(s, job) && SameGroup(s, s', s.plan[job].group)
  }

  /** The step of another group. */
  ghost predicate Elsewhere(s: State, event: Event, job: nat) {
    job < |s.plan| && Of(event) != Some(job)
    && (Of(event).Some? && Of(event).value < |s.plan| ==> s.plan[Of(event).value].group != s.plan[job].group)
  }

  lemma StreamIsLocal(s: State, event: Event, job: nat)
    requires (event.BeginStream? || event.EndStream? || event.Take? || event.Lookup?) && Elsewhere(s, event, job)
    ensures Local(s, StreamStep(s, event), job)
  {
  }

  lemma CreateIsLocal(s: State, event: Event, job: nat)
    requires (event.CreateReturns? || event.CreateFails? || event.Record?) && Elsewhere(s, event, job)
    ensures Local(s, CreateStep(s, event), job)
  {
  }

  lemma SignIsLocal(s: State, event: Event, job: nat)
    requires (event.Sign? || event.Decide?) && Elsewhere(s, event, job)
    ensures Local(s, SignStep(s, event), job)
  {
  }

  lemma PublishIsLocal(s: State, event: Event, job: nat)
    requires (event.Identify? || event.Publish?) && Elsewhere(s, event, job)
    ensures Local(s, PublishStep(s, event), job)
  {
  }

  lemma AbortIsLocal(s: State, event: Event, job: nat)
    requires (event.AbortReturns? || event.AbortFails? || event.Delete?) && Elsewhere(s, event, job)
    ensures Local(s, AbortStep(s, event), job)
  {
  }

  /** A worker's step touches its own group only. */
  lemma StepIsLocal(s: State, event: Event, job: nat)
    requires Elsewhere(s, event, job) && !event.Dispose? && !event.CleanupAborts?
    ensures Local(s, Step(s, event), job)
  {
    match event
    case BeginStream | EndStream | Take(_, _) | Lookup(_) => StreamIsLocal(s, event, job);
    case CreateReturns(_, _) | CreateFails(_) | Record(_) => CreateIsLocal(s, event, job);
    case Sign(_, _) | Decide(_) => SignIsLocal(s, event, job);
    case Identify(_, _, _) | Publish(_, _, _) => PublishIsLocal(s, event, job);
    case AbortReturns(_) | AbortFails(_, _) | Delete(_) => AbortIsLocal(s, event, job);
    case Fence =>
  }

  /** The invariant of a job only depends on what its group can see. */
  lemma LocalJobInv(s: State, s': State, job: nat)
    requires job < |s.plan| && JobInv(s, job) && Local(s, s', job)
    ensures JobInv(s', job)
  {
    var g := s.plan[job].group;
    assert forall id :: Registered(s', Handle(g, id)) <==> Registered(s, Handle(g, id));
    assert forall id :: Shown(s', Handle(g, id)) <==> Shown(s, Handle(g, id));
    assert forall id :: Live(s', Handle(g, id)) <==> Live(s, Handle(g, id));
  }

  lemma CleanupJobInv(s: State, h: Handle, job: nat)
    requires job < |s.plan| && JobInv(s, job)
    ensures JobInv(DoCleanupAborts(s, h), job)
  {
    var s', g := DoCleanupAborts(s, h), s.plan[job].group;
    assert forall id :: Registered(s', Handle(g, id)) <==> Registered(s, Handle(g, id));
    assert forall id :: Shown(s', Handle(g, id)) <==> Shown(s, Handle(g, id));
    assert h in s'.cleaned;
  }

  lemma StreamJobInv(s: State, event: Event, job: nat)
    requires job < |s.plan| && JobInv(s, job) && (event.Take? || event.Lookup?) && Of(event) == Some(job)
    ensures JobInv(StreamStep(s, event), job)
  {
    SameButPhase(s, StreamStep(s, event), job);
  }

  /** What holds of a group whatever its worker does next. */
  lemma SameButPhase(s: State, s': State, job: nat)
    requires job < |s.plan| && s'.plan == s.plan && SameGroup(s, s', s.plan[job].group)
    ensures forall id :: Registered(s', Handle(s.plan[job].group, id)) <==> Registered(s, Handle(s.plan[job].group, id))
    ensures forall id :: Shown(s', Handle(s.plan[job].group, id)) <==> Shown(s, Handle(s.plan[job].group, id))
    ensures forall id :: Live(s', Handle(s.plan[job].group, id)) <==> Live(s, Handle(s.plan[job].group, id))
  {
  }

  lemma CreateJobInv(s: State, event: Event, job: nat)
    requires job < |s.plan| && JobInv(s, job) && (event.CreateReturns? || event.CreateFails? || event.Record?) && Of(event) == Some(job)
    ensures JobInv(CreateStep(s, event), job)
  {
  }

  lemma SignKeepsGroup(s: State, event: Event, job: nat)
    requires job < |s.plan| && JobInv(s, job) && (event.Sign? || event.Decide?) && Of(event) == Some(job)
    ensures SameGroup(s, SignStep(s, event), s.plan[job].group) && SignStep(s, event).plan == s.plan
  {
    if SignStep(s, event) != s { assert Registered(s, Mine(s, job)); }
  }

  lemma SignJobInv(s: State, event: Event, job: nat)
    requires job < |s.plan| && JobInv(s, job) && (event.Sign? || event.Decide?) && Of(event) == Some(job)
    ensures JobInv(SignStep(s, event), job)
  {
    SignKeepsGroup(s, event, job);
    SameButPhase(s, SignStep(s, event), job);
    if SignStep(s, event) != s { assert Registered(s, Mine(s, job)); }
  }

  lemma PublishJobInv(s: State, event: Event, job: nat)
    requires job < |s.plan| && JobInv(s, job) && (event.Identify? || event.Publish?) && Of(event) == Some(job)
    ensures JobInv(PublishStep(s, event), job)
  {
    var s' := PublishStep(s, event);
    if s' != s {
      var g := s.plan[job].group;
      assert Registered(s, Mine(s, job));
      assert forall id :: Registered(s', Handle(g, id)) <==> Registered(s, Handle(g, id));
    }
  }

  lemma AbortJobInv(s: State, event: Event, job: nat)
    requires job < |s.plan| && JobInv(s, job) && (event.AbortReturns? || event.AbortFails? || event.Delete?) && Of(event) == Some(job)
    ensures JobInv(AbortStep(s, event), job)
  {
  }

  lemma OwnJobInv(s: State, event: Event, job: nat)
    requires job < |s.plan| && JobInv(s, job) && Of(event) == Some(job)
    ensures JobInv(Step(s, event), job)
  {
    match event
    case Take(_, _) | Lookup(_) => StreamJobInv(s, event, job);
    case CreateReturns(_, _) | CreateFails(_) | Record(_) => CreateJobInv(s, event, job);
    case Sign(_, _) | Decide(_) => SignJobInv(s, event, job);
    case Identify(_, _, _) | Publish(_, _, _) => PublishJobInv(s, event, job);
    case AbortReturns(_) | AbortFails(_, _) | Delete(_) => AbortJobInv(s, event, job);
  }

  lemma StepJobInv(s: State, event: Event, job: nat)
    requires OwnGroups(s.plan) && job < |s.plan| && JobInv(s, job) && !event.Dispose?
    ensures Step(s, event).plan == s.plan && JobInv(Step(s, event), job)
  {
    StepKeepsPlan(s, event);
    if Of(event) == Some(job) {
      OwnJobInv(s, event, job);
    } else if event.CleanupAborts? {
      CleanupJobInv(s, event.handle, job);
    } else {
      StepIsLocal(s, event, job);
      LocalJobInv(s, Step(s, event), job);
    }
  }

  lemma StepKeepsPlan(s: State, event: Event)
    ensures Step(s, event).plan == s.plan
  {
  }

  lemma DisposalIsFinal(s: State, event: Event)
    ensures Step(s, event).disposed <==> s.disposed || event.Dispose?
  {
  }

  /** A step adds handles and registry entries of its job's group only. */
  ghost predicate Adds(s: State, s': State, job: nat)
    requires job < |s.plan|
  {
    && s'.plan == s.plan
    && (forall h :: h in s'.returned && h !in s.returned ==> h.group == s.plan[job].group)
    && (forall h :: Shown(s', h) && !Shown(s, h) ==> h.group == s.plan[job].group)
    && (forall h :: h in s'.published && h !in s.published ==> h.group == s.plan[job].group)
    && (forall g :: g in s'.uploads && g !in s.uploads ==> g == s.plan[job].group)
  }

  lemma EarlyStepAdds(s: State, event: Event)
    requires event.Take? || event.Lookup? || event.CreateReturns? || event.CreateFails? || event.Record?
    requires event.job < |s.plan|
    ensures Adds(s, Step(s, event), event.job)
  {
  }

  lemma LateStepAdds(s: State, event: Event)
    requires Of(event).Some? && !(event.Take? || event.Lookup? || event.CreateReturns? || event.CreateFails? || event.Record?)
    requires event.job < |s.plan|
    ensures Adds(s, Step(s, event), event.job)
  {
  }

  lemma StepOnlyPlanned(s: State, event: Event)
    requires OnlyPlanned(s) && !event.Dispose?
    ensures OnlyPlanned(Step(s, event))
  {
    StepKeepsPlan(s, event);
    if Of(event).Some? && Of(event).value < |s.plan| {
      if event.Take? || event.Lookup? || event.CreateReturns? || event.CreateFails? || event.Record? {
        EarlyStepAdds(s, event);
      } else {
        LateStepAdds(s, event);
      }
      assert Planned(s.plan, s.plan[Of(event).value].group);
    }
  }

  lemma StepInv(s: State, event: Event)
    requires Inv(s)
    ensures Inv(Step(s, event))
  {
    DisposalIsFinal(s, event);
    StepKeepsPlan(s, event);
    if !s.disposed && !event.Dispose? {
      StepOnlyPlanned(s, event);
      forall j | 0 <= j < |s.plan| ensures JobInv(Step(s, event), j) { StepJobInv(s, event, j); }
    }
  }

  lemma {:induction false} ExecuteInv(s: State, trace: seq<Event>)
    requires Inv(s)
    ensures Inv(Execute(s, trace)) && Execute(s, trace).plan == s.plan
    decreases |trace|
  {
    if trace != [] {
      StepInv(s, trace[0]);
      StepKeepsPlan(s, trace[0]);
      ExecuteInv(Step(s, trace[0]), trace[1..]);
    }
  }

  lemma {:induction false} ExecutePlus(s: State, trace: seq<Event>, more: seq<Event>)
    ensures Execute(s, trace + more) == Execute(Execute(s, trace), more)
    decreases |trace|
  {
    if trace == [] {
      assert trace + more == more;
    } else {
      assert (trace + more)[0] == trace[0] && (trace + more)[1..] == trace[1..] + more;
      ExecutePlus(Step(s, trace[0]), trace[1..], more);
    }
  }

  lemma OneMore(s: State, trace: seq<Event>, now: State, event: Event) returns (longer: seq<Event>)
    requires Execute(s, trace) == now
    ensures Execute(s, longer) == Step(now, event)
    ensures event in longer && forall e :: e in trace ==> e in longer
  {
    longer := trace + [event];
    ExecutePlus(s, trace, [event]);
  }
}
