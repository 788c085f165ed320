/** How one setup worker gets from phase to phase, and how a stream hands out its jobs; the steps seen by job, not by event. */
module UploadWorkers {
  import opened Basics
  import opened Uploads

  /** The worker takes the job from the running stream, which was not cancelled, and nobody else owns the transfer. */
  ghost predicate TakesJob(s: State, event: Event, j: nat) {
    event == Take(j, false) && s.streaming && j in s.queued && j < |s.plan| && !s.fenced
  }

  /** Where a worker is after a step: each phase is left for its own reasons, and by no other worker's step. */
  ghost predicate NextPhase(s: State, event: Event, j: nat, now: Phase, next: Phase)
    requires j < |s.plan|
  {
    var g := s.plan[j].group;
    match now
    case Idle => next == if TakesJob(s, event, j) then Starting else Idle
    case Starting =>
      next == if event != Lookup(j) then now else if g in s.uploads then Signing(s.uploads[g].uploadId, false) else Creating
    case Creating =>
      next == if event == CreateFails(j) then Idle
              else if event.CreateReturns? && event.job == j && event.uploadId != "" && Handle(g, event.uploadId) !in s.returned + s.aborted then Created(event.uploadId)
              else now
    case Created(id) => next == if event == Record(j) then Signing(id, true) else now
    case Signing(id, created) =>
      next == if event == Sign(j, true) then Publishing(id, created) else if event == Sign(j, false) then Failing(id, created) else now
    case Publishing(id, created) =>
      next == if !(event.Identify? && event.job == j) then now else if event.ok && !s.fenced then Manifesting(id, created) else Failing(id, created)
    case Manifesting(id, created) =>
      next == if !(event.Publish? && event.job == j) then now else if event.ok then Idle else Failing(id, created)
    case Failing(id, created) =>
      next == if event != Decide(j) then now else if created && !s.fenced then Aborting(id) else Idle
    case Aborting(id) =>
      next == if event == AbortReturns(j) then Aborted(id) else if event.AbortFails? && event.job == j then Idle else now
    case Aborted(_) => next == if event == Delete(j) then Idle else now
  }

  lemma StreamMoves(s: State, event: Event, j: nat)
    requires j < |s.plan| && (event.BeginStream? || event.EndStream? || event.Take? || event.Lookup?)
    ensures NextPhase(s, event, j, At(s, j), At(StreamStep(s, event), j))
  {
  }

  lemma CreateMoves(s: State, event: Event, j: nat)
    requires j < |s.plan| && (event.CreateReturns? || event.CreateFails? || event.Record?)
    ensures NextPhase(s, event, j, At(s, j), At(CreateStep(s, event), j))
  {
  }

  lemma SignMoves(s: State, event: Event, j: nat)
    requires j < |s.plan| && (event.Sign? || event.Decide?)
    ensures NextPhase(s, event, j, At(s, j), At(SignStep(s, event), j))
  {
  }

  lemma PublishMoves(s: State, event: Event, j: nat)
    requires j < |s.plan| && (event.Identify? || event.Publish?)
    ensures NextPhase(s, event, j, At(s, j), At(PublishStep(s, event), j))
  {
  }

  lemma AbortMoves(s: State, event: Event, j: nat)
    requires j < |s.plan| && (event.AbortReturns? || event.AbortFails? || event.Delete?)
    ensures NextPhase(s, event, j, At(s, j), At(AbortStep(s, event), j))
  {
  }

  /** Every step takes every worker just where its phase says. */
  lemma WorkerMoves(s: State, event: Event, j: nat)
    requires j < |s.plan|
    ensures NextPhase(s, event, j, At(s, j), At(Step(s, event), j))
  {
    match event
    case BeginStream | EndStream | Take(_, _) | Lookup(_) => StreamMoves(s, event, j);
    case CreateReturns(_, _) | CreateFails(_) | Record(_) => CreateMoves(s, event, j);
    case Sign(_, _) | Decide(_) => SignMoves(s, event, j);
    case Identify(_, _, _) | Publish(_, _, _) => PublishMoves(s, event, j);
    case AbortReturns(_) | AbortFails(_, _) | Delete(_) => AbortMoves(s, event, j);
    case CleanupAborts(_) | Fence | Dispose =>
  }

  // ----- the registry -----

  /** The worker of the job puts its upload into the registry: when it recorded what it created, and again once its controls are signed. */
  ghost predicate Registers(s: State, event: Event, j: nat) {
    j < |s.plan| && ((event == Record(j) && At(s, j).Created?) || (event == Sign(j, true) && At(s, j).Signing?))
  }

  /** It takes an upload out again only after the abort it asked for was reported. */
  ghost predicate Unregisters(s: State, event: Event, j: nat) {
    j < |s.plan| && event == Delete(j) && At(s, j).Aborted?
  }

  ghost predicate RegistryChanges(s: State, event: Event, now: map<string, Upload>) {
    && (forall j: nat :: Registers(s, event, j) ==> now == s.uploads[s.plan[j].group := UploadFor(s.plan[j], At(s, j).uploadId)])
    && (forall j: nat :: Unregisters(s, event, j) ==> now == s.uploads - {s.plan[j].group})
    && (event.Dispose? ==> now == map[])
    && (!event.Dispose? && (forall j: nat :: !Registers(s, event, j) && !Unregisters(s, event, j)) ==> now == s.uploads)
  }

  lemma OneWorkerRegisters(s: State, event: Event)
    requires event.Record? || event.Sign? || event.Delete?
    ensures RegistryChanges(s, event, Step(s, event).uploads)
  {
    if !Registers(s, event, event.job) && !Unregisters(s, event, event.job) { assert Step(s, event).uploads == s.uploads; }
  }

  /** The registry changes just so, whoever shares a group. */
  lemma RegistryMoves(s: State, event: Event)
    ensures RegistryChanges(s, event, Step(s, event).uploads)
  {
    if event.Record? || event.Sign? || event.Delete? { OneWorkerRegisters(s, event); }
  }

  // ----- streams -----

  /** One stream at a time; it hands out every job of the plan, each to one worker, and ends when all are idle again. */
  ghost predicate StreamChanges(s: State, event: Event, s': State) {
    && (s'.streaming && !s.streaming <==> event.BeginStream? && !s.streaming && !s.disposed)
    && (!s'.streaming && s.streaming <==> event.EndStream? && s.streaming && s.queued == {} && forall j: nat :: At(s, j).Idle?)
    && (forall j: nat :: j in s'.queued && j !in s.queued ==> event.BeginStream? && !s.streaming && !s.disposed && j < |s.plan|)
    && (event.BeginStream? && !s.streaming && !s.disposed ==> forall j: nat :: j in s'.queued <==> j < |s.plan|)
    && (forall j: nat :: j in s.queued && j !in s'.queued ==>
          (event.Take? && event.job == j && s.streaming && At(s, j).Idle?) || (event.BeginStream? && j >= |s.plan|))
    && (forall j: nat :: event.Take? && event.job == j && s.streaming && j in s.queued && j < |s.plan| && At(s, j).Idle? ==> j !in s'.queued)
  }

  lemma StreamMeaning(s: State, event: Event)
    ensures StreamChanges(s, event, Step(s, event))
  {
    FirstJobsMeaning(|s.plan|);
    if forall j: nat :: At(s, j).Idle? {
      forall j | j in s.phases ensures s.phases[j].Idle? { assert At(s, j) == s.phases[j]; }
    }
  }

  /** While no stream runs nobody works, and a job that somebody works on is not handed out again. */
  ghost predicate StreamInv(s: State) {
    && (!s.streaming ==> s.queued == {} && AllIdle(s))
    && (forall j: nat :: !At(s, j).Idle? ==> j !in s.queued && j < |s.plan|)
    && (forall j: nat :: j in s.queued ==> j < |s.plan|)
  }

  lemma StreamStepInv(s: State, event: Event)
    requires StreamInv(s)
    ensures StreamInv(Step(s, event))
  {
    var s' := Step(s, event);
    StreamMeaning(s, event);
    StepKeepsPlan(s, event);
    forall j: nat | !At(s', j).Idle? ensures j !in s'.queued && j < |s'.plan| {
      if j < |s.plan| { WorkerMoves(s, event, j); }
    }
  }

  /** In every run a stream ends with all its jobs handed out, each once, and every worker done; a fenced owner starts none. */
  lemma {:induction false} StreamsHandOutEachJobOnce(plan: seq<Job>, restored: map<string, Upload>, trace: seq<Event>)
    ensures StreamInv(Execute(Init(plan, restored), trace))
    decreases |trace|
  {
    if trace != [] {
      var init, last := trace[..|trace| - 1], trace[|trace| - 1];
      StreamsHandOutEachJobOnce(plan, restored, init);
      assert trace == init + [last];
      ExecutePlus(Init(plan, restored), init, [last]);
      var now := Execute(Init(plan, restored), init);
      assert Execute(now, [last]) == Step(now, last);
      StreamStepInv(now, last);
    }
  }
}
