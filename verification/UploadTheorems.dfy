/** What the uploads of a transfer are promised over every run, and the runs that show where a promise ends. */
module UploadTheorems {
  import opened Basics
  import opened Uploads

  /** What a resume restores: the retained id of some of the plan's groups. */
  ghost predicate RestoredFrom(plan: seq<Job>, restored: map<string, Upload>) {
    forall g :: g in restored ==> restored[g].uploadId != "" && RestoredJob(plan, g, restored[g])
  }

  ghost predicate RestoredJob(plan: seq<Job>, group: string, upload: Upload) {
    exists j :: 0 <= j < |plan| && plan[j] == Job(group, upload.destination, upload.objectKey)
  }

  lemma InitInv(plan: seq<Job>, restored: map<string, Upload>)
    requires OwnGroups(plan) && RestoredFrom(plan, restored)
    ensures Inv(Init(plan, restored))
  {
    var s := Init(plan, restored);
    forall j | 0 <= j < |plan| ensures JobInv(s, j) {
      assert forall id :: Handle(plan[j].group, id) in s.returned ==> Registered(s, Handle(plan[j].group, id));
    }
    forall g | g in restored ensures Planned(plan, g) {
      var j :| 0 <= j < |plan| && plan[j] == Job(g, restored[g].destination, restored[g].objectKey);
      assert plan[j].group == g;
    }
  }

  lemma JobOf(s: State, group: string) returns (job: nat)
    requires Planned(s.plan, group)
    ensures job < |s.plan| && s.plan[job].group == group
  {
    job :| 0 <= job < |s.plan| && s.plan[job].group == group;
  }

  /** A worker of the upload's group created it and has not recorded it yet. */
  ghost predicate AboutToRecord(s: State, h: Handle) {
    exists j :: 0 <= j < |s.plan| && s.plan[j].group == h.group && At(s, j) == Created(h.uploadId)
  }

  /** Where the cleanup looks for an upload, and with what it aborts it. */
  ghost predicate Retained(s: State, h: Handle) {
    exists j :: 0 <= j < |s.plan| && s.plan[j].group == h.group && h.group in s.uploads && s.uploads[h.group] == UploadFor(s.plan[j], h.uploadId)
  }

  /**
   Conservation: until disposal, an upload whose creation returned and that was not aborted is in the registry, where the
   cleanup finds it, or the worker that created it has not recorded it yet; and a group has at most one.
   */
  ghost predicate Conserves(plan: seq<Job>, restored: map<string, Upload>, trace: seq<Event>, h: Handle, k: Handle) {
    var s := Execute(Init(plan, restored), trace);
    !s.disposed && Live(s, h) ==>
      && (Registered(s, h) || AboutToRecord(s, h))
      && (AllIdle(s) ==> Retained(s, h))
      && (Live(s, k) && k.group == h.group ==> k == h)
  }

  lemma UploadsAreConserved(plan: seq<Job>, restored: map<string, Upload>, trace: seq<Event>, h: Handle, k: Handle)
    requires OwnGroups(plan) && RestoredFrom(plan, restored)
    ensures Conserves(plan, restored, trace, h, k)
  {
    InitInv(plan, restored);
    ExecuteInv(Init(plan, restored), trace);
    var s := Execute(Init(plan, restored), trace);
    if !s.disposed && Live(s, h) {
      var job := JobOf(s, h.group);
      assert JobInv(s, job);
      assert h == Handle(h.group, h.uploadId) && k == Handle(k.group, k.uploadId);
      assert At(s, job).Idle? || job in s.phases;
    }
  }

  /** A worker of each of two jobs is about to create, neither knowing of the other. */
  ghost predicate BothCreate(s: State, plan: seq<Job>, i: nat, j: nat) {
    s.plan == plan && !s.disposed && s.returned + s.aborted == {} && At(s, i) == Creating && At(s, j) == Creating
  }

  lemma BothStart(plan: seq<Job>, i: nat, j: nat) returns (trace: seq<Event>, now: State)
    requires i < j < |plan| && plan[i].group == plan[j].group
    ensures now == Execute(Init(plan, map[]), trace) && BothCreate(now, plan, i, j)
  {
    FirstJobsMeaning(|plan|);
    trace, now := [], Init(plan, map[]);
    trace := OneMore(Init(plan, map[]), trace, now, BeginStream); now := Step(now, BeginStream);
    trace := OneMore(Init(plan, map[]), trace, now, Take(i, false)); now := Step(now, Take(i, false));
    trace := OneMore(Init(plan, map[]), trace, now, Take(j, false)); now := Step(now, Take(j, false));
    assert At(now, i) == Starting && At(now, j) == Starting;
    trace := OneMore(Init(plan, map[]), trace, now, Lookup(i)); now := Step(now, Lookup(i));
    trace := OneMore(Init(plan, map[]), trace, now, Lookup(j)); now := Step(now, Lookup(j));
  }

  lemma BothAreCreated(s: State, plan: seq<Job>, i: nat, j: nat) returns (trace: seq<Event>, now: State)
    requires i < j < |plan| && plan[i].group == plan[j].group && BothCreate(s, plan, i, j)
    ensures now == Execute(s, trace) && !now.disposed && now.plan == plan && now.aborted == {}
    ensures At(now, i) == Created("u") && At(now, j) == Created("v")
    ensures Handle(plan[i].group, "u") in now.returned && Handle(plan[i].group, "v") in now.returned
  {
    assert "u"[0] != "v"[0];
    trace, now := [], s;
    trace := OneMore(s, trace, now, CreateReturns(i, "u")); now := Step(now, CreateReturns(i, "u"));
    trace := OneMore(s, trace, now, CreateReturns(j, "v")); now := Step(now, CreateReturns(j, "v"));
  }

  /** The second record overwrites the first: an upload is alive that no registry holds. */
  lemma SecondRecordWins(s: State, plan: seq<Job>, i: nat, j: nat) returns (trace: seq<Event>, now: State)
    requires i < j < |plan| && plan[i].group == plan[j].group && s.plan == plan && !s.disposed && s.aborted == {}
    requires At(s, i) == Created("u") && At(s, j) == Created("v")
    requires Handle(plan[i].group, "u") in s.returned && Handle(plan[i].group, "v") in s.returned
    ensures now == Execute(s, trace) && !now.disposed
    ensures Live(now, Handle(plan[i].group, "u")) && Live(now, Handle(plan[i].group, "v")) && !Registered(now, Handle(plan[i].group, "u"))
  {
    assert "u"[0] != "v"[0];
    trace, now := [], s;
    trace := OneMore(s, trace, now, Record(i)); now := Step(now, Record(i));
    trace := OneMore(s, trace, now, Record(j)); now := Step(now, Record(j));
  }

  /** When two jobs share a group id, some run leaves two live uploads in one group, one of them out of the registry's sight. */
  lemma SharedGroupLosesAnUpload(plan: seq<Job>, i: nat, j: nat) returns (trace: seq<Event>)
    requires i < j < |plan| && plan[i].group == plan[j].group
    ensures !Conserves(plan, map[], trace, Handle(plan[i].group, "u"), Handle(plan[i].group, "v"))
  {
    var t1, s1 := BothStart(plan, i, j);
    var t2, s2 := BothAreCreated(s1, plan, i, j);
    var t3, s3 := SecondRecordWins(s2, plan, i, j);
    ExecutePlus(Init(plan, map[]), t1, t2);
    ExecutePlus(Init(plan, map[]), t1 + t2, t3);
    trace := t1 + t2 + t3;
    assert "u"[0] != "v"[0];
  }

  /** So uploads are conserved in every run exactly when no two jobs share a group id. */
  lemma ConservedIffOwnGroups(plan: seq<Job>)
    ensures OwnGroups(plan) <==>
      forall restored, trace, h, k :: RestoredFrom(plan, restored) ==> Conserves(plan, restored, trace, h, k)
  {
    if OwnGroups(plan) {
      forall restored, trace, h, k | RestoredFrom(plan, restored) ensures Conserves(plan, restored, trace, h, k) {
        UploadsAreConserved(plan, restored, trace, h, k);
      }
    } else {
      var i, j :| 0 <= i < j < |plan| && plan[i].group == plan[j].group;
      var trace := SharedGroupLosesAnUpload(plan, i, j);
      assert RestoredFrom(plan, map[]);
    }
  }

  /** However many replays, only one upload id of a group is reported as published, and that one stays registered. */
  lemma OneIdIsPublished(plan: seq<Job>, restored: map<string, Upload>, trace: seq<Event>, h: Handle, k: Handle)
    requires OwnGroups(plan) && RestoredFrom(plan, restored)
    requires var s := Execute(Init(plan, restored), trace); !s.disposed && h in s.published
    ensures var s := Execute(Init(plan, restored), trace); Registered(s, h) && (k in s.published && k.group == h.group ==> k == h)
  {
    InitInv(plan, restored);
    ExecuteInv(Init(plan, restored), trace);
    var s := Execute(Init(plan, restored), trace);
    var job := JobOf(s, h.group);
    assert JobInv(s, job);
    assert h == Handle(h.group, h.uploadId) && k == Handle(k.group, k.uploadId);
  }

  /**
   What the callback or BeamCore was told about a group stays true exactly until the setup that created the upload gives
   it up; of what was told and not given up, there is one id a group.
   */
  lemma ShownIdsStay(plan: seq<Job>, restored: map<string, Upload>, trace: seq<Event>, h: Handle, k: Handle)
    requires OwnGroups(plan) && RestoredFrom(plan, restored)
    requires var s := Execute(Init(plan, restored), trace); !s.disposed && Shown(s, h)
    ensures var s := Execute(Init(plan, restored), trace);
            && (Registered(s, h) <==> h !in s.givenUp)
            && (Shown(s, k) && k.group == h.group && h !in s.givenUp && k !in s.givenUp ==> k == h)
  {
    InitInv(plan, restored);
    ExecuteInv(Init(plan, restored), trace);
    var s := Execute(Init(plan, restored), trace);
    var job := JobOf(s, h.group);
    assert JobInv(s, job);
    assert h == Handle(h.group, h.uploadId) && k == Handle(k.group, k.uploadId);
  }

  /** The worker of the upload's group aborted it and has not dropped it from the registry yet. */
  ghost predicate AboutToDrop(s: State, h: Handle) {
    exists j :: 0 <= j < |s.plan| && s.plan[j].group == h.group && At(s, j) == Aborted(h.uploadId)
  }

  lemma LossesAreAborts(s: State, event: Event)
    requires s.lost + s.cleaned <= s.aborted
    ensures Step(s, event).lost + Step(s, event).cleaned <= Step(s, event).aborted
  {
  }

  lemma {:induction false} LossesStayAborts(s: State, trace: seq<Event>)
    requires s.lost + s.cleaned <= s.aborted
    ensures Execute(s, trace).lost + Execute(s, trace).cleaned <= Execute(s, trace).aborted
    decreases |trace|
  {
    if trace != [] {
      LossesAreAborts(s, trace[0]);
      LossesStayAborts(Step(s, trace[0]), trace[1..]);
    }
  }

  /**
   A registered upload is alive exactly unless an abort of it took effect and was reported as a failure, the cleanup
   aborted it, or its worker is about to drop it.
   */
  lemma RegistryHoldsLiveUploads(plan: seq<Job>, restored: map<string, Upload>, trace: seq<Event>, h: Handle)
    requires OwnGroups(plan) && RestoredFrom(plan, restored)
    requires var s := Execute(Init(plan, restored), trace); !s.disposed && Registered(s, h)
    ensures var s := Execute(Init(plan, restored), trace);
            Live(s, h) <==> h !in s.lost && h !in s.cleaned && !AboutToDrop(s, h)
  {
    InitInv(plan, restored);
    ExecuteInv(Init(plan, restored), trace);
    LossesStayAborts(Init(plan, restored), trace);
    var s := Execute(Init(plan, restored), trace);
    var job := JobOf(s, h.group);
    assert JobInv(s, job);
    assert h == Handle(h.group, h.uploadId);
  }

  lemma {:induction false} NeverDisposed(s: State, trace: seq<Event>)
    requires !s.disposed && forall n :: 0 <= n < |trace| ==> !trace[n].Dispose?
    ensures !Execute(s, trace).disposed
    decreases |trace|
  {
    if trace != [] {
      DisposalIsFinal(s, trace[0]);
      NeverDisposed(Step(s, trace[0]), trace[1..]);
    }
  }

  /** Between streams of a plan of one job, with nothing retained. */
  ghost predicate Quiet(s: State, job: Job) {
    s.plan == [job] && !s.disposed && !s.fenced && !s.streaming && s.uploads == map[] && s.phases.Keys <= {0} && At(s, 0).Idle?
  }

  /** The setup of that one job stands at `phase`, having created `id`. */
  ghost predicate Inside(s: State, job: Job, phase: Phase) {
    s.plan == [job] && !s.disposed && !s.fenced && s.streaming && s.queued == {} && s.phases == map[0 := phase]
  }

  /** The history has not changed but for one creation. */
  ghost predicate CreatedSince(s: State, now: State, h: Handle) {
    && now.returned == s.returned + {h} && now.aborted == s.aborted && now.givenUp == s.givenUp
    && now.identified == s.identified && now.taken == s.taken && now.published == s.published
  }

  lemma CreateRun(s: State, job: Job, id: string) returns (trace: seq<Event>, now: State)
    requires Quiet(s, job) && id != "" && Handle(job.group, id) !in s.returned + s.aborted
    ensures now == Execute(s, trace) && Inside(now, job, Created(id)) && CreatedSince(s, now, Handle(job.group, id)) && now.uploads == map[]
  {
    FirstJobsMeaning(1);
    trace, now := [], s;
    trace := OneMore(s, trace, now, BeginStream); now := Step(now, BeginStream);
    assert now.queued == {0};
    trace := OneMore(s, trace, now, Take(0, false)); now := Step(now, Take(0, false));
    assert now.phases == map[0 := Starting] && now.queued == {};
    trace := OneMore(s, trace, now, Lookup(0)); now := Step(now, Lookup(0));
    assert now.phases == map[0 := Creating];
    trace := OneMore(s, trace, now, CreateReturns(0, id)); now := Step(now, CreateReturns(0, id));
  }

  lemma SignRun(s: State, job: Job, id: string, ok: bool) returns (trace: seq<Event>, now: State)
    requires Inside(s, job, Created(id))
    ensures now == Execute(s, trace) && Inside(now, job, if ok then Publishing(id, true) else Failing(id, true))
    ensures now.uploads == s.uploads[job.group := UploadFor(job, id)]
    ensures now == s.(uploads := now.uploads, phases := now.phases)
  {
    trace, now := [], s;
    trace := OneMore(s, trace, now, Record(0)); now := Step(now, Record(0));
    assert now.phases == map[0 := Signing(id, true)];
    trace := OneMore(s, trace, now, Sign(0, ok)); now := Step(now, Sign(0, ok));
  }

  /** What was created is aborted and forgotten, and the stream ends. */
  lemma GiveUpRun(s: State, job: Job, id: string) returns (trace: seq<Event>, now: State)
    requires Inside(s, job, Failing(id, true)) && s.uploads.Keys == {job.group}
    ensures now == Execute(s, trace) && Quiet(now, job)
    ensures now.returned == s.returned && now.aborted == s.aborted + {Handle(job.group, id)}
    ensures now.identified == s.identified && now.taken == s.taken
  {
    trace, now := [], s;
    trace := OneMore(s, trace, now, Decide(0)); now := Step(now, Decide(0));
    assert now.phases == map[0 := Aborting(id)];
    trace := OneMore(s, trace, now, AbortReturns(0)); now := Step(now, AbortReturns(0));
    assert now.phases == map[0 := Aborted(id)];
    trace := OneMore(s, trace, now, Delete(0)); now := Step(now, Delete(0));
    assert now.phases == map[0 := Idle] && now.uploads == map[];
    trace := OneMore(s, trace, now, EndStream); now := Step(now, EndStream);
  }

  /** The callback, if there is one, is told and the manifest taken. */
  lemma PublishRun(s: State, job: Job, id: string, created: bool, callback: bool) returns (trace: seq<Event>, now: State)
    requires Inside(s, job, Publishing(id, created))
    ensures now == Execute(s, trace) && Inside(now, job, Idle)
    ensures now.identified == s.identified + (if callback then {Handle(job.group, id)} else {}) && now.taken == s.taken + {Handle(job.group, id)}
    ensures now.published == s.published + {Handle(job.group, id)} && now.aborted == s.aborted && now.uploads == s.uploads
  {
    trace, now := [], s;
    trace := OneMore(s, trace, now, Identify(0, true, callback)); now := Step(now, Identify(0, true, callback));
    assert now.phases == map[0 := Manifesting(id, created)];
    trace := OneMore(s, trace, now, Publish(0, true, true)); now := Step(now, Publish(0, true, true));
  }

  // ----- an abort that is not heard of -----

  lemma LoseAbortRun(s: State, job: Job, id: string) returns (trace: seq<Event>, now: State)
    requires Inside(s, job, Failing(id, true))
    ensures now == Execute(s, trace) && Inside(now, job, Idle) && now.uploads == s.uploads && Handle(job.group, id) in now.aborted
  {
    trace, now := [], s;
    trace := OneMore(s, trace, now, Decide(0)); now := Step(now, Decide(0));
    assert now.phases == map[0 := Aborting(id)];
    trace := OneMore(s, trace, now, AbortFails(0, true)); now := Step(now, AbortFails(0, true));
  }

  lemma ReplayRun(s: State, job: Job, id: string) returns (trace: seq<Event>, now: State)
    requires Inside(s, job, Idle) && s.uploads == map[job.group := UploadFor(job, id)]
    ensures now == Execute(s, trace) && Inside(now, job, Publishing(id, false)) && now.aborted == s.aborted && now.uploads == s.uploads
  {
    FirstJobsMeaning(1);
    trace, now := [], s;
    trace := OneMore(s, trace, now, EndStream); now := Step(now, EndStream);
    trace := OneMore(s, trace, now, BeginStream); now := Step(now, BeginStream);
    assert now.queued == {0};
    trace := OneMore(s, trace, now, Take(0, false)); now := Step(now, Take(0, false));
    assert now.phases == map[0 := Starting] && now.queued == {};
    trace := OneMore(s, trace, now, Lookup(0)); now := Step(now, Lookup(0));
    assert now.phases == map[0 := Signing(id, false)];
    trace := OneMore(s, trace, now, Sign(0, true)); now := Step(now, Sign(0, true));
  }

  /** A replay does publish the upload that the first stream's unheard abort removed. */
  lemma LostAbortIsReused(job: Job, id: string) returns (trace: seq<Event>)
    requires id != ""
    ensures var s := Execute(Init([job], map[]), trace);
            !s.disposed && Registered(s, Handle(job.group, id)) && Handle(job.group, id) in s.published && Handle(job.group, id) in s.aborted
  {
    var s0 := Init([job], map[]);
    var t1, s1 := CreateRun(s0, job, id);
    var t2, s2 := SignRun(s1, job, id, false);
    var t3, s3 := LoseAbortRun(s2, job, id);
    var t4, s4 := ReplayRun(s3, job, id);
    var t5, s5 := PublishRun(s4, job, id, false, true);
    ExecutePlus(s0, t1, t2);
    ExecutePlus(s0, t1 + t2, t3);
    ExecutePlus(s0, t1 + t2 + t3, t4);
    ExecutePlus(s0, t1 + t2 + t3 + t4, t5);
    trace := t1 + t2 + t3 + t4 + t5;
  }

  // ----- resume -----

  /** Every worker of a resumed transfer is about a restored upload, which it did not create. */
  ghost predicate Reuses(plan: seq<Job>, restored: map<string, Upload>, phase: Phase, job: nat) {
    !Owns(phase) && (HasId(phase) ==> job < |plan| && plan[job].group in restored && phase.uploadId == restored[plan[job].group].uploadId)
  }

  ghost predicate IsRestored(restored: map<string, Upload>, h: Handle) {
    h.group in restored && restored[h.group].uploadId == h.uploadId
  }

  ghost predicate Untouched(plan: seq<Job>, restored: map<string, Upload>, s: State) {
    && s.plan == plan && (forall j :: 0 <= j < |plan| ==> plan[j].group in restored)
    && (forall g :: g in restored ==> g in s.uploads && s.uploads[g].uploadId == restored[g].uploadId)
    && (forall j: nat :: Reuses(plan, restored, At(s, j), j))
    && (forall h :: h in s.returned <==> IsRestored(restored, h))
    && s.aborted <= s.cleaned && s.givenUp == {}
    && (forall h :: Shown(s, h) || h in s.published ==> IsRestored(restored, h))
  }

  lemma UntouchedEarly(plan: seq<Job>, restored: map<string, Upload>, s: State, event: Event)
    requires Untouched(plan, restored, s)
    requires event.Take? || event.Lookup? || event.CreateReturns? || event.CreateFails? || event.Record?
    ensures Untouched(plan, restored, Step(s, event))
  {
    forall j: nat ensures Reuses(plan, restored, At(Step(s, event), j), j) {
      assert Reuses(plan, restored, At(s, j), j) && Reuses(plan, restored, At(s, event.job), event.job);
    }
  }

  lemma UntouchedSigning(plan: seq<Job>, restored: map<string, Upload>, s: State, event: Event)
    requires Untouched(plan, restored, s) && (event.Sign? || event.Decide?)
    ensures Untouched(plan, restored, Step(s, event))
  {
    forall j: nat ensures Reuses(plan, restored, At(Step(s, event), j), j) {
      assert Reuses(plan, restored, At(s, j), j) && Reuses(plan, restored, At(s, event.job), event.job);
    }
  }

  lemma UntouchedPublishing(plan: seq<Job>, restored: map<string, Upload>, s: State, event: Event)
    requires Untouched(plan, restored, s) && (event.Identify? || event.Publish?)
    ensures Untouched(plan, restored, Step(s, event))
  {
    forall j: nat ensures Reuses(plan, restored, At(Step(s, event), j), j) {
      assert Reuses(plan, restored, At(s, j), j) && Reuses(plan, restored, At(s, event.job), event.job);
    }
  }

  lemma UntouchedRest(plan: seq<Job>, restored: map<string, Upload>, s: State, event: Event)
    requires Untouched(plan, restored, s)
    requires event.BeginStream? || event.EndStream? || event.AbortReturns? || event.AbortFails? || event.Delete? || event.CleanupAborts? || event.Fence?
    ensures Untouched(plan, restored, Step(s, event))
  {
    forall j: nat ensures At(Step(s, event), j) == At(s, j) {
      if Of(event).Some? { assert Reuses(plan, restored, At(s, event.job), event.job); }
    }
  }

  lemma UntouchedStep(plan: seq<Job>, restored: map<string, Upload>, s: State, event: Event)
    requires Untouched(plan, restored, s) && !event.Dispose?
    ensures Untouched(plan, restored, Step(s, event))
  {
    if event.Take? || event.Lookup? || event.CreateReturns? || event.CreateFails? || event.Record? {
      UntouchedEarly(plan, restored, s, event);
    } else if event.Sign? || event.Decide? {
      UntouchedSigning(plan, restored, s, event);
    } else if event.Identify? || event.Publish? {
      UntouchedPublishing(plan, restored, s, event);
    } else {
      UntouchedRest(plan, restored, s, event);
    }
  }

  lemma {:induction false} UntouchedRun(plan: seq<Job>, restored: map<string, Upload>, s: State, trace: seq<Event>)
    requires Untouched(plan, restored, s)
    requires forall k :: 0 <= k < |trace| ==> !trace[k].Dispose?
    ensures Untouched(plan, restored, Execute(s, trace))
    decreases |trace|
  {
    if trace != [] {
      UntouchedStep(plan, restored, s, trace[0]);
      UntouchedRun(plan, restored, Step(s, trace[0]), trace[1..]);
    }
  }

  /**
   When the group of every job was restored, every stream and replay before disposal reuses the restored ids, whoever
   shares a group: nothing is created, no setup aborts anything, and only restored ids are signed, shown and published.
   */
  lemma ResumeCreatesNothing(plan: seq<Job>, restored: map<string, Upload>, trace: seq<Event>)
    requires forall j :: 0 <= j < |plan| ==> plan[j].group in restored
    requires forall k :: 0 <= k < |trace| ==> !trace[k].Dispose?
    ensures Untouched(plan, restored, Execute(Init(plan, restored), trace))
    ensures Execute(Init(plan, restored), trace).returned == Init(plan, restored).returned
  {
    var s0 := Init(plan, restored);
    UntouchedRun(plan, restored, s0, trace);
    assert forall h :: h in s0.returned <==> IsRestored(restored, h);
  }
}
