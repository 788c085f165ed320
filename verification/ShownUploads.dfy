/** With how many upload ids a group is shown to the callback and to BeamCore. */
module ShownUploads {
  import opened Basics
  import opened Uploads
  import opened UploadTheorems

  datatype Audience = Callback | BeamCore | Anyone

  /** The audience was told that this upload is the group's. */
  ghost predicate Told(s: State, to: Audience, h: Handle) {
    (to != BeamCore && h in s.identified) || (to != Callback && h in s.taken)
  }

  /** The event tells the audience the id of its worker's upload, whatever the worker then hears. */
  ghost predicate Tells(s: State, event: Event, to: Audience) {
    match event
    case Identify(j, _, tookEffect) => j < |s.plan| && At(s, j).Publishing? && !s.fenced && tookEffect && to != BeamCore
    case Publish(j, ok, tookEffect) => j < |s.plan| && At(s, j).Manifesting? && (ok || tookEffect) && to != Callback
    case _ => false
  }

  lemma ToldAfter(s: State, event: Event, to: Audience, h: Handle)
    ensures Told(Step(s, event), to, h) <==> Told(s, to, h) || (Tells(s, event, to) && h == Mine(s, event.job))
  {
  }

  // ----- exactly when a group is shown with two ids -----

  ghost predicate TwoIds(s: State, to: Audience, group: string) {
    exists x, y :: x != y && Told(s, to, Handle(group, x)) && Told(s, to, Handle(group, y))
  }

  /** An id the audience was told of the group was given up. */
  ghost predicate Withdrawn(s: State, to: Audience, group: string) {
    exists x :: Told(s, to, Handle(group, x)) && Handle(group, x) in s.givenUp
  }

  /** The audience is told an id of the group again after one was given up. */
  ghost predicate TellsAgain(s: State, event: Event, to: Audience, group: string) {
    Tells(s, event, to) && s.plan[event.job].group == group && Withdrawn(s, to, group)
  }

  lemma TwoIdsAfter(s: State, event: Event, to: Audience, group: string)
    requires Inv(s) && !s.disposed
    ensures TwoIds(Step(s, event), to, group) <==> TwoIds(s, to, group) || TellsAgain(s, event, to, group)
  {
    var s' := Step(s, event);
    forall x ensures Told(s', to, Handle(group, x)) <==>
                     Told(s, to, Handle(group, x)) || (Tells(s, event, to) && Handle(group, x) == Mine(s, event.job)) {
      ToldAfter(s, event, to, Handle(group, x));
    }
    if Tells(s, event, to) && s.plan[event.job].group == group {
      assert JobInv(s, event.job);
      var mine := Mine(s, event.job).uploadId;
      assert Registered(s, Handle(group, mine)) && Told(s', to, Handle(group, mine));
      assert forall x :: Told(s, to, Handle(group, x)) ==> Shown(s, Handle(group, x));
      if Withdrawn(s, to, group) {
        var x :| Told(s, to, Handle(group, x)) && Handle(group, x) in s.givenUp;
        assert x != mine && Told(s', to, Handle(group, x));
      }
      if x, y :| x != y && Told(s', to, Handle(group, x)) && Told(s', to, Handle(group, y)) {
        var other := if x == mine then y else x;
        assert Told(s, to, Handle(group, other)) && !Registered(s, Handle(group, other));
        assert Handle(group, other) in s.givenUp;
      }
    }
  }

  /** Over a run: at some point an id the audience was told had been given up, and the next event told it one again. */
  ghost predicate ToldAgain(s: State, trace: seq<Event>, to: Audience, group: string) {
    exists n :: 0 <= n < |trace| && TellsAgain(Execute(s, trace[..n]), trace[n], to, group)
  }

  lemma ToldAgainLast(s: State, init: seq<Event>, last: Event, to: Audience, group: string)
    ensures ToldAgain(s, init + [last], to, group) <==> ToldAgain(s, init, to, group) || TellsAgain(Execute(s, init), last, to, group)
  {
    var trace := init + [last];
    assert trace[..|init|] == init;
    assert forall n :: 0 <= n < |init| ==> init[..n] == trace[..n] && init[n] == trace[n];
    if ToldAgain(s, init, to, group) {
      var n :| 0 <= n < |init| && TellsAgain(Execute(s, init[..n]), init[n], to, group);
      assert TellsAgain(Execute(s, trace[..n]), trace[n], to, group);
    }
    if TellsAgain(Execute(s, init), last, to, group) {
      assert TellsAgain(Execute(s, trace[..|init|]), trace[|init|], to, group);
    }
  }

  lemma {:induction false} TwoIdsRun(s: State, trace: seq<Event>, to: Audience, group: string)
    requires Inv(s) && !s.disposed && forall n :: 0 <= n < |trace| ==> !trace[n].Dispose?
    ensures TwoIds(Execute(s, trace), to, group) <==> TwoIds(s, to, group) || ToldAgain(s, trace, to, group)
    decreases |trace|
  {
    if trace != [] {
      var init, last := trace[..|trace| - 1], trace[|trace| - 1];
      TwoIdsRun(s, init, to, group);
      ExecuteInv(s, init);
      NeverDisposed(s, init);
      var now := Execute(s, init);
      TwoIdsAfter(now, last, to, group);
      ToldAgainLast(s, init, last, to, group);
      assert trace == init + [last];
      ExecutePlus(s, init, [last]);
      assert Execute(now, [last]) == Step(now, last);
    }
  }

  /**
   Over every run the callback, BeamCore, or the two together hear of two upload ids of a group exactly when they were
   told an id, the setup that created that upload gave it up, and they were told an id again.
   */
  lemma TwoIdsIffToldAgain(plan: seq<Job>, restored: map<string, Upload>, trace: seq<Event>, to: Audience, group: string)
    requires OwnGroups(plan) && RestoredFrom(plan, restored)
    requires forall n :: 0 <= n < |trace| ==> !trace[n].Dispose?
    ensures TwoIds(Execute(Init(plan, restored), trace), to, group) <==> ToldAgain(Init(plan, restored), trace, to, group)
  {
    InitInv(plan, restored);
    TwoIdsRun(Init(plan, restored), trace, to, group);
  }

  // ----- which failures give up what was told -----

  /** A setup that created its upload fails after the audience was told the upload's id. */
  ghost predicate FailsAfterTelling(s: State, event: Event, to: Audience) {
    match event
    case Identify(j, ok, tookEffect) =>
      j < |s.plan| && At(s, j).Publishing? && At(s, j).created && !s.fenced && !ok && tookEffect && to != BeamCore
    case Publish(j, ok, tookEffect) =>
      && j < |s.plan| && At(s, j).Manifesting? && At(s, j).created && !ok
      && ((tookEffect && to != Callback) || (Mine(s, j) in s.identified && to != BeamCore))
    case _ => false
  }

  /** Nothing told was given up, or can be by the setup that runs now. */
  ghost predicate NoRegret(s: State, to: Audience, job: nat)
    requires job < |s.plan|
  {
    forall id :: Told(s, to, Handle(s.plan[job].group, id)) ==>
      var h := Handle(s.plan[job].group, id);
      && Registered(s, h) && h !in s.givenUp
      && (Owns(At(s, job)) ==> At(s, job).Manifesting? && to != BeamCore && h in s.identified)
  }

  lemma ToldBefore(s: State, event: Event, to: Audience, job: nat)
    requires job < |s.plan| && !event.Identify? && !event.Publish?
    ensures forall id :: Told(Step(s, event), to, Handle(s.plan[job].group, id)) <==> Told(s, to, Handle(s.plan[job].group, id))
  {
    forall id ensures Told(Step(s, event), to, Handle(s.plan[job].group, id)) <==> Told(s, to, Handle(s.plan[job].group, id)) {
      ToldAfter(s, event, to, Handle(s.plan[job].group, id));
    }
  }

  lemma NoRegretEarly(s: State, event: Event, to: Audience, job: nat)
    requires job < |s.plan| && JobInv(s, job) && NoRegret(s, to, job) && Of(event) == Some(job)
    requires event.Take? || event.Lookup?
    ensures NoRegret(Step(s, event), to, job)
  {
    ToldBefore(s, event, to, job);
    SameButPhase(s, Step(s, event), job);
  }

  lemma NoRegretCreating(s: State, event: Event, to: Audience, job: nat)
    requires job < |s.plan| && JobInv(s, job) && NoRegret(s, to, job) && Of(event) == Some(job)
    requires event.CreateReturns? || event.CreateFails? || event.Record?
    ensures NoRegret(Step(s, event), to, job)
  {
    ToldBefore(s, event, to, job);
  }

  lemma NoRegretLate(s: State, event: Event, to: Audience, job: nat)
    requires job < |s.plan| && JobInv(s, job) && NoRegret(s, to, job) && Of(event) == Some(job)
    requires event.Sign? || event.Decide?
    ensures NoRegret(Step(s, event), to, job)
  {
    ToldBefore(s, event, to, job);
    SignKeepsGroup(s, event, job);
    SameButPhase(s, Step(s, event), job);
  }

  lemma NoRegretAborting(s: State, event: Event, to: Audience, job: nat)
    requires job < |s.plan| && JobInv(s, job) && NoRegret(s, to, job) && Of(event) == Some(job)
    requires event.AbortReturns? || event.AbortFails? || event.Delete?
    ensures NoRegret(Step(s, event), to, job)
  {
    ToldBefore(s, event, to, job);
  }

  lemma NoRegretShowing(s: State, event: Event, to: Audience, job: nat)
    requires job < |s.plan| && JobInv(s, job) && NoRegret(s, to, job) && Of(event) == Some(job)
    requires (event.Identify? || event.Publish?) && !FailsAfterTelling(s, event, to)
    ensures NoRegret(Step(s, event), to, job)
  {
    var s', g := Step(s, event), s.plan[job].group;
    if s' != s {
      assert Registered(s, Mine(s, job));
      forall id ensures Told(s', to, Handle(g, id)) <==> Told(s, to, Handle(g, id)) || (Tells(s, event, to) && Handle(g, id) == Mine(s, job)) {
        ToldAfter(s, event, to, Handle(g, id));
      }
      assert forall id :: Registered(s', Handle(g, id)) <==> Registered(s, Handle(g, id));
    }
  }

  lemma NoRegretStep(s: State, event: Event, to: Audience, job: nat)
    requires OwnGroups(s.plan) && job < |s.plan| && JobInv(s, job) && NoRegret(s, to, job) && !event.Dispose? && !FailsAfterTelling(s, event, to)
    ensures Step(s, event).plan == s.plan && NoRegret(Step(s, event), to, job)
  {
    StepKeepsPlan(s, event);
    if Of(event) == Some(job) {
      if event.Identify? || event.Publish? {
        NoRegretShowing(s, event, to, job);
      } else if event.Take? || event.Lookup? {
        NoRegretEarly(s, event, to, job);
      } else if event.CreateReturns? || event.CreateFails? || event.Record? {
        NoRegretCreating(s, event, to, job);
      } else if event.Sign? || event.Decide? {
        NoRegretLate(s, event, to, job);
      } else {
        NoRegretAborting(s, event, to, job);
      }
    } else if !event.CleanupAborts? {
      StepIsLocal(s, event, job);
      SameButPhase(s, Step(s, event), job);
    }
  }

  ghost predicate NeverFailsAfterTelling(s: State, trace: seq<Event>, to: Audience) {
    forall n :: 0 <= n < |trace| ==> !FailsAfterTelling(Execute(s, trace[..n]), trace[n], to)
  }

  lemma {:induction false} NoRegretRun(s: State, trace: seq<Event>, to: Audience, job: nat)
    requires Inv(s) && !s.disposed && job < |s.plan| && NoRegret(s, to, job)
    requires NeverFailsAfterTelling(s, trace, to) && forall n :: 0 <= n < |trace| ==> !trace[n].Dispose?
    ensures Execute(s, trace).plan == s.plan && NoRegret(Execute(s, trace), to, job)
    decreases |trace|
  {
    if trace != [] {
      var init, last := trace[..|trace| - 1], trace[|trace| - 1];
      assert forall n :: 0 <= n < |init| ==> init[..n] == trace[..n];
      NoRegretRun(s, init, to, job);
      ExecuteInv(s, init);
      NeverDisposed(s, init);
      assert JobInv(Execute(s, init), job);
      assert !FailsAfterTelling(Execute(s, trace[..|init|]), trace[|init|], to);
      NoRegretStep(Execute(s, init), last, to, job);
      assert trace == init + [last];
      ExecutePlus(s, init, [last]);
    }
  }

  /** While no setup that created its upload fails after telling, an audience hears of one id a group, which stays registered. */
  lemma OneIdIsShown(plan: seq<Job>, restored: map<string, Upload>, trace: seq<Event>, to: Audience, h: Handle, k: Handle)
    requires OwnGroups(plan) && RestoredFrom(plan, restored)
    requires NeverFailsAfterTelling(Init(plan, restored), trace, to)
    requires forall n :: 0 <= n < |trace| ==> !trace[n].Dispose?
    requires Told(Execute(Init(plan, restored), trace), to, h)
    ensures var s := Execute(Init(plan, restored), trace);
            && Registered(s, h) && h !in s.givenUp && (Told(s, to, k) && k.group == h.group ==> k == h)
  {
    var s0 := Init(plan, restored);
    InitInv(plan, restored);
    ExecuteInv(s0, trace);
    NeverDisposed(s0, trace);
    var s := Execute(s0, trace);
    assert Shown(s, h);
    var job := JobOf(s, h.group);
    NoRegretRun(s0, trace, to, job);
    assert h == Handle(h.group, h.uploadId) && k == Handle(k.group, k.uploadId);
  }

  /** BeamCore takes one id a group while no manifest request takes effect and is reported as failed. */
  lemma OneIdIsTaken(plan: seq<Job>, restored: map<string, Upload>, trace: seq<Event>, h: Handle, k: Handle)
    requires OwnGroups(plan) && RestoredFrom(plan, restored)
    requires forall n :: 0 <= n < |trace| ==> !trace[n].Dispose? && !(trace[n].Publish? && !trace[n].ok && trace[n].tookEffect)
    requires var s := Execute(Init(plan, restored), trace); h in s.taken && k in s.taken && k.group == h.group
    ensures k == h && Registered(Execute(Init(plan, restored), trace), h)
  {
    assert NeverFailsAfterTelling(Init(plan, restored), trace, BeamCore);
    OneIdIsShown(plan, restored, trace, BeamCore, h, k);
  }

  // ----- each of those failures does lead to two ids -----

  /** How a first setup fails: at the callback once it was told, or at the manifest, with or without a callback. */
  datatype LateFailure = AtCallback | AtManifest(callback: bool, tookEffect: bool)

  predicate Hears(late: LateFailure, to: Audience) {
    match late
    case AtCallback => to != BeamCore
    case AtManifest(callback, tookEffect) => (callback && to != BeamCore) || (tookEffect && to != Callback)
  }

  lemma LateFailureRun(s: State, job: Job, id: string, late: LateFailure) returns (trace: seq<Event>, now: State)
    requires Inside(s, job, Publishing(id, true))
    ensures now == Execute(s, trace) && Inside(now, job, Failing(id, true))
    ensures forall to :: Hears(late, to) ==> Told(now, to, Handle(job.group, id))
    ensures now == s.(phases := now.phases, identified := now.identified, taken := now.taken)
  {
    trace, now := [], s;
    match late
    case AtCallback =>
      trace := OneMore(s, trace, now, Identify(0, false, true)); now := Step(now, Identify(0, false, true));
    case AtManifest(callback, tookEffect) =>
      trace := OneMore(s, trace, now, Identify(0, true, callback)); now := Step(now, Identify(0, true, callback));
      assert now.phases == map[0 := Manifesting(id, true)];
      trace := OneMore(s, trace, now, Publish(0, false, tookEffect)); now := Step(now, Publish(0, false, tookEffect));
  }

  /**
   And each such failure has a run in which everyone who was told the first stream's upload hears of a second: the one a
   replay creates and publishes after the first was given up.
   */
  lemma LateFailureShowsTwoIds(job: Job, late: LateFailure, x: string, y: string) returns (trace: seq<Event>)
    requires x != "" && y != "" && x != y
    ensures var s := Execute(Init([job], map[]), trace);
            && !s.disposed && Handle(job.group, y) in s.published
            && forall to :: Hears(late, to) ==> Told(s, to, Handle(job.group, x)) && Told(s, to, Handle(job.group, y))
  {
    var s0 := Init([job], map[]);
    var t1, s1 := CreateRun(s0, job, x);
    var t2, s2 := SignRun(s1, job, x, true);
    var t3, s3 := LateFailureRun(s2, job, x, late);
    var t4, s4 := GiveUpRun(s3, job, x);
    ExecutePlus(s0, t1, t2);
    ExecutePlus(s0, t1 + t2, t3);
    ExecutePlus(s0, t1 + t2 + t3, t4);
    var first := t1 + t2 + t3 + t4;
    var t5, s5 := CreateRun(s4, job, y);
    var t6, s6 := SignRun(s5, job, y, true);
    var t7, s7 := PublishRun(s6, job, y, true, late.AtCallback? || late.callback);
    ExecutePlus(s0, first, t5);
    ExecutePlus(s0, first + t5, t6);
    ExecutePlus(s0, first + t5 + t6, t7);
    trace := first + t5 + t6 + t7;
  }
}
