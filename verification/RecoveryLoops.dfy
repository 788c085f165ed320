/** What a recovery loop did before it ends, over every run, and where each answer takes it. */
module RecoveryLoops {
  import opened Basics
  import opened RecoveryLeases

  // ----- nothing finishes that was not recovered -----

  ghost predicate TakesStep(trace: seq<Event>, i: nat, run: RunId, step: LoopStep) {
    i < |trace| && trace[i] == Loop(run, step)
  }

  /** The loop checked that it is current, and read this epoch. */
  ghost predicate ReadAt(s: State, trace: seq<Event>, i: nat, run: RunId, epoch: Epoch) {
    && TakesStep(trace, i, run, Top)
    && var now := Execute(s, trace[..i]);
    && RunCurrent(now, run) && RequestedEpoch(now.requested, run.lease.tid) == epoch
  }

  /** Beam answered the resume of an iteration that read the epoch. */
  ghost predicate ResumeAnswered(s: State, trace: seq<Event>, i: nat, run: RunId, epoch: Epoch, outcome: Outcome) {
    TakesStep(trace, i, run, Reply(outcome)) && exists h: nat :: h < i && ReadAt(s, trace, h, run, epoch)
  }

  /** Beam asked for a replay, and after that the loop found itself current again. */
  ghost predicate ReplayStarted(s: State, trace: seq<Event>, i: nat, run: RunId, epoch: Epoch) {
    && TakesStep(trace, i, run, Recheck) && RunCurrent(Execute(s, trace[..i]), run)
    && exists h: nat :: h < i && ResumeAnswered(s, trace, h, run, epoch, ReplayRequired)
  }

  ghost predicate ReplayDone(s: State, trace: seq<Event>, i: nat, run: RunId, epoch: Epoch) {
    TakesStep(trace, i, run, ReplayReturned(Recovered)) && exists h: nat :: h < i && ReplayStarted(s, trace, h, run, epoch)
  }

  /** Beam said that nothing has to be done, or asked for a replay, which was made while current and succeeded. */
  ghost predicate RecoveredTo(s: State, trace: seq<Event>, run: RunId, epoch: Epoch) {
    (exists i: nat :: ResumeAnswered(s, trace, i, run, epoch, Recovered)) || (exists i: nat :: ReplayDone(s, trace, i, run, epoch))
  }

  /** What brought the loop to where it stands. */
  ghost predicate Explained(s: State, trace: seq<Event>, run: RunId, pc: Pc) {
    match pc
    case Requesting(epoch) => exists i: nat :: ReadAt(s, trace, i, run, epoch)
    case Rechecking(epoch) => exists i: nat :: ResumeAnswered(s, trace, i, run, epoch, ReplayRequired)
    case Replaying(epoch) => exists i: nat :: ReplayStarted(s, trace, i, run, epoch)
    case Finishing(epoch) => RecoveredTo(s, trace, run, epoch)
    case _ => true
  }

  lemma LongerPrefix(s: State, trace: seq<Event>, last: Event, i: nat)
    requires i <= |trace|
    ensures (trace + [last])[..i] == trace[..i]
  {
  }

  lemma ReadLater(s: State, trace: seq<Event>, last: Event, i: nat, run: RunId, epoch: Epoch)
    requires ReadAt(s, trace, i, run, epoch)
    ensures ReadAt(s, trace + [last], i, run, epoch)
  {
    LongerPrefix(s, trace, last, i);
  }

  lemma AnsweredLater(s: State, trace: seq<Event>, last: Event, i: nat, run: RunId, epoch: Epoch, outcome: Outcome)
    requires ResumeAnswered(s, trace, i, run, epoch, outcome)
    ensures ResumeAnswered(s, trace + [last], i, run, epoch, outcome)
  {
    var h: nat :| h < i && ReadAt(s, trace, h, run, epoch);
    ReadLater(s, trace, last, h, run, epoch);
  }

  lemma StartedLater(s: State, trace: seq<Event>, last: Event, i: nat, run: RunId, epoch: Epoch)
    requires ReplayStarted(s, trace, i, run, epoch)
    ensures ReplayStarted(s, trace + [last], i, run, epoch)
  {
    var h: nat :| h < i && ResumeAnswered(s, trace, h, run, epoch, ReplayRequired);
    AnsweredLater(s, trace, last, h, run, epoch, ReplayRequired);
    LongerPrefix(s, trace, last, i);
  }

  lemma DoneLater(s: State, trace: seq<Event>, last: Event, i: nat, run: RunId, epoch: Epoch)
    requires ReplayDone(s, trace, i, run, epoch)
    ensures ReplayDone(s, trace + [last], i, run, epoch)
  {
    var h: nat :| h < i && ReplayStarted(s, trace, h, run, epoch);
    StartedLater(s, trace, last, h, run, epoch);
  }

  lemma RecoveredLater(s: State, trace: seq<Event>, last: Event, run: RunId, epoch: Epoch)
    requires RecoveredTo(s, trace, run, epoch)
    ensures RecoveredTo(s, trace + [last], run, epoch)
  {
    if i: nat :| ResumeAnswered(s, trace, i, run, epoch, Recovered) {
      AnsweredLater(s, trace, last, i, run, epoch, Recovered);
    } else {
      var i: nat :| ReplayDone(s, trace, i, run, epoch);
      DoneLater(s, trace, last, i, run, epoch);
    }
  }

  lemma ExplainedLater(s: State, trace: seq<Event>, last: Event, run: RunId, pc: Pc)
    requires Explained(s, trace, run, pc)
    ensures Explained(s, trace + [last], run, pc)
  {
    match pc
    case Requesting(epoch) =>
      var i: nat :| ReadAt(s, trace, i, run, epoch);
      ReadLater(s, trace, last, i, run, epoch);
    case Rechecking(epoch) =>
      var i: nat :| ResumeAnswered(s, trace, i, run, epoch, ReplayRequired);
      AnsweredLater(s, trace, last, i, run, epoch, ReplayRequired);
    case Replaying(epoch) =>
      var i: nat :| ReplayStarted(s, trace, i, run, epoch);
      StartedLater(s, trace, last, i, run, epoch);
    case Finishing(epoch) => RecoveredLater(s, trace, last, run, epoch);
    case _ =>
  }

  /** The loop stands where it stood; a new one is about to begin. */
  ghost predicate StandsStill(s: State, s': State, run: RunId) {
    if run in s.runs then run in s'.runs && s'.runs[run].pc == s.runs[run].pc else run in s'.runs ==> s'.runs[run].pc.AtTop?
  }

  lemma LeaseEventLeavesPc(s: State, event: Event, run: RunId)
    requires (run in s.runs ==> run.gen < s.gen) && (event.Register? || event.ReleaseAny? || event.ReleaseOwned?)
    ensures StandsStill(s, Step(s, event), run)
  {
  }

  lemma ContinueLeavesPc(s: State, lease: Lease, minted: Epoch, run: RunId)
    requires run in s.runs ==> run.gen < s.gen
    ensures StandsStill(s, DoContinue(s, lease, minted), run)
  {
  }

  lemma OtherLoopLeavesPc(s: State, other: RunId, step: LoopStep, run: RunId)
    requires other != run
    ensures StandsStill(s, DoLoop(s, other, step), run)
  {
    if step.LoopRelease? && other in s.runs { assert StandsStill(s, Release(s, other.lease.tid, Some(other.lease)), run); }
  }

  /** Only the loop's own steps take it forward. */
  lemma OthersLeavePc(s: State, event: Event, run: RunId)
    requires (run in s.runs ==> run.gen < s.gen) && !(event.Loop? && event.run == run)
    ensures StandsStill(s, Step(s, event), run)
  {
    match event
    case Observe(shard, epoch, order) =>
      if Lists(order, OnShard(s, shard)) { StartEachLeavesPc(s.(epochs := s.epochs[shard := epoch]), order, epoch, run); }
    case Register(_) | ReleaseAny(_) | ReleaseOwned(_) => LeaseEventLeavesPc(s, event, run);
    case Continue(lease, minted) => ContinueLeavesPc(s, lease, minted, run);
    case Loop(other, step) => OtherLoopLeavesPc(s, other, step, run);
    case CloseCancel | CloseClear | RunDispose(_) | Fence(_) =>
  }

  lemma {:induction false} StartEachLeavesPc(s: State, order: seq<string>, epoch: Epoch, run: RunId)
    requires (run in s.runs ==> run.gen < s.gen) && forall t :: t in order ==> t in s.leases
    ensures StandsStill(s, StartEach(s, order, epoch), run)
    decreases |order|
  {
    if order != [] {
      var s1 := RequestAndStart(s, s.leases[order[0]], epoch);
      if run in s.runs { StartEachLeavesPc(s1, order[1..], epoch, run); } else { StartEachKeepsTop(s1, order[1..], epoch, run); }
    }
  }

  lemma {:induction false} StartEachKeepsTop(s: State, order: seq<string>, epoch: Epoch, run: RunId)
    requires (run in s.runs ==> s.runs[run].pc.AtTop?) && forall t :: t in order ==> t in s.leases
    ensures var s' := StartEach(s, order, epoch); run in s'.runs ==> s'.runs[run].pc.AtTop?
    decreases |order|
  {
    if order != [] { StartEachKeepsTop(RequestAndStart(s, s.leases[order[0]], epoch), order[1..], epoch, run); }
  }

  /** How a loop comes to a call, to the check before a replay, and to the end of an iteration. */
  ghost predicate Advances(s: State, run: RunId, step: LoopStep, pc: Pc, pc': Pc) {
    match pc'
    case Requesting(epoch) => step.Top? && RunCurrent(s, run) && RequestedEpoch(s.requested, run.lease.tid) == epoch
    case Rechecking(epoch) => step == Reply(ReplayRequired) && pc == Requesting(epoch)
    case Replaying(epoch) => step.Recheck? && RunCurrent(s, run) && pc == Rechecking(epoch)
    case Finishing(epoch) => (step == Reply(Recovered) && pc == Requesting(epoch)) || (step == ReplayReturned(Recovered) && pc == Replaying(epoch))
    case _ => true
  }

  lemma NextPcAdvances(s: State, run: RunId, pc: Pc, step: LoopStep)
    ensures NextPc(s, run, pc, step) == pc || Advances(s, run, step, pc, NextPc(s, run, pc, step))
  {
  }

  lemma LoopAdvances(s: State, run: RunId, step: LoopStep)
    requires run in s.runs
    ensures var s' := DoLoop(s, run, step);
            run in s'.runs && (s'.runs[run].pc == s.runs[run].pc || Advances(s, run, step, s.runs[run].pc, s'.runs[run].pc))
  {
    NextPcAdvances(s, run, s.runs[run].pc, step);
  }

  lemma OwnStepExplained(s: State, trace: seq<Event>, run: RunId, step: LoopStep, pc: Pc, pc': Pc)
    requires Explained(s, trace, run, pc) && (pc' == pc || Advances(Execute(s, trace), run, step, pc, pc'))
    ensures Explained(s, trace + [Loop(run, step)], run, pc')
  {
    var last, more := Loop(run, step), trace + [Loop(run, step)];
    assert more[|trace|] == last && more[..|trace|] == trace;
    if pc' == pc {
      ExplainedLater(s, trace, last, run, pc);
    } else {
      match pc'
      case Requesting(epoch) => assert ReadAt(s, more, |trace|, run, epoch);
      case Rechecking(epoch) => AnsweredNow(s, trace, run, epoch, ReplayRequired);
      case Replaying(epoch) => StartsNow(s, trace, run, epoch);
      case Finishing(epoch) => if pc.Requesting? { AnsweredNow(s, trace, run, epoch, Recovered); } else { DoneNow(s, trace, run, epoch); }
      case _ =>
    }
  }

  lemma StartsNow(s: State, trace: seq<Event>, run: RunId, epoch: Epoch)
    requires RunCurrent(Execute(s, trace), run) && exists i: nat :: ResumeAnswered(s, trace, i, run, epoch, ReplayRequired)
    ensures ReplayStarted(s, trace + [Loop(run, Recheck)], |trace|, run, epoch)
  {
    var more := trace + [Loop(run, Recheck)];
    assert more[..|trace|] == trace;
    var i: nat :| ResumeAnswered(s, trace, i, run, epoch, ReplayRequired);
    AnsweredLater(s, trace, Loop(run, Recheck), i, run, epoch, ReplayRequired);
  }

  lemma DoneNow(s: State, trace: seq<Event>, run: RunId, epoch: Epoch)
    requires exists i: nat :: ReplayStarted(s, trace, i, run, epoch)
    ensures ReplayDone(s, trace + [Loop(run, ReplayReturned(Recovered))], |trace|, run, epoch)
  {
    var i: nat :| ReplayStarted(s, trace, i, run, epoch);
    StartedLater(s, trace, Loop(run, ReplayReturned(Recovered)), i, run, epoch);
  }

  lemma AnsweredNow(s: State, trace: seq<Event>, run: RunId, epoch: Epoch, outcome: Outcome)
    requires exists i: nat :: ReadAt(s, trace, i, run, epoch)
    ensures ResumeAnswered(s, trace + [Loop(run, Reply(outcome))], |trace|, run, epoch, outcome)
  {
    var i: nat :| ReadAt(s, trace, i, run, epoch);
    ReadLater(s, trace, Loop(run, Reply(outcome)), i, run, epoch);
  }

  /** Every loop stands where the answers it got have taken it. */
  lemma {:induction false} LoopsAreExplained(shardOf: string -> int, trace: seq<Event>, run: RunId)
    requires run in Execute(Init(shardOf), trace).runs
    ensures Explained(Init(shardOf), trace, run, Execute(Init(shardOf), trace).runs[run].pc)
    decreases |trace|
  {
    if trace != [] {
      var s, init, last := Init(shardOf), trace[..|trace| - 1], trace[|trace| - 1];
      assert trace == init + [last];
      ExecuteSnoc(s, init, last);
      var now := Execute(s, init);
      ExecuteInv(s, init);
      if run in now.runs { LoopsAreExplained(shardOf, init, run); }
      if last.Loop? && last.run == run {
        if run in now.runs {
          LoopAdvances(now, run, last.step);
          OwnStepExplained(s, init, run, last.step, now.runs[run].pc, DoLoop(now, run, last.step).runs[run].pc);
        }
      } else {
        OthersLeavePc(now, last, run);
        if run in now.runs { ExplainedLater(s, init, last, run, now.runs[run].pc); }
      }
    }
  }

  /** Some loop of the lease recovered to the epoch. */
  ghost predicate LeaseRecovered(s: State, trace: seq<Event>, lease: Lease, epoch: Epoch) {
    exists run: RunId :: run.lease == lease && RecoveredTo(s, trace, run, epoch)
  }

  lemma {:induction false} FinishedMeansRecovered(shardOf: string -> int, trace: seq<Event>, lease: Lease)
    requires lease in Execute(Init(shardOf), trace).history.lastFinished
    ensures LeaseRecovered(Init(shardOf), trace, lease, Execute(Init(shardOf), trace).history.lastFinished[lease])
    decreases |trace|
  {
    var s := Init(shardOf);
    if trace != [] {
      var init, last := trace[..|trace| - 1], trace[|trace| - 1];
      assert trace == init + [last];
      ExecuteSnoc(s, init, last);
      var now := Execute(s, init);
      var epoch := Step(now, last).history.lastFinished[lease];
      OnlyFinishFinishes(now, last, lease);
      if lease in now.history.lastFinished && now.history.lastFinished[lease] == epoch {
        FinishedMeansRecovered(shardOf, init, lease);
        var run: RunId :| run.lease == lease && RecoveredTo(s, init, run, epoch);
        RecoveredLater(s, init, last, run, epoch);
      } else {
        LoopsAreExplained(shardOf, init, last.run);
        RecoveredLater(s, init, last, last.run, epoch);
      }
    }
  }

  lemma LoopFinishes(s: State, run: RunId, step: LoopStep)
    requires run in s.runs
    ensures var s' := DoLoop(s, run, step);
            || s'.history.lastFinished == s.history.lastFinished
            || (s.runs[run].pc.Finishing? && s'.history.lastFinished == s.history.lastFinished[run.lease := s.runs[run].pc.epoch])
  {
  }

  lemma LeaseEventFinishesNothing(s: State, event: Event)
    requires event.Register? || event.ReleaseAny? || event.ReleaseOwned?
    ensures Step(s, event).history.lastFinished == s.history.lastFinished
  {
  }

  lemma ObserveFinishesNothing(s: State, shard: int, epoch: Epoch, order: seq<string>)
    ensures DoObserve(s, shard, epoch, order).history.lastFinished == s.history.lastFinished
  {
    if Lists(order, OnShard(s, shard)) { StartEachFinishesNothing(s.(epochs := s.epochs[shard := epoch]), order, epoch); }
  }

  lemma OthersFinishNothing(s: State, event: Event)
    requires !event.Loop?
    ensures Step(s, event).history.lastFinished == s.history.lastFinished
  {
    match event
    case Observe(shard, epoch, order) => ObserveFinishesNothing(s, shard, epoch, order);
    case Register(_) | ReleaseAny(_) | ReleaseOwned(_) => LeaseEventFinishesNothing(s, event);
    case Continue(_, _) | CloseCancel | CloseClear | RunDispose(_) | Fence(_) =>
  }

  /** What a step records as finished is the epoch of a loop of the lease that was about to end its iteration. */
  lemma OnlyFinishFinishes(s: State, event: Event, lease: Lease)
    requires lease in Step(s, event).history.lastFinished
    ensures var epoch := Step(s, event).history.lastFinished[lease];
            || (lease in s.history.lastFinished && s.history.lastFinished[lease] == epoch)
            || (event.Loop? && event.run.lease == lease && event.run in s.runs && s.runs[event.run].pc == Finishing(epoch))
  {
    if event.Loop? {
      if event.run in s.runs { LoopFinishes(s, event.run, event.step); }
    } else {
      OthersFinishNothing(s, event);
    }
  }

  lemma {:induction false} StartEachFinishesNothing(s: State, order: seq<string>, epoch: Epoch)
    requires forall t :: t in order ==> t in s.leases
    ensures StartEach(s, order, epoch).history.lastFinished == s.history.lastFinished
    decreases |order|
  {
    if order != [] { StartEachFinishesNothing(RequestAndStart(s, s.leases[order[0]], epoch), order[1..], epoch); }
  }

  /**
   Over every run: before close, a current lease without a live loop was recovered to the epoch last requested for it:
   Beam said so, or asked for a replay that a current loop made and that succeeded.
   */
  lemma RequestsAreRecovered(shardOf: string -> int, trace: seq<Event>, lease: Lease)
    requires var s := Execute(Init(shardOf), trace);
             !s.stopped && IsCurrent(s.leases, lease) && lease in s.history.lastRequested && !HasLiveLoop(s, lease)
    ensures LeaseRecovered(Init(shardOf), trace, lease, Execute(Init(shardOf), trace).history.lastRequested[lease])
  {
    var s := Execute(Init(shardOf), trace);
    assert Reachable(s);
    NoRequestLost(s, lease);
    FinishedMeansRecovered(shardOf, trace, lease);
  }

  // ----- where the other answers take a loop -----

  /** The call in flight came back so. */
  ghost predicate CameBack(pc: Pc, step: LoopStep, outcome: Outcome) {
    (pc.Requesting? && step == Reply(outcome)) || (pc.Replaying? && step == ReplayReturned(outcome))
  }

  /** The loop lets its lease go: Beam called the transfer over, a live loop met an error that no retry helps, or it lost its ownership. */
  ghost predicate LetsGo(s: State, run: RunId, pc: Pc, step: LoopStep) {
    || (pc.Requesting? && step == Reply(Terminal))
    || (CameBack(pc, step, FatalError) && Live(s, run))
    || (pc.NotCurrent? && step.OwnershipCheck? && run.lease in s.fenced)
  }

  /** The loop returns without a word: cancelled during a call or a wait, or no longer current and still owned. */
  ghost predicate Leaves(s: State, run: RunId, pc: Pc, step: LoopStep) {
    || ((CameBack(pc, step, FatalError) || CameBack(pc, step, RetryableError)) && !Live(s, run))
    || (pc.Backoff? && step.TimerCancelled? && !Live(s, run))
    || (pc.NotCurrent? && step.OwnershipCheck? && run.lease !in s.fenced)
  }

  /** Each way a loop stops working, backs off, or goes on without a critical section is taken exactly for its reason. */
  lemma LoopMoves(s: State, run: RunId, pc: Pc, step: LoopStep)
    requires !step.Finish? && !step.LoopRelease? && !step.Deferred?
    ensures var pc' := NextPc(s, run, pc, step);
            && (pc' != pc && pc'.Releasing? <==> LetsGo(s, run, pc, step))
            && (pc' != pc && pc'.Exiting? <==> Leaves(s, run, pc, step))
            && (pc' != pc && pc'.Backoff? <==> CameBack(pc, step, RetryableError) && Live(s, run))
            && (pc' != pc && pc'.NotCurrent? <==> ((pc.AtTop? && step.Top?) || (pc.Rechecking? && step.Recheck?)) && !RunCurrent(s, run))
            && (pc' != pc && pc'.AtTop? <==> pc.Backoff? && step.TimerFired?)
            && (pc.AtTop? && step.Top? && RunCurrent(s, run) ==> pc'.Requesting?)
            && (pc.Rechecking? && step.Recheck? && RunCurrent(s, run) ==> pc'.Replaying?)
            && (CameBack(pc, step, Recovered) ==> pc'.Finishing?)
            && (pc.Requesting? && step == Reply(ReplayRequired) ==> pc'.Rechecking?)
            && (pc.Finishing? || pc.Releasing? || pc.Exiting? || pc.Exited? ==> pc' == pc)
  {
  }

  /** Such a step changes nothing but where its loop stands. */
  lemma LoopStepsAreNextPc(s: State, run: RunId, step: LoopStep)
    requires run in s.runs && !step.Finish? && !step.LoopRelease? && !step.Deferred?
    ensures var s' := Step(s, Loop(run, step));
            && run in s'.runs && s'.runs[run] == s.runs[run].(pc := NextPc(s, run, s.runs[run].pc, step))
            && s'.runs.Keys == s.runs.Keys && (forall other :: other in s.runs && other != run ==> s'.runs[other] == s.runs[other])
            && s' == s.(runs := s'.runs)
  {
  }

  /** An iteration that succeeded ends the loop unless another epoch was requested meanwhile, for which it goes round again. */
  lemma FinishMoves(s: State, run: RunId)
    requires run in s.runs && s.runs[run].pc.Finishing?
    ensures var epoch, s' := s.runs[run].pc.epoch, Step(s, Loop(run, Finish));
            var again := IsRegistered(s.running, run) && RequestedEpoch(s.requested, run.lease.tid) != epoch;
            && run in s'.runs && s'.runs[run] == s.runs[run].(pc := if again then AtTop else Exiting)
            && (again ==> s'.running == s.running)
            && (!again ==> !IsRegistered(s'.running, run))
            && (forall other :: other != run ==> (IsRegistered(s'.running, other) <==> IsRegistered(s.running, other)))
            && s'.leases == s.leases && s'.requested == s.requested && s'.monitors == s.monitors && s'.epochs == s.epochs
  {
  }

  /** Letting go releases the lease when it is still current, and nobody else's; leaving releases nothing. */
  lemma ReleasingReleasesItsOwn(s: State, run: RunId)
    requires run in s.runs && s.runs[run].pc.Releasing?
    ensures var s' := Step(s, Loop(run, LoopRelease));
            && !IsCurrent(s'.leases, run.lease)
            && (forall l :: l != run.lease ==> (IsCurrent(s'.leases, l) <==> IsCurrent(s.leases, l)))
            && (IsCurrent(s.leases, run.lease) ==> s'.history.disposing == s.history.disposing + {run.lease})
            && (!IsCurrent(s.leases, run.lease) ==> s'.leases == s.leases && s'.running == s.running && s'.requested == s.requested)
  {
  }

  /** A loop that ends cancels itself, and unregisters itself when nobody replaced it. */
  lemma DeferredUnregisters(s: State, run: RunId)
    requires run in s.runs && s.runs[run].pc.Exiting?
    ensures var s' := Step(s, Loop(run, Deferred));
            && !IsRegistered(s'.running, run) && run in s'.runs && s'.runs[run].cancelled
            && (forall other :: other != run ==> (IsRegistered(s'.running, other) <==> IsRegistered(s.running, other)))
            && s'.leases == s.leases && s'.requested == s.requested
  {
  }
}
