/**
 Recovery leases, background recovery loops and hello monitors of the Go
 lifecycle control (sdks/go/nats_control.go). Every critical section guarded by
 `recoveryMu`, and every step a loop takes between two of them, is one event.
 The state also carries a history (what was registered, disposed, requested and
 finished) that no event reads.
 */
module RecoveryLeases {
  import opened Basics

  /** `[2]string`: runtime and transport epoch. Compared by value. */
  datatype Epoch = Epoch(runtime: string, transport: string)

  /** A lease object; `id` is its pointer identity. */
  datatype Lease = Lease(id: nat, tid: string)

  /** A recovery loop object: its lease, and the section that created it. */
  datatype RunId = RunId(lease: Lease, gen: nat)

  /** Where a loop stands inside `recoverTransfer`. */
  datatype Pc =
    | AtTop                      // about to call recoveryRunCurrent
    | Requesting(epoch: Epoch)   // transfer.resume in flight
    | Rechecking(epoch: Epoch)   // about to check again before replaying
    | Replaying(epoch: Epoch)    // replayRoutes in flight
    | Finishing(epoch: Epoch)    // err == nil, about to take the lock
    | NotCurrent                 // a check failed, ownership not looked at yet
    | Backoff                    // retry timer
    | Releasing                  // about to call releaseOwnedRecoveryLease
    | Exiting                    // returned, deferred cleanup not run yet
    | Exited

  datatype Run = Run(cancelled: bool, pc: Pc)

  datatype State = State(
    shardOf: string -> int,
    leases: map<string, Lease>,
    running: map<string, RunId>,
    requested: map<string, Epoch>,
    epochs: map<int, Epoch>,
    monitors: set<int>,
    runs: map<RunId, Run>,
    gen: nat,
    stopped: bool,
    fenced: set<Lease>,
    history: History)

  datatype History = History(
    registered: set<Lease>,
    disposing: set<Lease>,            // left the map, dispose not called yet
    disposed: multiset<Lease>,
    lastRequested: map<Lease, Epoch>, // since the lease was registered
    lastFinished: map<Lease, Epoch>)  // read at the start of the last finished iteration

  /** What `transfer.resume` or `replayRoutes` returned. */
  datatype Outcome = Terminal | ReplayRequired | Recovered | RetryableError | FatalError

  datatype Event =
    | Register(lease: Lease)
    | ReleaseAny(tid: string)
    | ReleaseOwned(lease: Lease)
    | Continue(lease: Lease, minted: Epoch)
    | Observe(shard: int, epoch: Epoch, order: seq<string>) // order: Go's map iteration order
    | CloseCancel
    | CloseClear
    | RunDispose(lease: Lease)
    | Fence(lease: Lease)
    | Loop(run: RunId, step: LoopStep)

  datatype LoopStep =
    | Top
    | Reply(outcome: Outcome)
    | Recheck
    | ReplayReturned(outcome: Outcome)
    | OwnershipCheck
    | Finish
    | TimerFired
    | TimerCancelled
    | LoopRelease
    | Deferred

  predicate Working(pc: Pc) { !pc.Exiting? && !pc.Exited? }

  ghost function Init(shardOf: string -> int): State {
    State(shardOf, map[], map[], map[], map[], {}, map[], 0, false, {}, History({}, {}, multiset{}, map[], map[]))
  }

  // ----- the critical sections

  predicate IsCurrent(leases: map<string, Lease>, lease: Lease) {
    lease.tid in leases && leases[lease.tid] == lease
  }

  predicate IsRegistered(running: map<string, RunId>, run: RunId) {
    run.lease.tid in running && running[run.lease.tid] == run
  }

  ghost predicate Live(s: State, run: RunId) {
    run in s.runs && !s.runs[run].cancelled && !s.stopped
  }

  function CancelRun(runs: map<RunId, Run>, run: RunId): map<RunId, Run> {
    if run in runs then runs[run := runs[run].(cancelled := true)] else runs
  }

  /** Go's map read: the zero value when the transfer has no requested epoch. */
  function RequestedEpoch(requested: map<string, Epoch>, tid: string): Epoch {
    if tid in requested then requested[tid] else Epoch("", "")
  }

  /** stopRecoveryRunLocked */
  ghost function StopRun(s: State, tid: string, keep: Option<Lease>): State {
    if tid in s.running && (keep.None? || s.running[tid].lease != keep.value) then
      s.(runs := CancelRun(s.runs, s.running[tid]), running := s.running - {tid})
    else s
  }

  /** startRecoveryRunLocked */
  ghost function StartRun(s: State, lease: Lease): State {
    if lease.tid in s.running && s.running[lease.tid].lease == lease then s
    else
      var runs := if lease.tid in s.running then CancelRun(s.runs, s.running[lease.tid]) else s.runs;
      var run := RunId(lease, s.gen);
      s.(runs := runs[run := Run(false, AtTop)], running := s.running[lease.tid := run], gen := s.gen + 1)
  }

  /** Records the requested epoch of a lease, then starts its loop unless one runs already. */
  ghost function RequestAndStart(s: State, lease: Lease, epoch: Epoch): State {
    StartRun(s.(requested := s.requested[lease.tid := epoch],
                history := s.history.(lastRequested := s.history.lastRequested[lease := epoch])),
             lease)
  }

  /** The transfers whose current lease is on a shard. */
  ghost function OnShard(s: State, shard: int): set<string> {
    set t | t in s.leases && s.shardOf(t) == shard
  }

  ghost function StartEach(s: State, order: seq<string>, epoch: Epoch): State
    requires forall t :: t in order ==> t in s.leases
    decreases |order|
  {
    if order == [] then s
    else StartEach(RequestAndStart(s, s.leases[order[0]], epoch), order[1..], epoch)
  }

  /** `order` enumerates a set: every element once. */
  ghost predicate Lists(order: seq<string>, tids: set<string>) {
    (forall i, j :: 0 <= i < j < |order| ==> order[i] != order[j]) && (forall t :: t in order <==> t in tids)
  }

  ghost predicate ShardHeld(s: State, leases: map<string, Lease>, shard: int) {
    exists t :: t in leases && s.shardOf(t) == shard
  }

  /** releaseLease: the loop stops, and the shard's monitor with it when no other lease is on the shard. */
  ghost function Release(s: State, tid: string, expected: Option<Lease>): State {
    if expected.Some? && !(tid in s.leases && s.leases[tid] == expected.value) then s
    else
      var leases := s.leases - {tid};
      s.(leases := leases,
         requested := s.requested - {tid},
         running := s.running - {tid},
         runs := if tid in s.running then CancelRun(s.runs, s.running[tid]) else s.runs,
         monitors := if tid in s.leases && !ShardHeld(s, leases, s.shardOf(tid)) then s.monitors - {s.shardOf(tid)} else s.monitors,
         history := if tid in s.leases then s.history.(disposing := s.history.disposing + {s.leases[tid]}) else s.history)
  }

  /** registerRecoveryLease; call sites register each lease object once. */
  ghost function DoRegister(s: State, lease: Lease): State {
    if lease in s.history.registered then s
    else
      var previous := if lease.tid in s.leases then multiset{s.leases[lease.tid]} else multiset{};
      var s1 := s.(leases := s.leases[lease.tid := lease],
                   history := s.history.(registered := s.history.registered + {lease},
                                         disposed := s.history.disposed + previous));
      var s2 := StopRun(s1, lease.tid, Some(lease));
      s2.(monitors := s2.monitors + {s.shardOf(lease.tid)})
  }

  /** continueRecoveryLease */
  ghost function DoContinue(s: State, lease: Lease, minted: Epoch): State {
    if !IsCurrent(s.leases, lease) then s
    else
      var shard := s.shardOf(lease.tid);
      RequestAndStart(s, lease, if shard in s.epochs then s.epochs[shard] else minted)
  }

  /** observeRuntimeEpochs */
  ghost function DoObserve(s: State, shard: int, epoch: Epoch, order: seq<string>): State {
    if epoch.runtime == "" || epoch.transport == "" then s
    else
      var changed := shard in s.epochs && s.epochs[shard] != epoch;
      var s1 := s.(epochs := s.epochs[shard := epoch]);
      if changed && Lists(order, OnShard(s, shard)) then StartEach(s1, order, epoch)
      else if changed then s
      else s1
  }

  /** The section of `close` under recoveryMu, after the background context was cancelled. */
  ghost function DoCloseClear(s: State): State {
    if !s.stopped then s
    else
      s.(leases := map[], requested := map[], monitors := {},
         history := s.history.(disposed := s.history.disposed + multiset(s.leases.Values)))
  }

  ghost function SetPc(s: State, run: RunId, pc: Pc): State
    requires run in s.runs
  {
    s.(runs := s.runs[run := s.runs[run].(pc := pc)])
  }

  /** recoveryRunCurrent */
  ghost predicate RunCurrent(s: State, run: RunId) {
    IsRegistered(s.running, run) && IsCurrent(s.leases, run.lease) && Live(s, run) && run.lease !in s.fenced
  }

  /** Where a loop goes after a failed call. */
  ghost function AfterError(s: State, run: RunId, retryable: bool): Pc {
    if !Live(s, run) then Exiting else if retryable then Backoff else Releasing
  }

  /** Where a step that touches no shared state takes a loop; one that does not fit leaves it there. */
  ghost function NextPc(s: State, run: RunId, pc: Pc, step: LoopStep): Pc {
    match step
    case Top =>
      if !pc.AtTop? then pc
      else if RunCurrent(s, run) then Requesting(RequestedEpoch(s.requested, run.lease.tid)) else NotCurrent
    case Reply(outcome) =>
      if !pc.Requesting? then pc
      else (match outcome
            case Terminal => Releasing
            case ReplayRequired => Rechecking(pc.epoch)
            case Recovered => Finishing(pc.epoch)
            case RetryableError => AfterError(s, run, true)
            case FatalError => AfterError(s, run, false))
    case Recheck =>
      if !pc.Rechecking? then pc else if RunCurrent(s, run) then Replaying(pc.epoch) else NotCurrent
    case ReplayReturned(outcome) =>
      if !pc.Replaying? then pc
      else (match outcome
            case Recovered => Finishing(pc.epoch)
            case RetryableError => AfterError(s, run, true)
            case FatalError => AfterError(s, run, false)
            case _ => pc)
    case OwnershipCheck => if !pc.NotCurrent? then pc else if run.lease in s.fenced then Releasing else Exiting
    case TimerFired => if pc.Backoff? then AtTop else pc
    case TimerCancelled => if pc.Backoff? && !Live(s, run) then Exiting else pc
    case _ => pc
  }

  /** The section that ends an iteration: exit, or go round again when a newer epoch was requested. */
  ghost function DoFinish(s: State, run: RunId): State
    requires run in s.runs && s.runs[run].pc.Finishing?
  {
    var tid := run.lease.tid;
    var e := s.runs[run].pc.epoch;
    if !IsRegistered(s.running, run) then SetPc(s, run, Exiting)
    else if RequestedEpoch(s.requested, tid) != e then SetPc(s, run, AtTop)
    else Conclude(s, run, e)
  }

  /** A successful loop unregisters itself under the lock of its epoch check. */
  ghost function Conclude(s: State, run: RunId, e: Epoch): State
    requires run in s.runs
  {
    s.(running := s.running - {run.lease.tid},
       runs := s.runs[run := s.runs[run].(pc := Exiting)],
       history := s.history.(lastFinished := s.history.lastFinished[run.lease := e]))
  }

  /** The deferred cleanup of `recoverTransfer`. */
  ghost function DoDeferred(s: State, run: RunId): State
    requires run in s.runs
  {
    s.(running := if IsRegistered(s.running, run) then s.running - {run.lease.tid} else s.running,
       runs := s.runs[run := Run(true, Exited)])
  }

  ghost function DoLoop(s: State, run: RunId, step: LoopStep): State {
    if run !in s.runs then s
    else if step.Finish? then
      if s.runs[run].pc.Finishing? then DoFinish(s, run) else s
    else if step.LoopRelease? then
      if s.runs[run].pc.Releasing? then
        var s1 := Release(s, run.lease.tid, Some(run.lease));
        SetPc(s1, run, Exiting)
      else s
    else if step.Deferred? then
      if s.runs[run].pc.Exiting? then DoDeferred(s, run) else s
    else SetPc(s, run, NextPc(s, run, s.runs[run].pc, step))
  }

  ghost function Step(s: State, event: Event): State {
    match event
    case Register(lease) => DoRegister(s, lease)
    case ReleaseAny(tid) => Release(s, tid, None)
    case ReleaseOwned(lease) => Release(s, lease.tid, Some(lease))
    case Continue(lease, minted) => DoContinue(s, lease, minted)
    case Observe(shard, epoch, order) => DoObserve(s, shard, epoch, order)
    case CloseCancel => s.(stopped := true)
    case CloseClear => DoCloseClear(s)
    case RunDispose(lease) =>
      if lease !in s.history.disposing then s
      else s.(history := s.history.(disposing := s.history.disposing - {lease}, disposed := s.history.disposed + multiset{lease}))
    case Fence(lease) => s.(fenced := s.fenced + {lease})
    case Loop(run, step) => DoLoop(s, run, step)
  }

  ghost function Execute(s: State, trace: seq<Event>): State
    decreases |trace|
  {
    if trace == [] then s else Execute(Step(s, trace[0]), trace[1..])
  }

  // ----- the invariant

  ghost predicate LeasesInv(s: State) {
    forall t :: t in s.leases ==> s.leases[t].tid == t && s.leases[t] in s.history.registered
  }

  ghost predicate MonitorsInv(s: State) {
    s.monitors == set t | t in s.leases :: s.shardOf(t)
  }

  /** A registered loop is uncancelled, and until close it still works for the current lease. */
  ghost predicate RegisteredInv(s: State) {
    forall t :: t in s.running ==> RegisteredRun(s, t, s.running[t])
  }

  ghost predicate RegisteredRun(s: State, t: string, r: RunId) {
    && r in s.runs
    && r.lease.tid == t
    && !s.runs[r].cancelled
    && (!s.stopped ==>
          && IsCurrent(s.leases, r.lease)
          && Working(s.runs[r].pc)
          && (s.runs[r].pc.NotCurrent? ==> r.lease in s.fenced))
  }

  /** A working loop is registered, or it was cancelled and its lease is gone. */
  ghost predicate LoopsInv(s: State) {
    forall r :: r in s.runs ==>
      && r.gen < s.gen
      && r.lease in s.history.registered
      && (Working(s.runs[r].pc) ==>
            if s.runs[r].cancelled then !IsCurrent(s.leases, r.lease) else IsRegistered(s.running, r))
  }

  /** Each registered lease is current, about to be disposed, or disposed: exactly one of the three, once. */
  ghost predicate DisposalInv(s: State) {
    && (forall l :: l in s.history.disposed ==> l in s.history.registered)
    && s.history.disposing <= s.history.registered
    && (forall l :: l in s.history.registered ==>
          s.history.disposed[l] + (if l in s.history.disposing then 1 else 0) + (if IsCurrent(s.leases, l) then 1 else 0) == 1)
  }

  ghost predicate RequestsInv(s: State) {
    && (forall l :: l in s.history.lastRequested ==> l in s.history.registered)
    && (!s.stopped ==> forall t :: t in s.leases && s.leases[t] in s.history.lastRequested ==>
          && t in s.requested
          && s.requested[t] == s.history.lastRequested[s.leases[t]]
          && (t !in s.running ==>
                s.leases[t] in s.history.lastFinished && s.history.lastFinished[s.leases[t]] == s.requested[t]))
  }

  ghost predicate Inv(s: State) {
    LeasesInv(s) && MonitorsInv(s) && RegisteredInv(s) && LoopsInv(s) && DisposalInv(s) && RequestsInv(s)
  }

  lemma RegisterRuns(s: State, lease: Lease)
    requires LeasesInv(s) && RegisteredInv(s) && LoopsInv(s) && lease !in s.history.registered
    ensures RegisteredInv(DoRegister(s, lease)) && LoopsInv(DoRegister(s, lease))
  {
  }

  lemma RegisterRest(s: State, lease: Lease)
    requires LeasesInv(s) && MonitorsInv(s) && lease !in s.history.registered
    ensures LeasesInv(DoRegister(s, lease)) && MonitorsInv(DoRegister(s, lease))
  {
    var s' := DoRegister(s, lease);
    assert s'.leases == s.leases[lease.tid := lease];
    assert s'.leases.Keys == s.leases.Keys + {lease.tid};
  }

  lemma RegisterDisposal(s: State, lease: Lease)
    requires LeasesInv(s) && DisposalInv(s) && lease !in s.history.registered
    ensures DisposalInv(DoRegister(s, lease))
  {
    var s' := DoRegister(s, lease);
    assert s'.leases == s.leases[lease.tid := lease] && s'.history.disposing == s.history.disposing;
    forall l | l in s'.history.registered
      ensures s'.history.disposed[l] + (if l in s'.history.disposing then 1 else 0) + (if IsCurrent(s'.leases, l) then 1 else 0) == 1
    {
      assert l == lease || l in s.history.registered;
    }
  }

  lemma RegisterRequests(s: State, lease: Lease)
    requires LeasesInv(s) && RequestsInv(s) && lease !in s.history.registered
    ensures RequestsInv(DoRegister(s, lease))
  {
  }

  lemma ReleaseRuns(s: State, tid: string)
    requires LeasesInv(s) && RegisteredInv(s) && LoopsInv(s)
    ensures RegisteredInv(Release(s, tid, None)) && LoopsInv(Release(s, tid, None))
  {
  }

  lemma ReleaseMonitors(s: State, tid: string)
    requires MonitorsInv(s)
    ensures MonitorsInv(Release(s, tid, None))
  {
    var s' := Release(s, tid, None);
    forall n | n in s.monitors && (tid !in s.leases || n != s.shardOf(tid)) ensures exists t :: t in s'.leases && s.shardOf(t) == n {
      var t :| t in s.leases && s.shardOf(t) == n;
      assert t in s'.leases;
    }
  }

  lemma ReleaseDisposal(s: State, tid: string)
    requires LeasesInv(s) && DisposalInv(s)
    ensures DisposalInv(Release(s, tid, None))
  {
    var s' := Release(s, tid, None);
    forall l | l in s.history.registered
      ensures IsCurrent(s'.leases, l) <==> IsCurrent(s.leases, l) && l.tid != tid
    {
    }
  }

  lemma ReleaseInv(s: State, tid: string, expected: Option<Lease>)
    requires Inv(s)
    ensures Inv(Release(s, tid, expected))
  {
    ReleaseRuns(s, tid);
    ReleaseMonitors(s, tid);
    ReleaseDisposal(s, tid);
  }

  lemma RegisterInv(s: State, lease: Lease)
    requires Inv(s)
    ensures Inv(DoRegister(s, lease))
  {
    if lease !in s.history.registered {
      RegisterRuns(s, lease); RegisterRest(s, lease); RegisterDisposal(s, lease); RegisterRequests(s, lease);
    }
  }

  lemma StartRegisters(s: State, lease: Lease, epoch: Epoch)
    requires LeasesInv(s) && RegisteredInv(s) && LoopsInv(s) && IsCurrent(s.leases, lease)
    ensures RegisteredInv(RequestAndStart(s, lease, epoch))
  {
  }

  lemma StartLoops(s: State, lease: Lease, epoch: Epoch)
    requires LeasesInv(s) && RegisteredInv(s) && LoopsInv(s) && IsCurrent(s.leases, lease)
    ensures LoopsInv(RequestAndStart(s, lease, epoch))
  {
  }

  lemma StartRequests(s: State, lease: Lease, epoch: Epoch)
    requires LeasesInv(s) && RequestsInv(s) && IsCurrent(s.leases, lease)
    ensures RequestsInv(RequestAndStart(s, lease, epoch))
  {
    var s' := RequestAndStart(s, lease, epoch);
    assert lease.tid in s'.running;
    assert forall t :: t in s.running ==> t in s'.running;
  }

  lemma RequestAndStartInv(s: State, lease: Lease, epoch: Epoch)
    requires Inv(s) && IsCurrent(s.leases, lease)
    ensures Inv(RequestAndStart(s, lease, epoch))
    ensures RequestAndStart(s, lease, epoch).leases == s.leases
  {
    StartRegisters(s, lease, epoch);
    StartLoops(s, lease, epoch);
    StartRequests(s, lease, epoch);
  }

  lemma {:induction false} StartEachInv(s: State, order: seq<string>, epoch: Epoch)
    requires Inv(s) && forall t :: t in order ==> t in s.leases
    ensures Inv(StartEach(s, order, epoch))
    decreases |order|
  {
    if order != [] {
      assert order[0] in s.leases;
      RequestAndStartInv(s, s.leases[order[0]], epoch);
      StartEachInv(RequestAndStart(s, s.leases[order[0]], epoch), order[1..], epoch);
    }
  }

  lemma CloseClearInv(s: State)
    requires Inv(s)
    ensures Inv(DoCloseClear(s))
  {
    if s.stopped {
      forall l | l in s.history.registered
        ensures multiset(s.leases.Values)[l] == if IsCurrent(s.leases, l) then 1 else 0
      {
        assert l in s.leases.Values <==> IsCurrent(s.leases, l);
      }
      assert DisposalInv(DoCloseClear(s));
    }
  }

  /** A loop that only moves its own program counter keeps the invariant. */
  lemma SetPcInv(s: State, run: RunId, pc: Pc)
    requires Inv(s) && run in s.runs
    requires Working(s.runs[run].pc)
    requires !s.stopped && IsRegistered(s.running, run) ==> Working(pc) && (pc.NotCurrent? ==> run.lease in s.fenced)
    ensures Inv(SetPc(s, run, pc))
  {
    var s' := SetPc(s, run, pc);
    assert RegisteredInv(s');
    assert LoopsInv(s');
  }

  lemma ConcludeRuns(s: State, run: RunId, e: Epoch)
    requires RegisteredInv(s) && LoopsInv(s) && run in s.runs && IsRegistered(s.running, run)
    ensures RegisteredInv(Conclude(s, run, e)) && LoopsInv(Conclude(s, run, e))
  {
  }

  lemma ConcludeRequests(s: State, run: RunId, e: Epoch)
    requires LeasesInv(s) && RegisteredInv(s) && RequestsInv(s)
    requires run in s.runs && IsRegistered(s.running, run) && RequestedEpoch(s.requested, run.lease.tid) == e
    ensures RequestsInv(Conclude(s, run, e))
  {
    assert RegisteredRun(s, run.lease.tid, run);
  }

  lemma FinishInv(s: State, run: RunId)
    requires Inv(s) && run in s.runs && s.runs[run].pc.Finishing?
    ensures Inv(DoFinish(s, run))
  {
    var e := s.runs[run].pc.epoch;
    if !IsRegistered(s.running, run) {
      SetPcInv(s, run, Exiting);
    } else if RequestedEpoch(s.requested, run.lease.tid) != e {
      SetPcInv(s, run, AtTop);
    } else {
      ConcludeRuns(s, run, e);
      ConcludeRequests(s, run, e);
    }
  }

  lemma DeferredInv(s: State, run: RunId)
    requires Inv(s) && run in s.runs && s.runs[run].pc.Exiting?
    ensures Inv(DoDeferred(s, run))
  {
    assert RegisteredInv(DoDeferred(s, run));
    assert LoopsInv(DoDeferred(s, run));
  }

  lemma LoopReleaseInv(s: State, run: RunId)
    requires Inv(s) && run in s.runs && s.runs[run].pc.Releasing?
    ensures Inv(SetPc(Release(s, run.lease.tid, Some(run.lease)), run, Exiting))
  {
    var s1 := Release(s, run.lease.tid, Some(run.lease));
    ReleaseInv(s, run.lease.tid, Some(run.lease));
    assert !IsRegistered(s1.running, run) || s.stopped;
    SetPcInv(s1, run, Exiting);
  }

  /** A step without a critical section leaves a registered loop working. */
  lemma NextPcAllowed(s: State, run: RunId, step: LoopStep)
    requires RegisteredInv(s) && !s.stopped
    requires run in s.runs && IsRegistered(s.running, run)
    ensures Working(NextPc(s, run, s.runs[run].pc, step))
    ensures NextPc(s, run, s.runs[run].pc, step).NotCurrent? ==> run.lease in s.fenced
  {
    assert RegisteredRun(s, run.lease.tid, run);
  }

  lemma LoopInv(s: State, run: RunId, step: LoopStep)
    requires Inv(s)
    ensures Inv(DoLoop(s, run, step))
  {
    if run in s.runs {
      if step.Finish? {
        if s.runs[run].pc.Finishing? { FinishInv(s, run); }
      } else if step.LoopRelease? {
        if s.runs[run].pc.Releasing? { LoopReleaseInv(s, run); }
      } else if step.Deferred? {
        if s.runs[run].pc.Exiting? { DeferredInv(s, run); }
      } else if Working(s.runs[run].pc) {
        if !s.stopped && IsRegistered(s.running, run) { NextPcAllowed(s, run, step); }
        SetPcInv(s, run, NextPc(s, run, s.runs[run].pc, step));
      } else {
        assert SetPc(s, run, s.runs[run].pc) == s;
      }
    }
  }

  lemma ContinueInv(s: State, lease: Lease, minted: Epoch)
    requires Inv(s)
    ensures Inv(DoContinue(s, lease, minted))
  {
    if IsCurrent(s.leases, lease) {
      var shard := s.shardOf(lease.tid);
      RequestAndStartInv(s, lease, if shard in s.epochs then s.epochs[shard] else minted);
    }
  }

  lemma ObserveInv(s: State, shard: int, epoch: Epoch, order: seq<string>)
    requires Inv(s)
    ensures Inv(DoObserve(s, shard, epoch, order))
  {
    var s1 := s.(epochs := s.epochs[shard := epoch]);
    assert Inv(s1);
    if Lists(order, OnShard(s, shard)) { StartEachInv(s1, order, epoch); }
  }

  lemma QuietInv(s: State, event: Event)
    requires Inv(s) && (event.CloseCancel? || event.RunDispose? || event.Fence?)
    ensures Inv(Step(s, event))
  {
  }

  lemma StepInv(s: State, event: Event)
    requires Inv(s)
    ensures Inv(Step(s, event))
  {
    match event
    case Register(lease) => RegisterInv(s, lease);
    case ReleaseAny(tid) => ReleaseInv(s, tid, None);
    case ReleaseOwned(lease) => ReleaseInv(s, lease.tid, Some(lease));
    case Continue(lease, minted) => ContinueInv(s, lease, minted);
    case Observe(shard, epoch, order) => ObserveInv(s, shard, epoch, order);
    case CloseClear => CloseClearInv(s);
    case Loop(run, step) => LoopInv(s, run, step);
    case CloseCancel | RunDispose(_) | Fence(_) => QuietInv(s, event);
  }

  lemma {:induction false} ExecuteInv(s: State, trace: seq<Event>)
    requires Inv(s)
    ensures Inv(Execute(s, trace))
    decreases |trace|
  {
    if trace != [] {
      StepInv(s, trace[0]);
      ExecuteInv(Step(s, trace[0]), trace[1..]);
    }
  }

  // ----- what every run guarantees

  ghost predicate Reachable(s: State) {
    exists shardOf: string -> int, trace: seq<Event> :: s == Execute(Init(shardOf), trace)
  }

  lemma ReachableInv(s: State)
    requires Reachable(s)
    ensures Inv(s)
  {
    var shardOf, trace :| s == Execute(Init(shardOf), trace);
    ExecuteInv(Init(shardOf), trace);
  }

  /** A transfer has at most one uncancelled working loop, it is the registered one, and its lease is current. */
  lemma OneLiveLoop(s: State, r1: RunId, r2: RunId)
    requires Reachable(s) && r1.lease.tid == r2.lease.tid
    requires Live(s, r1) && Working(s.runs[r1].pc)
    requires Live(s, r2) && Working(s.runs[r2].pc)
    ensures r1 == r2 && IsRegistered(s.running, r1) && IsCurrent(s.leases, r1.lease)
  {
    ReachableInv(s);
    assert RegisteredRun(s, r1.lease.tid, r1);
  }

  /** A shard has a hello monitor exactly when some current lease is on it. */
  lemma MonitorIffLeased(s: State, shard: int)
    requires Reachable(s)
    ensures shard in s.monitors <==> ShardHeld(s, s.leases, shard)
  {
    ReachableInv(s);
  }

  /** A lease is never disposed while current, and exactly once when it leaves (pending dispose included). */
  lemma DisposedOnceWhenItLeaves(s: State, lease: Lease)
    requires Reachable(s) && lease in s.history.registered
    ensures IsCurrent(s.leases, lease) ==> s.history.disposed[lease] == 0 && lease !in s.history.disposing
    ensures !IsCurrent(s.leases, lease) && lease in s.history.disposing ==> s.history.disposed[lease] == 0
    ensures !IsCurrent(s.leases, lease) && lease !in s.history.disposing ==> s.history.disposed[lease] == 1
  {
    ReachableInv(s);
  }

  ghost predicate HasLiveLoop(s: State, lease: Lease) {
    lease.tid in s.running && s.running[lease.tid].lease == lease
    && Live(s, s.running[lease.tid]) && Working(s.runs[s.running[lease.tid]].pc)
  }

  /**
   Before close, a current lease without a live registered loop has nothing outstanding: the last epoch requested
   for it since its registration is the one its last finished iteration read when it started.
   */
  lemma NoRequestLost(s: State, lease: Lease)
    requires Reachable(s) && !s.stopped
    requires IsCurrent(s.leases, lease) && lease in s.history.lastRequested
    ensures HasLiveLoop(s, lease) ||
            (lease in s.history.lastFinished && s.history.lastFinished[lease] == s.history.lastRequested[lease])
  {
    ReachableInv(s);
    if lease.tid in s.running {
      assert RegisteredRun(s, lease.tid, s.running[lease.tid]);
    }
  }

  /** The run is the transfer's registered loop, and `q` is the epoch requested last. */
  ghost predicate Requested(s: State, run: RunId, q: Epoch) {
    IsRegistered(s.running, run) && run.lease.tid in s.requested && s.requested[run.lease.tid] == q
  }

  /** An event that registers, releases, requests or ends something of the run's transfer. */
  ghost predicate Concerns(shardOf: string -> int, run: RunId, event: Event) {
    match event
    case Register(lease) => lease.tid == run.lease.tid
    case ReleaseAny(tid) => tid == run.lease.tid
    case ReleaseOwned(lease) => lease.tid == run.lease.tid
    case Continue(lease, _) => lease.tid == run.lease.tid
    case Observe(shard, _, _) => shard == shardOf(run.lease.tid)
    case CloseClear => true
    case CloseCancel | RunDispose(_) | Fence(_) => false
    case Loop(other, step) => if other == run then step.Finish? || step.LoopRelease? || step.Deferred? else other.lease.tid == run.lease.tid
  }

  lemma {:induction false} StartEachKeepsOthers(s: State, order: seq<string>, epoch: Epoch, run: RunId, q: Epoch)
    requires Requested(s, run, q) && (forall t :: t in order ==> t in s.leases && s.leases[t].tid == t && t != run.lease.tid)
    ensures Requested(StartEach(s, order, epoch), run, q) && StartEach(s, order, epoch).shardOf == s.shardOf
    decreases |order|
  {
    if order != [] {
      var s1 := RequestAndStart(s, s.leases[order[0]], epoch);
      assert order[0] in order && Requested(s1, run, q) && s1.leases == s.leases && s1.shardOf == s.shardOf;
      StartEachKeepsOthers(s1, order[1..], epoch, run, q);
    }
  }

  lemma OthersKeepRequest(s: State, event: Event, run: RunId, q: Epoch)
    requires LeasesInv(s) && Requested(s, run, q) && !Concerns(s.shardOf, run, event)
    ensures Requested(Step(s, event), run, q) && Step(s, event).shardOf == s.shardOf
  {
    match event
    case Observe(shard, epoch, order) => OtherShardKeepsRequest(s, shard, epoch, order, run, q);
    case Loop(other, step) => OtherLoopKeepsRequest(s, other, step, run, q);
    case _ =>
  }

  lemma OtherShardKeepsRequest(s: State, shard: int, epoch: Epoch, order: seq<string>, run: RunId, q: Epoch)
    requires LeasesInv(s) && Requested(s, run, q) && shard != s.shardOf(run.lease.tid)
    ensures Requested(DoObserve(s, shard, epoch, order), run, q) && DoObserve(s, shard, epoch, order).shardOf == s.shardOf
  {
    if shard in s.epochs && s.epochs[shard] != epoch && Lists(order, OnShard(s, shard)) {
      StartEachKeepsOthers(s.(epochs := s.epochs[shard := epoch]), order, epoch, run, q);
    }
  }

  lemma OtherLoopKeepsRequest(s: State, other: RunId, step: LoopStep, run: RunId, q: Epoch)
    requires Requested(s, run, q) && !Concerns(s.shardOf, run, Loop(other, step))
    ensures Requested(DoLoop(s, other, step), run, q) && DoLoop(s, other, step).shardOf == s.shardOf
  {
  }

  lemma {:induction false} RunKeepsRequest(s: State, trace: seq<Event>, run: RunId, q: Epoch)
    requires Inv(s) && Requested(s, run, q) && forall k :: 0 <= k < |trace| ==> !Concerns(s.shardOf, run, trace[k])
    ensures Requested(Execute(s, trace), run, q)
    decreases |trace|
  {
    if trace != [] {
      OthersKeepRequest(s, trace[0], run, q);
      StepInv(s, trace[0]);
      RunKeepsRequest(Step(s, trace[0]), trace[1..], run, q);
    }
  }

  /**
   However its own calls, other transfers and other loops interleave after the last request, a loop that comes to the end
   of an iteration ends there exactly when the epoch requested equals, by value, the one that iteration read; otherwise
   it goes round again.
   */
  lemma LastRequestDecides(s: State, run: RunId, q: Epoch, trace: seq<Event>)
    requires Reachable(s) && Requested(s, run, q) && forall k :: 0 <= k < |trace| ==> !Concerns(s.shardOf, run, trace[k])
    requires var s1 := Execute(s, trace); run in s1.runs && s1.runs[run].pc.Finishing?
    ensures var s1 := Execute(s, trace);
            var s2 := Step(s1, Loop(run, Finish));
            && (run.lease.tid !in s2.running <==> q == s1.runs[run].pc.epoch)
            && (q != s1.runs[run].pc.epoch ==> run in s2.runs && s2.runs[run].pc.AtTop? && IsRegistered(s2.running, run))
  {
    ReachableInv(s);
    RunKeepsRequest(s, trace, run, q);
    FinishDecides(Execute(s, trace), run, q);
  }

  lemma FinishDecides(s: State, run: RunId, q: Epoch)
    requires Requested(s, run, q) && run in s.runs && s.runs[run].pc.Finishing?
    ensures var s2 := Step(s, Loop(run, Finish));
            && (run.lease.tid !in s2.running <==> q == s.runs[run].pc.epoch)
            && (q != s.runs[run].pc.epoch ==> run in s2.runs && s2.runs[run].pc.AtTop? && IsRegistered(s2.running, run))
  {
  }

  /** A request for the lease of a registered loop: it starts no other loop, and is then the last one. */
  lemma RequestReachesTheLoop(s: State, run: RunId, minted: Epoch)
    requires Reachable(s) && !s.stopped && IsRegistered(s.running, run)
    ensures var shard := s.shardOf(run.lease.tid);
            Requested(Step(s, Continue(run.lease, minted)), run, if shard in s.epochs then s.epochs[shard] else minted)
  {
    ReachableInv(s);
    assert RegisteredRun(s, run.lease.tid, run);
  }

  /** So an iteration absorbs a request made during it exactly when it is for the epoch the iteration read. */
  lemma RepeatedEpochIsAbsorbed(s: State, run: RunId, minted: Epoch, trace: seq<Event>)
    requires Reachable(s) && !s.stopped && IsRegistered(s.running, run)
    requires forall k :: 0 <= k < |trace| ==> !Concerns(s.shardOf, run, trace[k])
    requires var s1 := Execute(Step(s, Continue(run.lease, minted)), trace); run in s1.runs && s1.runs[run].pc.Finishing?
    ensures var shard := s.shardOf(run.lease.tid);
            var requested := if shard in s.epochs then s.epochs[shard] else minted;
            var s1 := Execute(Step(s, Continue(run.lease, minted)), trace);
            var s2 := Step(s1, Loop(run, Finish));
            && (run.lease.tid !in s2.running <==> requested == s1.runs[run].pc.epoch)
            && (requested != s1.runs[run].pc.epoch ==> run in s2.runs && s2.runs[run].pc.AtTop?)
  {
    RequestReachesTheLoop(s, run, minted);
    ReachableStep(s, Continue(run.lease, minted));
    var shard := s.shardOf(run.lease.tid);
    assert Step(s, Continue(run.lease, minted)).shardOf == s.shardOf;
    LastRequestDecides(Step(s, Continue(run.lease, minted)), run, if shard in s.epochs then s.epochs[shard] else minted, trace);
  }

  // ----- what a hello does -----

  /** The lease's epoch was requested, as the last one, and a loop of its own is registered. */
  ghost predicate Asked(s: State, t: string, epoch: Epoch) {
    && t in s.leases && t in s.requested && s.requested[t] == epoch
    && s.leases[t] in s.history.lastRequested && s.history.lastRequested[s.leases[t]] == epoch
    && t in s.running && s.running[t].lease == s.leases[t]
  }

  /** Nothing was asked of the transfer. */
  ghost predicate NotAsked(s: State, s': State, t: string) {
    && (t in s'.requested <==> t in s.requested) && (t in s.requested ==> s'.requested[t] == s.requested[t])
    && (t in s'.running <==> t in s.running) && (t in s.running ==> s'.running[t] == s.running[t])
  }

  ghost predicate Recovers(s: State, shard: int, epoch: Epoch, t: string) {
    shard in s.epochs && s.epochs[shard] != epoch && t in s.leases && s.shardOf(t) == shard
  }

  /**
   A hello with both epochs is what the shard has from then on. When the shard had another one, every current lease on
   it is asked to recover to the new one, and no other transfer is; the first hello, or an equal one, asks nothing.
   */
  ghost predicate Observed(s: State, shard: int, epoch: Epoch, s': State) {
    if epoch.runtime == "" || epoch.transport == "" then s' == s
    else
      && s'.epochs == s.epochs[shard := epoch] && s'.leases == s.leases && s'.monitors == s.monitors && s'.stopped == s.stopped
      && (forall t :: Recovers(s, shard, epoch, t) ==> Asked(s', t, epoch))
      && (forall t :: !Recovers(s, shard, epoch, t) ==> NotAsked(s, s', t))
  }

  lemma {:induction false} StartEachAsks(s: State, order: seq<string>, epoch: Epoch)
    requires LeasesInv(s) && forall t :: t in order ==> t in s.leases
    ensures var s' := StartEach(s, order, epoch);
            && s'.epochs == s.epochs && s'.leases == s.leases && s'.monitors == s.monitors && s'.stopped == s.stopped && s'.shardOf == s.shardOf
            && (forall t :: t in order ==> Asked(s', t, epoch)) && (forall t :: t !in order ==> NotAsked(s, s', t))
    ensures forall t :: Asked(s, t, epoch) ==> Asked(StartEach(s, order, epoch), t, epoch)
    decreases |order|
  {
    if order != [] {
      var s1 := RequestAndStart(s, s.leases[order[0]], epoch);
      StartAsks(s, order[0], epoch);
      StartEachAsks(s1, order[1..], epoch);
      forall t ensures t in order <==> t == order[0] || t in order[1..] { }
    }
  }

  lemma StartAsks(s: State, t: string, epoch: Epoch)
    requires LeasesInv(s) && t in s.leases
    ensures var s' := RequestAndStart(s, s.leases[t], epoch);
            && s'.epochs == s.epochs && s'.leases == s.leases && s'.monitors == s.monitors && s'.stopped == s.stopped && s'.shardOf == s.shardOf
            && LeasesInv(s') && Asked(s', t, epoch) && (forall u :: u != t ==> NotAsked(s, s', u))
    ensures forall u :: Asked(s, u, epoch) ==> Asked(RequestAndStart(s, s.leases[t], epoch), u, epoch)
  {
  }

  lemma ObservationMeaning(s: State, shard: int, epoch: Epoch, order: seq<string>)
    requires LeasesInv(s) && (shard in s.epochs && s.epochs[shard] != epoch ==> Lists(order, OnShard(s, shard)))
    ensures Observed(s, shard, epoch, Step(s, Observe(shard, epoch, order)))
  {
    if epoch.runtime != "" && epoch.transport != "" && shard in s.epochs && s.epochs[shard] != epoch {
      var s1 := s.(epochs := s.epochs[shard := epoch]);
      StartEachAsks(s1, order, epoch);
      forall t ensures t in order <==> Recovers(s, shard, epoch, t) { assert t in OnShard(s, shard) <==> t in s.leases && s.shardOf(t) == shard; }
      forall t | t !in order ensures NotAsked(s, StartEach(s1, order, epoch), t) { assert NotAsked(s1, StartEach(s1, order, epoch), t); }
    }
  }

  lemma ReachableStep(s: State, event: Event)
    requires Reachable(s)
    ensures Reachable(Step(s, event))
  {
    var shardOf, trace :| s == Execute(Init(shardOf), trace);
    ExecuteSnoc(Init(shardOf), trace, event);
    assert Step(s, event) == Execute(Init(shardOf), trace + [event]);
  }

  lemma {:induction false} ExecuteSnoc(s: State, trace: seq<Event>, event: Event)
    ensures Execute(s, trace + [event]) == Step(Execute(s, trace), event)
    decreases |trace|
  {
    if trace == [] {
      assert ([] + [event])[1..] == [];
    } else {
      assert (trace + [event])[1..] == trace[1..] + [event];
      ExecuteSnoc(Step(s, trace[0]), trace[1..], event);
    }
  }

  /** Releasing a lease that was replaced or released changes nothing. */
  lemma StaleReleaseChangesNothing(s: State, lease: Lease)
    requires !IsCurrent(s.leases, lease)
    ensures Step(s, ReleaseOwned(lease)) == s
  {
  }

  /** What a step of an unregistered loop whose lease is gone can change. */
  lemma StaleStep(s: State, run: RunId, step: LoopStep)
    requires run in s.runs && !IsRegistered(s.running, run)
    requires s.runs[run].pc.Releasing? ==> !IsCurrent(s.leases, run.lease)
    ensures var s' := DoLoop(s, run, step);
            run in s'.runs && s' == s.(runs := s.runs[run := s'.runs[run]])
  {
  }

  /** Until close, a loop that is no longer registered can change its own record only, whatever step it takes. */
  lemma StaleLoopIsHarmless(s: State, run: RunId, step: LoopStep)
    requires Reachable(s) && !s.stopped && run in s.runs && !IsRegistered(s.running, run)
    ensures var s' := Step(s, Loop(run, step));
            run in s'.runs && s' == s.(runs := s.runs[run := s'.runs[run]])
  {
    assert s.runs[run].pc.Releasing? ==> !IsCurrent(s.leases, run.lease) by {
      ReachableInv(s);
    }
    StaleStep(s, run, step);
  }

  // ----- the control object

  class NatsControl {
    const shardOf: string -> int
    var leases: map<string, Lease>
    var running: map<string, RunId>
    var requested: map<string, Epoch>
    var epochs: map<int, Epoch>
    var monitors: set<int>
    var runs: map<RunId, Run>
    var gen: nat
    var stopped: bool
    var fenced: set<Lease>
    ghost var history: History

    ghost function Now(): State
      reads this
    {
      State(shardOf, leases, running, requested, epochs, monitors, runs, gen, stopped, fenced, history)
    }

    constructor (shardOf: string -> int)
      ensures Now() == Init(shardOf)
    {
      this.shardOf := shardOf;
      leases, running, requested, epochs, monitors, runs := map[], map[], map[], map[], {}, map[];
      gen, stopped, fenced := 0, false, {};
      history := History({}, {}, multiset{}, map[], map[]);
    }

    method StopRunLocked(tid: string, keep: Option<Lease>)
      modifies this`running, this`runs
      ensures Now() == StopRun(old(Now()), tid, keep)
    {
      if tid in running && (keep.None? || running[tid].lease != keep.value) {
        runs := CancelRun(runs, running[tid]);
        running := running - {tid};
      }
    }

    method StartRunLocked(lease: Lease) returns (run: Option<RunId>)
      modifies this`running, this`runs, this`gen
      ensures Now() == StartRun(old(Now()), lease)
      ensures run.Some? <==> !(old(lease.tid in running && running[lease.tid].lease == lease))
      ensures run.Some? ==> IsRegistered(running, run.value) && run.value.lease == lease
    {
      if lease.tid in running {
        if running[lease.tid].lease == lease { return None; }
        runs := CancelRun(runs, running[lease.tid]);
      }
      var started := RunId(lease, gen);
      gen := gen + 1;
      runs := runs[started := Run(false, AtTop)];
      running := running[lease.tid := started];
      return Some(started);
    }

    method RegisterRecoveryLease(lease: Lease)
      requires lease !in history.registered
      modifies this
      ensures Now() == DoRegister(old(Now()), lease)
    {
      if lease.tid in leases {
        history := history.(disposed := history.disposed + multiset{leases[lease.tid]});
      }
      history := history.(registered := history.registered + {lease});
      leases := leases[lease.tid := lease];
      StopRunLocked(lease.tid, Some(lease));
      if shardOf(lease.tid) !in monitors {
        monitors := monitors + {shardOf(lease.tid)};
      }
    }

    method ReleaseLease(tid: string, expected: Option<Lease>)
      modifies this
      ensures Now() == Release(old(Now()), tid, expected)
    {
      if expected.Some? && !(tid in leases && leases[tid] == expected.value) { return; }
      var lease := if tid in leases then Some(leases[tid]) else None;
      leases := leases - {tid};
      requested := requested - {tid};
      StopRunLocked(tid, None);
      assert running == old(running) - {tid};
      if lease.Some? {
        var hasShardLease := false;
        var todo := leases.Keys;
        while todo != {} && !hasShardLease
          invariant todo <= leases.Keys
          invariant hasShardLease ==> ShardHeld(old(Now()), leases, shardOf(tid))
          invariant !hasShardLease ==> forall t :: t in leases && t !in todo ==> shardOf(t) != shardOf(tid)
        {
          var t :| t in todo;
          todo := todo - {t};
          hasShardLease := shardOf(t) == shardOf(tid);
        }
        if !hasShardLease {
          monitors := monitors - {shardOf(tid)};
        }
        history := history.(disposing := history.disposing + {lease.value});
      }
    }

    method RequestAndStartLocked(lease: Lease, epoch: Epoch) returns (run: Option<RunId>)
      modifies this
      ensures Now() == RequestAndStart(old(Now()), lease, epoch)
    {
      requested := requested[lease.tid := epoch];
      history := history.(lastRequested := history.lastRequested[lease := epoch]);
      run := StartRunLocked(lease);
    }

    method ContinueRecoveryLease(lease: Lease, minted: Epoch) returns (run: Option<RunId>)
      modifies this
      ensures Now() == Step(old(Now()), Continue(lease, minted))
    {
      if !IsCurrent(leases, lease) { return None; }
      var shard := shardOf(lease.tid);
      run := RequestAndStartLocked(lease, if shard in epochs then epochs[shard] else minted);
    }

    method ObserveRuntimeEpochs(shard: int, epoch: Epoch) returns (ghost order: seq<string>)
      requires LeasesInv(Now())
      modifies this
      ensures Now() == Step(old(Now()), Observe(shard, epoch, order))
      ensures Observed(old(Now()), shard, epoch, Now())
    {
      order := [];
      if epoch.runtime == "" || epoch.transport == "" { return; }
      var changed := shard in epochs && epochs[shard] != epoch;
      epochs := epochs[shard := epoch];
      if changed { order := AskShard(shard, epoch); }
      ObservationMeaning(old(Now()), shard, epoch, order);
    }

    /** Every lease of the shard, in whatever order the map gives them. */
    method AskShard(shard: int, epoch: Epoch) returns (ghost order: seq<string>)
      requires LeasesInv(Now())
      modifies this
      ensures Lists(order, OnShard(old(Now()), shard)) && Now() == StartEach(old(Now()), order, epoch)
    {
      ghost var s1 := Now();
      order := [];
      var todo := set t | t in leases && shardOf(t) == shard;
      while todo != {}
        invariant todo <= OnShard(s1, shard) && Lists(order, OnShard(s1, shard) - todo)
        invariant leases == s1.leases && forall t :: t in order ==> t in s1.leases
        invariant Now() == StartEach(s1, order, epoch)
      {
        var t :| t in todo;
        StartEachAppend(s1, order, t, epoch);
        var run := RequestAndStartLocked(leases[t], epoch);
        todo := todo - {t};
        order := order + [t];
      }
    }

    /** recoveryRunCurrent; it changes nothing. */
    method RecoveryRunCurrent(run: RunId) returns (epoch: Epoch, current: bool)
      ensures current <==> RunCurrent(Now(), run)
      ensures epoch == RequestedEpoch(requested, run.lease.tid)
    {
      current := IsRegistered(running, run) && IsCurrent(leases, run.lease)
                 && run in runs && !runs[run].cancelled && !stopped && run.lease !in fenced;
      epoch := RequestedEpoch(requested, run.lease.tid);
    }

    method FinishIteration(run: RunId)
      requires run in runs && runs[run].pc.Finishing?
      modifies this
      ensures Now() == Step(old(Now()), Loop(run, Finish))
    {
      var epoch := runs[run].pc.epoch;
      if !IsRegistered(running, run) {
        runs := runs[run := runs[run].(pc := Exiting)];
      } else if RequestedEpoch(requested, run.lease.tid) != epoch {
        runs := runs[run := runs[run].(pc := AtTop)];
      } else {
        running := running - {run.lease.tid};
        runs := runs[run := runs[run].(pc := Exiting)];
        history := history.(lastFinished := history.lastFinished[run.lease := epoch]);
      }
    }

    method CloseCancelBackground()
      modifies this`stopped
      ensures Now() == Step(old(Now()), CloseCancel)
    {
      stopped := true;
    }

    method CloseClearLeases()
      requires stopped
      modifies this
      ensures Now() == Step(old(Now()), CloseClear)
    {
      history := history.(disposed := history.disposed + multiset(leases.Values));
      leases, requested, monitors := map[], map[], {};
    }
  }

  lemma {:induction false} StartEachAppend(s: State, order: seq<string>, t: string, epoch: Epoch)
    requires LeasesInv(s) && t in s.leases && forall u :: u in order ==> u in s.leases
    ensures StartEach(s, order, epoch).leases == s.leases
    ensures StartEach(s, order + [t], epoch) == RequestAndStart(StartEach(s, order, epoch), s.leases[t], epoch)
    decreases |order|
  {
    if order == [] {
      assert [t][1..] == [];
    } else {
      var s1 := RequestAndStart(s, s.leases[order[0]], epoch);
      assert (order + [t])[1..] == order[1..] + [t];
      assert order[0] in s.leases;
      StartEachAppend(s1, order[1..], t, epoch);
    }
  }
}
