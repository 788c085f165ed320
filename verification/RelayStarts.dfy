/**
 Delivering on-chain requests to Studio (`runStarts`, packages/cre/relay/relay.ts). Every
 call outside may throw, before or after its effect, which ends the pass; since a restart
 loses nothing but the pass, every crash point is one of these.
 */
module RelayStarts {
  import opened Basics
  import opened StableSort
  import Receipts

  /** A decoded `TransferRequested` log. */
  datatype Log = Log(requestId: string, kind: int, blockNumber: int, logIndex: int)

  datatype Workflow = TransferWorkflow | RoomWorkflow

  datatype Settings = Settings(startBlock: int, logRangeBlocks: int, roomDelivery: bool, jobOutput: bool)

  /** The workflow that starts a request's kind, if this deployment has one. */
  function WorkflowFor(settings: Settings, log: Log): Option<Workflow> {
    if log.kind == Receipts.STANDARD then Some(TransferWorkflow)
    else if (log.kind == Receipts.ROOM_DELIVERY && settings.roomDelivery) || (log.kind == Receipts.JOB && settings.roomDelivery && settings.jobOutput) then
      Some(RoomWorkflow)
    else None
  }

  /** Standard requests go to the transfer workflow; deliveries and jobs to the Room workflow, where the deployment has their routes. */
  predicate StartedBy(settings: Settings, log: Log, workflow: Workflow) {
    match workflow
    case TransferWorkflow => log.kind == 1
    case RoomWorkflow => settings.roomDelivery && (log.kind == 2 || (log.kind == 3 && settings.jobOutput))
  }

  lemma WorkflowMeaning(settings: Settings, log: Log, workflow: Workflow)
    ensures WorkflowFor(settings, log) == Some(workflow) <==> StartedBy(settings, log, workflow)
  {
  }

  /** A request as it was sent to Studio. */
  datatype Start = Start(log: Log, workflow: Workflow)

  // ----- the chain and its order -----

  /** The logs of each final block. */
  type Chain = int -> seq<Log>

  predicate Before(a: Log, b: Log) {
    a.blockNumber < b.blockNumber || (a.blockNumber == b.blockNumber && a.logIndex < b.logIndex)
  }

  ghost predicate InOrder(logs: seq<Log>) {
    forall i, j :: 0 <= i < j < |logs| ==> Before(logs[i], logs[j])
  }

  ghost predicate WellFormed(chain: Chain) {
    forall b: int :: InOrder(chain(b)) && forall i :: 0 <= i < |chain(b)| ==> chain(b)[i].blockNumber == b
  }

  /** The logs of the blocks from `first` to `last`, in chain order. */
  function Range(chain: Chain, first: int, last: int): seq<Log>
    decreases last - first
  {
    if first > last then [] else chain(first) + Range(chain, first + 1, last)
  }

  lemma {:induction false} RangeMeaning(chain: Chain, first: int, last: int)
    requires WellFormed(chain)
    ensures InOrder(Range(chain, first, last))
    ensures forall log :: log in Range(chain, first, last) <==> first <= log.blockNumber <= last && log in chain(log.blockNumber)
    decreases last - first
  {
    if first <= last {
      RangeMeaning(chain, first + 1, last);
      var rest := Range(chain, first + 1, last);
      assert forall k :: 0 <= k < |rest| ==> rest[k] in rest;
      assert forall k :: 0 <= k < |chain(first)| ==> chain(first)[k] in chain(first);
    }
  }

  /** By block, then by index in it. */
  function ChainOrder(): Order<Log> { (a: Log, b: Log) => Before(a, b) }

  /** Whatever order the node lists a range in, the relay sees it in chain order. */
  lemma SortsToChainOrder(chain: Chain, first: int, last: int, listed: seq<Log>)
    requires WellFormed(chain) && multiset(listed) == multiset(Range(chain, first, last))
    ensures Sort(ChainOrder(), listed) == Range(chain, first, last)
  {
    RangeMeaning(chain, first, last);
    SortMeaning(ChainOrder(), listed);
    SortedUnique(ChainOrder(), Sort(ChainOrder(), listed), Range(chain, first, last));
  }

  // ----- the relay -----

  datatype Outcome = Accepted | Refused | Unavailable | DeliverThrew

  datatype Pass = Done(delivered: nat) | Stopped(delivered: nat) | Crashed

  /** A request this deployment has to start. */
  predicate Starts(settings: Settings, chain: Chain, log: Log) {
    log.blockNumber >= settings.startBlock && log in chain(log.blockNumber)
    && (StartedBy(settings, log, TransferWorkflow) || StartedBy(settings, log, RoomWorkflow))
  }

  /** Every request of a block below `next` was accepted or refused, or is of a kind not started. */
  ghost predicate HandledBelow(settings: Settings, chain: Chain, accepted: seq<Log>, refused: set<Log>, next: int) {
    forall log :: Starts(settings, chain, log) && log.blockNumber < next ==> log in accepted || log in refused
  }

  /** Whenever a request is attempted, every request before it has been. */
  ghost predicate FirstAttemptsInOrder(settings: Settings, chain: Chain, attempts: seq<Log>) {
    forall j, log :: 0 <= j < |attempts| && Starts(settings, chain, log) && Before(log, attempts[j]) ==> log in attempts[..j]
  }

  lemma OneMoreAttempt(settings: Settings, chain: Chain, attempts: seq<Log>, request: Log)
    requires FirstAttemptsInOrder(settings, chain, attempts)
    requires forall log :: Starts(settings, chain, log) && Before(log, request) ==> log in attempts
    ensures FirstAttemptsInOrder(settings, chain, attempts + [request])
  {
    var more := attempts + [request];
    forall j, log | 0 <= j < |more| && Starts(settings, chain, log) && Before(log, more[j]) ensures log in more[..j] {
      assert more[..j] == attempts[..j];
      if j == |attempts| { assert attempts[..j] == attempts; }
    }
  }

  ghost predicate HandledUpTo(settings: Settings, logs: seq<Log>, k: nat, accepted: seq<Log>, refused: set<Log>) {
    forall i :: 0 <= i < k <= |logs| && WorkflowFor(settings, logs[i]).Some? ==> logs[i] in accepted || logs[i] in refused
  }

  lemma EarlierIndex(logs: seq<Log>, i: nat, k: nat)
    requires InOrder(logs) && i < |logs| && k < |logs| && Before(logs[i], logs[k])
    ensures i < k
  {
  }

  /** In the middle of a range, everything before the next request is handled; the blocks below its own, too. */
  lemma EarlierAreHandled(settings: Settings, chain: Chain, logs: seq<Log>, first: int, last: int, k: nat, accepted: seq<Log>, refused: set<Log>)
    requires WellFormed(chain) && logs == Range(chain, first, last) && k < |logs|
    requires HandledBelow(settings, chain, accepted, refused, first) && HandledUpTo(settings, logs, k, accepted, refused)
    ensures forall log :: Starts(settings, chain, log) && Before(log, logs[k]) ==> log in accepted || log in refused
    ensures first <= logs[k].blockNumber <= last && HandledBelow(settings, chain, accepted, refused, logs[k].blockNumber)
    ensures logs[k] in chain(logs[k].blockNumber)
  {
    RangeMeaning(chain, first, last);
    assert logs[k] in logs;
    forall log | Starts(settings, chain, log) && Before(log, logs[k]) ensures log in accepted || log in refused {
      if log.blockNumber >= first {
        assert log in logs;
        var i :| 0 <= i < |logs| && logs[i] == log;
        EarlierIndex(logs, i, k);
      }
    }
  }

  lemma RangeIsHandled(settings: Settings, chain: Chain, logs: seq<Log>, first: int, last: int, accepted: seq<Log>, refused: set<Log>)
    requires WellFormed(chain) && logs == Range(chain, first, last)
    requires HandledBelow(settings, chain, accepted, refused, first) && HandledUpTo(settings, logs, |logs|, accepted, refused)
    ensures HandledBelow(settings, chain, accepted, refused, last + 1)
  {
    RangeMeaning(chain, first, last);
    forall log | Starts(settings, chain, log) && log.blockNumber < last + 1 ensures log in accepted || log in refused {
      if log.blockNumber >= first {
        assert log in logs;
        var i :| 0 <= i < |logs| && logs[i] == log;
      }
    }
  }

  class Relay {
    const settings: Settings
    const chain: Chain
    var cursor: Option<int>        // the cursor file
    // What reached Studio.
    ghost var attempts: seq<Log>
    ghost var sent: seq<Start>      // the attempts, with the workflow each asked for
    ghost var accepted: seq<Log>
    ghost var refused: set<Log>
    ghost var unavailable: seq<Log> // requests Studio was unavailable for
    ghost var faults: nat           // calls that threw

    constructor (settings: Settings, chain: Chain)
      requires settings.logRangeBlocks >= 1 && WellFormed(chain)
      ensures Valid() && Next() == settings.startBlock && this.settings == settings && this.chain == chain
    {
      this.settings, this.chain := settings, chain;
      cursor, attempts, sent, accepted, refused, unavailable, faults := None, [], [], [], {}, [], 0;
    }

    function Next(): int
      reads this
    {
      if cursor.Some? then cursor.value else settings.startBlock
    }

    ghost predicate Recorded()
      reads this
    {
      && settings.logRangeBlocks >= 1 && WellFormed(chain)
      && (forall log :: log in accepted || log in refused ==> log in attempts)
      && FirstAttemptsInOrder(settings, chain, attempts)
      && |sent| == |attempts|
      && (forall i :: 0 <= i < |sent| ==> sent[i].log == attempts[i] && StartedBy(settings, sent[i].log, sent[i].workflow))
    }

    /** What holds at every crash point: everything below the saved cursor is handled, and first attempts are in chain order. */
    ghost predicate Valid()
      reads this
    {
      Recorded() && Next() >= settings.startBlock && HandledBelow(settings, chain, accepted, refused, Next())
    }

    /** A range of final blocks, no longer than the node allows, read and sorted; the node lists it in any order, or the call throws. */
    method TransferRequests(first: int, last: int, ghost finalized: int) returns (logs: Option<seq<Log>>)
      requires WellFormed(chain) && first <= last <= finalized && last - first < settings.logRangeBlocks
      modifies this`faults
      ensures logs.Some? ==> logs.value == Range(chain, first, last)
      ensures faults == old(faults) + (if logs.None? then 1 else 0)
    {
      var answers: bool := *;
      if !answers {
        faults := faults + 1;
        return None;
      }
      var listed: seq<Log> :| multiset(listed) == multiset(Range(chain, first, last));
      SortsToChainOrder(chain, first, last, listed);
      logs := Some(Sort(ChainOrder(), listed));
    }

    /** Studio is asked; a call that throws may have reached it. */
    method Deliver(request: Log, workflow: Workflow) returns (outcome: Outcome)
      requires StartedBy(settings, request, workflow)
      requires Recorded() && (forall log :: Starts(settings, chain, log) && Before(log, request) ==> log in attempts)
      modifies this`attempts, this`sent, this`accepted, this`refused, this`unavailable, this`faults
      ensures faults == old(faults) + (if outcome.DeliverThrew? then 1 else 0)
      ensures unavailable == if outcome.Unavailable? then old(unavailable) + [request] else old(unavailable)
      ensures Recorded() && old(attempts) <= attempts <= old(attempts) + [request]
      ensures !outcome.DeliverThrew? ==> attempts == old(attempts) + [request]
      ensures accepted == if outcome.Accepted? then old(accepted) + [request] else old(accepted)
      ensures refused == if outcome.Refused? then old(refused) + {request} else old(refused)
    {
      outcome := *;
      var reached: bool := *;
      OneMoreAttempt(settings, chain, attempts, request);
      if reached || !outcome.DeliverThrew? { attempts, sent := attempts + [request], sent + [Start(request, workflow)]; }
      if outcome.Accepted? { accepted := accepted + [request]; }
      if outcome.Refused? { refused := refused + {request}; }
      if outcome.Unavailable? { unavailable := unavailable + [request]; }
      if outcome.DeliverThrew? { faults := faults + 1; }
    }

    /** The cursor file; a write that throws may have happened. */
    method SaveCursor(next: int) returns (ok: bool)
      modifies this`cursor, this`faults
      ensures faults == old(faults) + (if ok then 0 else 1)
      ensures cursor == Some(next) || (!ok && cursor == old(cursor))
    {
      ok := *;
      var written: bool := *;
      if ok || written { cursor := Some(next); }
      if !ok { faults := faults + 1; }
    }

    method ReadCursor() returns (next: Option<int>)
      modifies this`faults
      ensures next.Some? ==> next.value == Next()
      ensures faults == old(faults) + (if next.None? then 1 else 0)
    {
      var readable: bool := *;
      if readable { return Some(Next()); }
      faults := faults + 1;
      next := None;
    }

    /** Delivers one range; Done when all of it is handled, otherwise the request that is in the way, or a throw. */
    method DeliverRange(logs: seq<Log>, ghost first: int, ghost last: int) returns (pass: Pass, at: int, ghost stopper: Log)
      requires Recorded() && settings.startBlock <= first <= last && logs == Range(chain, first, last)
      requires HandledBelow(settings, chain, accepted, refused, first)
      modifies this`attempts, this`sent, this`accepted, this`refused, this`unavailable, this`faults
      ensures faults == old(faults) + (if pass.Crashed? then 1 else 0)
      ensures unavailable == if pass.Stopped? then old(unavailable) + [stopper] else old(unavailable)
      ensures pass.Stopped? ==> Starts(settings, chain, stopper) && stopper.blockNumber == at
      ensures Recorded() && old(attempts) <= attempts && old(accepted) <= accepted && old(refused) <= refused
      ensures pass.Done? ==> HandledBelow(settings, chain, accepted, refused, last + 1) && pass.delivered == |accepted| - |old(accepted)|
      ensures pass.Stopped? ==>
        first <= at <= last && HandledBelow(settings, chain, accepted, refused, at) && pass.delivered == |accepted| - |old(accepted)|
    {
      var k, delivered := 0, 0;
      at := 0;
      stopper := Log("", 0, 0, 0);
      while k < |logs|
        invariant 0 <= k <= |logs| && Recorded() && faults == old(faults) && unavailable == old(unavailable)
        invariant old(attempts) <= attempts && old(accepted) <= accepted && old(refused) <= refused
        invariant delivered == |accepted| - |old(accepted)|
        invariant HandledBelow(settings, chain, accepted, refused, first)
        invariant HandledUpTo(settings, logs, k, accepted, refused)
      {
        var request := logs[k];
        k := k + 1;
        EarlierAreHandled(settings, chain, logs, first, last, k - 1, accepted, refused);
        var workflow := WorkflowFor(settings, request);
        if workflow.None? { continue; }
        WorkflowMeaning(settings, request, workflow.value);
        var outcome := Deliver(request, workflow.value);
        if outcome.DeliverThrew? { return Crashed, at, request; }
        if outcome.Unavailable? { return Stopped(delivered), request.blockNumber, request; }
        if outcome.Accepted? { delivered := delivered + 1; }
      }
      RangeIsHandled(settings, chain, logs, first, last, accepted, refused);
      pass := Done(delivered);
    }

    /** One turn of the scan: a range is read, delivered, and the cursor saved behind what is handled. */
    method DeliverAndSave(next: int, toBlock: int, ghost finalized: int) returns (pass: Pass, ghost stopper: Log)
      requires Valid() && Next() == next <= toBlock <= finalized && toBlock - next < settings.logRangeBlocks
      modifies this
      ensures Valid() && Next() >= next
      ensures old(attempts) <= attempts && old(accepted) <= accepted && old(refused) <= refused
      ensures !pass.Crashed? ==> pass.delivered == |accepted| - |old(accepted)|
      ensures pass.Done? ==> Next() == toBlock + 1
      ensures pass.Stopped? ==> cursor == Some(stopper.blockNumber) && Starts(settings, chain, stopper)
      ensures faults == old(faults) + (if pass.Crashed? then 1 else 0)
      ensures !pass.Crashed? ==> unavailable == if pass.Stopped? then old(unavailable) + [stopper] else old(unavailable)
    {
      stopper := Log("", 0, 0, 0);
      var logs := TransferRequests(next, toBlock, finalized);
      if logs.None? { return Crashed, stopper; }
      var at;
      pass, at, stopper := DeliverRange(logs.value, next, toBlock);
      if pass.Crashed? { return; }
      var saved := SaveCursor(if pass.Stopped? then at else toBlock + 1);
      if !saved { pass := Crashed; }
    }

    /**
     Delivers everything up to the finalized block. At whatever call it crashes, no request below the saved cursor is
     left unhandled, the cursor has not gone back, and first attempts are in chain order. It always ends: Done, it has
     handled every request up to the finalized block; Stopped, Studio was unavailable for the request at the cursor;
     Crashed, a call threw.
     */
    method RunStarts(finalized: int) returns (pass: Pass)
      requires Valid()
      modifies this
      ensures Valid() && Next() >= old(Next())
      ensures old(attempts) <= attempts && old(accepted) <= accepted && old(refused) <= refused
      ensures pass.Done? ==> Next() >= finalized + 1 && HandledBelow(settings, chain, accepted, refused, finalized + 1)
      ensures !pass.Crashed? ==> pass.delivered == |accepted| - |old(accepted)|
      ensures faults == old(faults) + (if pass.Crashed? then 1 else 0)
      ensures pass.Done? ==> unavailable == old(unavailable)
      ensures pass.Stopped? ==> exists request ::
        unavailable == old(unavailable) + [request] && Starts(settings, chain, request) && cursor == Some(request.blockNumber)
    {
      var saved := ReadCursor();
      if saved.None? { return Crashed; }
      var next, delivered := saved.value, 0;
      while next <= finalized
        invariant Valid() && Next() == next >= old(Next()) && faults == old(faults) && unavailable == old(unavailable)
        invariant old(attempts) <= attempts && old(accepted) <= accepted && old(refused) <= refused
        invariant delivered == |accepted| - |old(accepted)|
        decreases finalized - next
      {
        var toBlock := if next + settings.logRangeBlocks - 1 < finalized then next + settings.logRangeBlocks - 1 else finalized;
        var range, stopper := DeliverAndSave(next, toBlock, finalized);
        if range.Crashed? { return Crashed; }
        if range.Stopped? { return Stopped(delivered + range.delivered); }
        delivered := delivered + range.delivered;
        next := toBlock + 1;
      }
      pass := Done(delivered);
    }
  }
}
