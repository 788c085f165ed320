/** Why the Room bridge stops asking: every forward that returns uses up an attempt. */
module BridgeProgress {
  import opened Basics
  import opened ReportSignatures
  import opened Bridge
  import opened BridgeBatches
  import opened BridgeSafety

  /** How often a request may still be asked. */
  function Weight(c: Answers, r: Request): nat
    requires c.Cre?
  {
    if r.reply.Some? || r.attempts >= c.maxAttempts then 0 else c.maxAttempts - r.attempts
  }

  function Remaining(c: Answers, requests: seq<Request>): nat
    requires c.Cre?
  {
    if requests == [] then 0 else Weight(c, requests[0]) + Remaining(c, requests[1..])
  }

  lemma {:induction false} RemainingEach(c: Answers, requests: seq<Request>, f: Request -> Request)
    requires c.Cre? && forall r :: r in requests ==> Weight(c, f(r)) <= Weight(c, r)
    ensures Remaining(c, Each(requests, f)) <= Remaining(c, requests)
    ensures (exists r :: r in requests && Weight(c, f(r)) < Weight(c, r)) ==> Remaining(c, Each(requests, f)) < Remaining(c, requests)
  {
    if requests != [] {
      assert Each(requests, f)[1..] == Each(requests[1..], f);
      RemainingEach(c, requests[1..], f);
      if r :| r in requests && Weight(c, f(r)) < Weight(c, r) {
        if r != requests[0] { assert r in requests[1..]; }
      }
    }
  }

  lemma {:induction false} RemainingDrop(c: Answers, now: int, requests: seq<Request>)
    requires c.Cre?
    ensures Remaining(c, DropExpired(now, requests)) <= Remaining(c, requests)
  {
    if requests != [] {
      RemainingDrop(c, now, requests[1..]);
      var rest := DropExpired(now, requests[1..]);
      assert [] + rest == rest && ([requests[0]] + rest)[1..] == rest;
    }
  }

  /** Some request of the batch in flight has no reply yet. */
  ghost predicate AwaitsReply(s: State) {
    s.flight.Some? && exists r :: r in s.requests && r.id in s.flight.value.batch && r.reply.None?
  }

  /** Forwards that returned, attempts that remain, and one more for a batch whose attempts its replies already saved. */
  ghost function Potential(c: Answers, s: State): nat
    requires c.Cre?
  {
    s.returned + Remaining(c, s.requests) + (if s.flight.Some? && !AwaitsReply(s) then 1 else 0)
  }

  lemma PumpPotential(c: Answers, s: State, now: int)
    requires c.Cre?
    ensures Potential(c, DoPumpCre(c, s, now)) <= Potential(c, s)
  {
    if s.flight.None? {
      var s' := DoPumpCre(c, s, now);
      var kept := DropExpired(now, s.requests);
      RemainingDrop(c, now, s.requests);
      RemainingEach(c, kept, r => GiveUp(c, now, r));
      if s'.flight.Some? {
        ChosenIsFair(c, s.nextRunAt, s'.requests, now);
        var due := DueRequests(c, s.nextRunAt, s'.requests, now);
        var first := Choose(due, due[0].publishOnchain).members[0];
        IdsContain(Choose(due, due[0].publishOnchain).members, first);
        assert first in s'.requests && first.id in s'.flight.value.batch && first.reply.None?;
      }
    }
  }

  lemma ReportPotential(c: Answers, foreign: Foreign, s: State, signed: SignedReport, signers: Option<SignerSet>, accepted: seq<Address>)
    requires Inv(c, foreign, s) && c.Cre?
    ensures Potential(c, DoTakeReport(c, foreign, s, signed, signers, accepted)) <= Potential(c, s)
  {
    if MayTake(c, foreign, s, signed, signers, accepted) {
      var s' := DoTakeReport(c, foreign, s, signed, signers, accepted);
      var (header, report) := foreign.parse(signed.rawReport).value;
      var view := SignatureView(signers, accepted);
      var f := r => AnswerFrom(foreign, signed, header, report, view, r);
      RemainingEach(c, s.requests, f);
      if AwaitsReply(s) && !AwaitsReply(s') {
        var r :| r in s.requests && r.id in s.flight.value.batch && r.reply.None?;
        assert RequestInv(c, foreign, s, r);
        EachAt(s.requests, f);
        var i :| 0 <= i < |s.requests| && s.requests[i] == r;
        assert f(r) in s'.requests by { assert s'.requests[i] == f(r); }
        assert Weight(c, f(r)) < Weight(c, r);
      }
    }
  }

  lemma ReturnPotential(c: Answers, foreign: Foreign, s: State)
    requires Inv(c, foreign, s) && c.Cre?
    ensures Potential(c, DoForwardReturned(s)) <= Potential(c, s)
  {
    if s.flight.Some? {
      var f := r => Forwarded(s.flight.value.now, s.flight.value.batch, r);
      RemainingEach(c, s.requests, f);
      if AwaitsReply(s) {
        var r :| r in s.requests && r.id in s.flight.value.batch && r.reply.None?;
        assert RequestInv(c, foreign, s, r);
        assert Weight(c, f(r)) < Weight(c, r);
      }
    }
  }

  lemma StepPotential(c: Answers, foreign: Foreign, s: State, event: Event)
    requires Inv(c, foreign, s) && c.Cre? && !event.Deliver?
    ensures Potential(c, Step(c, foreign, s, event)) <= Potential(c, s)
  {
    match event
    case Deliver(_, _) =>
    case ReadSigners(_, _) =>
    case TakeReport(signed, signers, accepted) => ReportPotential(c, foreign, s, signed, signers, accepted);
    case PumpCre(now) => PumpPotential(c, s, now);
    case ForwardReturned => ReturnPotential(c, foreign, s);
    case ForwardThrew =>
    case PumpContract(_) =>
    case Found(_) | Opened(_) | Waiting | CallFailed | PassEnds =>
  }

  lemma {:induction false} ExecutePotential(c: Answers, foreign: Foreign, s: State, trace: seq<Event>)
    requires Configured(c) && Inv(c, foreign, s) && c.Cre?
    requires forall k :: 0 <= k < |trace| ==> !trace[k].Deliver?
    ensures Potential(c, Execute(c, foreign, s, trace)) <= Potential(c, s)
    decreases |trace|
  {
    if trace != [] {
      StepInv(c, foreign, s, trace[0]);
      StepPotential(c, foreign, s, trace[0]);
      ExecutePotential(c, foreign, Step(c, foreign, s, trace[0]), trace[1..]);
    }
  }

  /**
   Without new arrivals, every forward that returns takes at least one attempt off what remains, however reports,
   failed forwards and pumps fall in between; so their number is bounded by the attempts that remain at the start.
   */
  lemma EveryReturnedForwardUsesAnAttempt(c: Answers, foreign: Foreign, s: State, trace: seq<Event>)
    requires Configured(c) && Inv(c, foreign, s) && c.Cre? && s.flight.None?
    requires forall k :: 0 <= k < |trace| ==> !trace[k].Deliver?
    ensures var s' := Execute(c, foreign, s, trace);
            Remaining(c, s'.requests) + (s'.returned - s.returned) <= Remaining(c, s.requests)
  {
    ExecutePotential(c, foreign, s, trace);
  }

  /** Once no attempts remain and every last answer is overdue, one pump leaves nothing unanswered. */
  lemma ThenEverythingIsAnswered(c: Answers, foreign: Foreign, s: State, now: int, r: Request)
    requires Configured(c) && Inv(c, foreign, s) && c.Cre? && s.flight.None?
    requires Remaining(c, s.requests) == 0
    requires forall q :: q in s.requests && q.forwardedAt.Some? ==> q.forwardedAt.value + c.retrySeconds <= now
    requires r in DoPumpCre(c, s, now).requests
    ensures r.reply.Some?
  {
    var f := q => GiveUp(c, now, q);
    var kept := DropExpired(now, s.requests);
    DropMeaning(now, s.requests);
    EachAt(kept, f);
    var i :| 0 <= i < |DoPumpCre(c, s, now).requests| && DoPumpCre(c, s, now).requests[i] == r;
    assert kept[i] in s.requests && RequestInv(c, foreign, s, kept[i]);
    NothingWeighs(c, s.requests, kept[i]);
  }

  lemma {:induction false} NothingWeighs(c: Answers, requests: seq<Request>, r: Request)
    requires c.Cre? && Remaining(c, requests) == 0 && r in requests
    ensures Weight(c, r) == 0
  {
    if r != requests[0] { NothingWeighs(c, requests[1..], r); }
  }
}
