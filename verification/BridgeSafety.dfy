/** What every run of the Room bridge keeps. */
module BridgeSafety {
  import opened Basics
  import opened ReportSignatures
  import opened Bridge
  import opened StableSort
  import opened BridgeBatches

  // ----- sequences of requests -----

  lemma {:induction false} EachAt(requests: seq<Request>, f: Request -> Request)
    ensures |Each(requests, f)| == |requests|
    ensures forall i :: 0 <= i < |requests| ==> Each(requests, f)[i] == f(requests[i])
  {
    if requests != [] { EachAt(requests[1..], f); }
  }

  lemma {:induction false} EachFind(requests: seq<Request>, f: Request -> Request, id: string)
    requires forall r :: r in requests ==> f(r).id == r.id
    ensures Find(Each(requests, f), id) ==
      (match Find(requests, id) case Some(r) => Some(f(r)) case None => None)
  {
    if requests != [] {
      assert Each(requests, f)[1..] == Each(requests[1..], f);
      EachFind(requests[1..], f, id);
    }
  }

  lemma {:induction false} FindMeaning(requests: seq<Request>, id: string)
    ensures Find(requests, id).Some? ==> Find(requests, id).value in requests && Find(requests, id).value.id == id
    ensures Find(requests, id).None? ==> forall r :: r in requests ==> r.id != id
  {
    if requests != [] { FindMeaning(requests[1..], id); }
  }

  lemma FindUnique(requests: seq<Request>, r: Request)
    requires UniqueIds(requests) && r in requests
    ensures Find(requests, r.id) == Some(r)
  {
    FindMeaning(requests, r.id);
    var i :| 0 <= i < |requests| && requests[i] == r;
    var j :| 0 <= j < |requests| && requests[j] == Find(requests, r.id).value;
    if i < j { assert requests[i].id != requests[j].id; }
    if j < i { assert requests[j].id != requests[i].id; }
  }

  lemma {:induction false} DropMeaning(now: int, requests: seq<Request>)
    ensures forall r :: r in DropExpired(now, requests) <==> r in requests && !Expired(now, r)
    ensures UniqueIds(requests) ==> UniqueIds(DropExpired(now, requests))
  {
    if requests != [] {
      DropMeaning(now, requests[1..]);
      if UniqueIds(requests) {
        assert UniqueIds(requests[1..]);
        var rest := DropExpired(now, requests[1..]);
        assert forall r :: r in requests[1..] ==> r.id != requests[0].id;
        assert forall k :: 0 <= k < |rest| ==> rest[k] in rest;
      }
    }
  }

  lemma DropFind(now: int, requests: seq<Request>, id: string)
    requires UniqueIds(requests)
    ensures Find(DropExpired(now, requests), id) ==
      (match Find(requests, id) case Some(r) => if Expired(now, r) then None else Some(r) case None => None)
  {
    DropMeaning(now, requests);
    FindMeaning(requests, id);
    FindMeaning(DropExpired(now, requests), id);
    if Find(requests, id).Some? && !Expired(now, Find(requests, id).value) {
      FindUnique(DropExpired(now, requests), Find(requests, id).value);
    }
    if Find(DropExpired(now, requests), id).Some? {
      FindUnique(requests, Find(DropExpired(now, requests), id).value);
    }
  }

  lemma {:induction false} AppendFind(requests: seq<Request>, last: Request, id: string)
    ensures Find(requests + [last], id) ==
      if Find(requests, id).Some? then Find(requests, id) else if last.id == id then Some(last) else None
  {
    if requests != [] {
      assert (requests + [last])[1..] == requests[1..] + [last];
      AppendFind(requests[1..], last, id);
    } else {
      assert (requests + [last])[1..] == [];
    }
  }

  lemma AnswerEachAt(foreign: Foreign, signed: SignedReport, header: Header, report: Report, view: Signatures, requests: seq<Request>)
    ensures |AnswerEach(foreign, signed, header, report, view, requests)| == |requests|
    ensures forall i :: 0 <= i < |requests| ==>
      AnswerEach(foreign, signed, header, report, view, requests)[i] == AnswerFrom(foreign, signed, header, report, view, requests[i])
  {
    EachAt(requests, r => AnswerFrom(foreign, signed, header, report, view, r));
  }

  lemma GiveUpEachAt(c: Answers, now: int, requests: seq<Request>)
    requires c.Cre?
    ensures |GiveUpEach(c, now, requests)| == |requests|
    ensures forall i :: 0 <= i < |requests| ==> GiveUpEach(c, now, requests)[i] == GiveUp(c, now, requests[i])
  {
    EachAt(requests, r => GiveUp(c, now, r));
  }

  lemma DropNext(now: int, requests: seq<Request>, kept: seq<Request>, i: nat)
    requires i < |requests|
    ensures kept + DropExpired(now, requests[i..]) ==
            (if Expired(now, requests[i]) then kept else kept + [requests[i]]) + DropExpired(now, requests[i + 1..])
  {
    var rest := DropExpired(now, requests[i + 1..]);
    assert requests[i..][1..] == requests[i + 1..];
    assert kept + ([requests[i]] + rest) == (kept + [requests[i]]) + rest && [] + rest == rest;
  }

  // ----- a request's life: what it asks never changes, and a reply it has never changes -----

  ghost predicate Evolves(r: Request, r': Request) {
    && r'.id == r.id && r'.room == r.room && r'.receivedAt == r.receivedAt
    && r'.attestation == r.attestation && r'.publishOnchain == r.publishOnchain
    && r.attempts <= r'.attempts
    && (r.reply.Some? ==> r'.reply == r.reply)
    && (r.reply.None? && r'.reply.Some? ==> r'.reply.value.request == r.attestation)
  }

  ghost predicate IsPump(event: Event) { event.PumpCre? || event.PumpContract? }

  /** A request survives a step and evolves, or a pump found it past its retention. */
  ghost predicate Kept(s: State, event: Event, s': State, id: string) {
    Find(s.requests, id).Some? ==>
      (match Find(s'.requests, id)
       case Some(r') => Evolves(Find(s.requests, id).value, r')
       case None => IsPump(event) && Expired(event.now, Find(s.requests, id).value))
  }

  lemma EachKept(s: State, event: Event, s': State, f: Request -> Request, id: string)
    requires forall r :: r in s.requests ==> Evolves(r, f(r))
    requires s'.requests == Each(s.requests, f)
    ensures Kept(s, event, s', id)
  {
    EachFind(s.requests, f, id);
    FindMeaning(s.requests, id);
  }

  lemma PumpKept(s: State, event: Event, s': State, f: Request -> Request, id: string)
    requires IsPump(event) && UniqueIds(s.requests)
    requires forall r :: r in s.requests ==> Evolves(r, f(r))
    requires s'.requests == Each(DropExpired(event.now, s.requests), f)
    ensures Kept(s, event, s', id)
  {
    DropMeaning(event.now, s.requests);
    DropFind(event.now, s.requests, id);
    EachFind(DropExpired(event.now, s.requests), f, id);
    FindMeaning(s.requests, id);
  }

  lemma DeliverKept(s: State, asked: Asked, now: int, id: string)
    ensures Kept(s, Deliver(asked, now), DoDeliver(s, asked, now), id)
  {
    AppendFind(s.requests, NewRequest(asked, now), id);
  }

  lemma ReportKept(c: Answers, foreign: Foreign, s: State, event: Event, id: string)
    requires event.TakeReport?
    ensures Kept(s, event, DoTakeReport(c, foreign, s, event.signed, event.signers, event.accepted), id)
  {
    var s' := DoTakeReport(c, foreign, s, event.signed, event.signers, event.accepted);
    if MayTake(c, foreign, s, event.signed, event.signers, event.accepted) {
      var (header, report) := foreign.parse(event.signed.rawReport).value;
      var view := SignatureView(event.signers, event.accepted);
      EachKept(s, event, s', r => AnswerFrom(foreign, event.signed, header, report, view, r), id);
    }
  }

  lemma PumpCreKept(c: Answers, s: State, now: int, id: string)
    requires UniqueIds(s.requests)
    ensures Kept(s, PumpCre(now), DoPumpCre(c, s, now), id)
  {
    if c.Cre? && s.flight.None? { PumpKept(s, PumpCre(now), DoPumpCre(c, s, now), r => GiveUp(c, now, r), id); }
  }

  lemma PumpContractKept(c: Answers, s: State, now: int, id: string)
    requires UniqueIds(s.requests)
    ensures Kept(s, PumpContract(now), DoPumpContract(c, s, now), id)
  {
    if c.Contract? && s.pass.None? { PumpKept(s, PumpContract(now), DoPumpContract(c, s, now), r => NotRecordedInTime(c, now, r), id); }
  }

  lemma VisitKept(s: State, event: Event, f: Request -> Request, id: string)
    requires forall r: Request :: r.reply.None? ==> Evolves(r, f(r))
    ensures Kept(s, event, Visit(s, f), id)
  {
    if s.pass.Some? && s.pass.value.todo != [] {
      var next := s.pass.value.todo[0];
      EachKept(s, event, Visit(s, f), (r: Request) => if r.id == next && r.reply.None? then f(r) else r, id);
    }
  }

  lemma PassKept(s: State, event: Event, id: string)
    requires event.Found? || event.Opened? || event.Waiting? || event.CallFailed? || event.PassEnds?
    ensures Kept(s, event, PassStep(s, event), id)
  {
    if s.pass.Some? {
      match event
      case Found(answer) =>
        VisitKept(s, event, (r: Request) => if Subject(answer) == r.attestation then Answered(r, Recorded(r.attestation, answer)) else r, id);
      case Opened(block) => VisitKept(s, event, r => Open(s.pass.value.now, block, r), id);
      case Waiting => VisitKept(s, event, r => r, id);
      case CallFailed => VisitKept(s, event, r => Failed(r), id);
      case PassEnds =>
    }
  }

  lemma StepKept(c: Answers, foreign: Foreign, s: State, event: Event, id: string)
    requires UniqueIds(s.requests)
    ensures Kept(s, event, Step(c, foreign, s, event), id)
  {
    match event
    case Deliver(asked, now) => DeliverKept(s, asked, now, id);
    case ReadSigners(_, _) =>
    case TakeReport(_, _, _) => ReportKept(c, foreign, s, event, id);
    case PumpCre(now) => PumpCreKept(c, s, now, id);
    case ForwardReturned =>
      if s.flight.Some? {
        EachKept(s, event, DoForwardReturned(s), r => Forwarded(s.flight.value.now, s.flight.value.batch, r), id);
      }
    case ForwardThrew =>
    case PumpContract(now) => PumpContractKept(c, s, now, id);
    case Found(_) | Opened(_) | Waiting | CallFailed | PassEnds => PassKept(s, event, id);
  }

  // ----- the invariant -----

  /** What the configuration schema demands. */
  ghost predicate Configured(c: Answers) {
    c.Cre? ==> c.paceSeconds >= 30 && c.maxAttempts >= 1
  }

  /** A DON-attested reply answers its request from a report of the configured workflow that a quorum signed. */
  ghost predicate QuorumBacked(c: Answers, foreign: Foreign, read: set<(nat, SignerSet)>, reply: Reply)
  {
    && c.Cre? && reply.Attested?
    && foreign.parse(reply.report.rawReport).Some?
    && foreign.parse(reply.report.rawReport).value.0 == reply.header && reply.header.workflow == c.workflow
    && AnswerFor(reply.request, foreign.parse(reply.report.rawReport).value.1) == Some(reply.answer)
    && (c.registry <==> reply.signatures.Registry?)
    && (reply.signatures.Registry? ==> SignedByDon(foreign, read, reply.header.donId, reply.report, reply.signatures))
  }

  ghost predicate SignedByDon(foreign: Foreign, read: set<(nat, SignerSet)>, donId: nat, report: SignedReport, view: Signatures)
    requires view.Registry?
  {
    exists signers :: (donId, signers) in read && signers.f == view.f && Quorum(report, signers, foreign.recover, view.signers)
  }

  /** A reply for the request was attested like any other, but is larger than a Room takes. */
  ghost predicate OnlyTooLarge(c: Answers, foreign: Foreign, read: set<(nat, SignerSet)>, a: Attestation) {
    exists reply: Reply :: QuorumBacked(c, foreign, read, reply) && reply.request == a && foreign.replyBytes(reply) > MAX_REPLY_BYTES
  }

  ghost predicate SoundReply(c: Answers, foreign: Foreign, read: set<(nat, SignerSet)>, r: Request) {
    r.reply.Some? ==>
      && r.reply.value.request == r.attestation
      && match r.reply.value
         case Attested(_, _, _, _, _) => QuorumBacked(c, foreign, read, r.reply.value) && foreign.replyBytes(r.reply.value) <= MAX_REPLY_BYTES
         case Recorded(a, answer) => c.Contract? && Subject(answer) == a
         case Unanswered(_, reason) =>
           match reason
           case NoFinishedReceipt => c.Cre? && r.attempts >= c.maxAttempts
           case ReplyTooLarge => OnlyTooLarge(c, foreign, read, r.attestation)
           case NotRecorded => c.Contract? && r.forwardedAt.Some?
           case ChainUnavailable => c.Contract? && r.attempts == MAX_CHAIN_FAILURES
  }

  /** Nobody is asked more often than allowed, counting the batch whose outcome is awaited. */
  ghost predicate Bounded(c: Answers, flight: Option<Flight>, r: Request) {
    match c
    case Cre(_, _, _, _, maxAttempts) =>
      && r.attempts <= maxAttempts && (r.attempts > 0 ==> r.forwardedAt.Some?)
      && (flight.Some? && r.id in flight.value.batch ==> r.attempts < maxAttempts)
    case Contract(_, _) => r.attempts <= MAX_CHAIN_FAILURES && (r.reply.None? ==> r.attempts < MAX_CHAIN_FAILURES)
  }

  ghost predicate RequestInv(c: Answers, foreign: Foreign, s: State, r: Request) {
    SoundReply(c, foreign, s.read, r) && Bounded(c, s.flight, r)
  }

  ghost predicate Paced(c: Answers, s: State) {
    c.Cre? ==>
      && (forall i, j :: 0 <= i < j < |s.forwards| ==> s.forwards[j] - s.forwards[i] >= c.paceSeconds)
      && (forall i :: 0 <= i < |s.forwards| ==> s.nextRunAt - s.forwards[i] >= c.paceSeconds)
  }

  ghost predicate Inv(c: Answers, foreign: Foreign, s: State) {
    && UniqueIds(s.requests) && |s.reports| <= MAX_REMEMBERED_REPORTS && Paced(c, s)
    && (forall r :: r in s.requests ==> RequestInv(c, foreign, s, r))
    && (s.flight.Some? ==> c.Cre?) && (s.pass.Some? ==> c.Contract?)
  }

  lemma EachInv(c: Answers, foreign: Foreign, s: State, requests: seq<Request>, s': State, f: Request -> Request)
    requires UniqueIds(requests) && s'.requests == Each(requests, f)
    requires forall r :: r in requests ==> f(r).id == r.id && RequestInv(c, foreign, s', f(r))
    ensures UniqueIds(s'.requests) && forall r :: r in s'.requests ==> RequestInv(c, foreign, s', r)
  {
    EachAt(requests, f);
  }

  lemma ReportInv(c: Answers, foreign: Foreign, s: State, signed: SignedReport, signers: Option<SignerSet>, accepted: seq<Address>)
    requires Inv(c, foreign, s)
    ensures Inv(c, foreign, DoTakeReport(c, foreign, s, signed, signers, accepted))
  {
    var s' := DoTakeReport(c, foreign, s, signed, signers, accepted);
    if MayTake(c, foreign, s, signed, signers, accepted) {
      var (header, report) := foreign.parse(signed.rawReport).value;
      var view := SignatureView(signers, accepted);
      var f := r => AnswerFrom(foreign, signed, header, report, view, r);
      forall r | r in s.requests ensures f(r).id == r.id && RequestInv(c, foreign, s', f(r)) {
        assert RequestInv(c, foreign, s, r);
        if f(r) != r {
          AnswerForMeaning(r.attestation, report);
          if view.Registry? { assert SignedByDon(foreign, s.read, header.donId, signed, view); }
          assert QuorumBacked(c, foreign, s.read, Attested(r.attestation, AnswerFor(r.attestation, report).value, view, header, signed));
        }
      }
      EachInv(c, foreign, s, s.requests, s', f);
    }
  }

  lemma PumpCreInv(c: Answers, foreign: Foreign, s: State, now: int)
    requires Configured(c) && Inv(c, foreign, s)
    ensures Inv(c, foreign, DoPumpCre(c, s, now))
  {
    var s' := DoPumpCre(c, s, now);
    if c.Cre? && s.flight.None? {
      var f := r => GiveUp(c, now, r);
      var kept := DropExpired(now, s.requests);
      DropMeaning(now, s.requests);
      var requests := GiveUpEach(c, now, kept);
      var idle := s.(requests := requests);
      forall r | r in kept ensures f(r).id == r.id && RequestInv(c, foreign, idle, f(r)) { assert RequestInv(c, foreign, s, r); }
      EachInv(c, foreign, s, kept, idle, f);
      var due := DueRequests(c, s.nextRunAt, requests, now);
      if due != [] { FlightBounded(c, foreign, s, requests, now); }
    }
  }

  /** A batch is chosen among requests that may be asked once more. */
  lemma FlightBounded(c: Answers, foreign: Foreign, s: State, requests: seq<Request>, now: int)
    requires c.Cre? && UniqueIds(requests) && s.flight.None?
    requires forall r :: r in requests ==> RequestInv(c, foreign, s, r)
    requires DueRequests(c, s.nextRunAt, requests, now) != []
    ensures var due := DueRequests(c, s.nextRunAt, requests, now);
            var flight := Some(Flight(now, Ids(Choose(due, due[0].publishOnchain).members)));
            forall r :: r in requests ==> RequestInv(c, foreign, s.(flight := flight), r)
  {
    var due := DueRequests(c, s.nextRunAt, requests, now);
    var chosen := Choose(due, due[0].publishOnchain);
    DueMeaning(c, s.nextRunAt, requests, now);
    ChooseMeaning(due, due[0].publishOnchain);
    forall r | r in requests && r.id in Ids(chosen.members) ensures r.attempts < c.maxAttempts {
      var m := IdsMeaning(chosen.members, r.id);
      FindUnique(requests, r);
      FindUnique(requests, m);
    }
    forall r | r in requests ensures RequestInv(c, foreign, s.(flight := Some(Flight(now, Ids(chosen.members)))), r) {
      assert RequestInv(c, foreign, s, r);
    }
  }

  lemma DeliverInv(c: Answers, foreign: Foreign, s: State, asked: Asked, now: int)
    requires Configured(c) && Inv(c, foreign, s)
    ensures Inv(c, foreign, DoDeliver(s, asked, now))
  {
    var s' := DoDeliver(s, asked, now);
    FindMeaning(s.requests, asked.id);
    forall r | r in s'.requests ensures RequestInv(c, foreign, s', r) {
      if r in s.requests { assert RequestInv(c, foreign, s, r); } else { assert r == NewRequest(asked, now); }
    }
  }

  lemma ReadInv(c: Answers, foreign: Foreign, s: State, donId: nat, current: SignerSet)
    requires Inv(c, foreign, s)
    ensures Inv(c, foreign, s.(read := s.read + {(donId, current)}))
  {
    var s' := s.(read := s.read + {(donId, current)});
    forall r | r in s.requests ensures RequestInv(c, foreign, s', r) { ReadMore(c, foreign, s, s', r); }
  }

  lemma ReadMore(c: Answers, foreign: Foreign, s: State, s': State, r: Request)
    requires RequestInv(c, foreign, s, r) && s.read <= s'.read && s'.flight == s.flight
    ensures RequestInv(c, foreign, s', r)
  {
    if r.reply.Some? && r.reply.value.Attested? { BackedByMore(c, foreign, s.read, s'.read, r.reply.value); }
    if r.reply.Some? && r.reply.value.Unanswered? && r.reply.value.reason.ReplyTooLarge? {
      var reply: Reply :| QuorumBacked(c, foreign, s.read, reply) && reply.request == r.attestation && foreign.replyBytes(reply) > MAX_REPLY_BYTES;
      BackedByMore(c, foreign, s.read, s'.read, reply);
    }
  }

  lemma BackedByMore(c: Answers, foreign: Foreign, read: set<(nat, SignerSet)>, read': set<(nat, SignerSet)>, reply: Reply)
    requires QuorumBacked(c, foreign, read, reply) && read <= read'
    ensures QuorumBacked(c, foreign, read', reply)
  {
    if reply.signatures.Registry? {
      var signers :| (reply.header.donId, signers) in read && signers.f == reply.signatures.f
                     && Quorum(reply.report, signers, foreign.recover, reply.signatures.signers);
      assert (reply.header.donId, signers) in read';
    }
  }

  lemma ReturnedInv(c: Answers, foreign: Foreign, s: State)
    requires Inv(c, foreign, s)
    ensures Inv(c, foreign, DoForwardReturned(s))
  {
    if s.flight.Some? {
      var s' := DoForwardReturned(s);
      var f := r => Forwarded(s.flight.value.now, s.flight.value.batch, r);
      forall r | r in s.requests ensures f(r).id == r.id && RequestInv(c, foreign, s', f(r)) { assert RequestInv(c, foreign, s, r); }
      EachInv(c, foreign, s, s.requests, s', f);
    }
  }

  lemma ThrewInv(c: Answers, foreign: Foreign, s: State)
    requires Inv(c, foreign, s)
    ensures Inv(c, foreign, s.(flight := None))
  {
    forall r | r in s.requests ensures RequestInv(c, foreign, s.(flight := None), r) { assert RequestInv(c, foreign, s, r); }
  }

  lemma PumpContractInv(c: Answers, foreign: Foreign, s: State, now: int)
    requires Inv(c, foreign, s)
    ensures Inv(c, foreign, DoPumpContract(c, s, now))
  {
    var s' := DoPumpContract(c, s, now);
    if c.Contract? && s.pass.None? {
      var f := r => NotRecordedInTime(c, now, r);
      DropMeaning(now, s.requests);
      var kept := DropExpired(now, s.requests);
      forall r | r in kept ensures f(r).id == r.id && RequestInv(c, foreign, s', f(r)) { assert RequestInv(c, foreign, s, r); }
      EachInv(c, foreign, s, kept, s', f);
    }
  }

  lemma VisitInv(c: Answers, foreign: Foreign, s: State, f: Request -> Request)
    requires Inv(c, foreign, s) && c.Contract?
    requires forall r :: r in s.requests && r.reply.None? ==> f(r).id == r.id && RequestInv(c, foreign, s, f(r))
    ensures Inv(c, foreign, Visit(s, f))
  {
    if s.pass.Some? && s.pass.value.todo != [] {
      var s' := Visit(s, f);
      var next := s.pass.value.todo[0];
      var g := (r: Request) => if r.id == next && r.reply.None? then f(r) else r;
      forall r | r in s.requests ensures g(r).id == r.id && RequestInv(c, foreign, s', g(r)) { assert RequestInv(c, foreign, s, r); assert RequestInv(c, foreign, s, g(r)); }
      EachInv(c, foreign, s, s.requests, s', g);
    }
  }

  lemma PassInv(c: Answers, foreign: Foreign, s: State, event: Event)
    requires Inv(c, foreign, s)
    requires event.Found? || event.Opened? || event.Waiting? || event.CallFailed? || event.PassEnds?
    ensures Inv(c, foreign, PassStep(s, event))
  {
    if s.pass.Some? {
      forall r | r in s.requests ensures RequestInv(c, foreign, s, r) { }
      match event
      case Found(answer) =>
        VisitInv(c, foreign, s, (r: Request) => if Subject(answer) == r.attestation then Answered(r, Recorded(r.attestation, answer)) else r);
      case Opened(block) => VisitInv(c, foreign, s, r => Open(s.pass.value.now, block, r));
      case Waiting => VisitInv(c, foreign, s, r => r);
      case CallFailed => VisitInv(c, foreign, s, r => Failed(r));
      case PassEnds =>
        forall r | r in s.requests ensures RequestInv(c, foreign, s.(pass := None), r) { assert RequestInv(c, foreign, s, r); }
    }
  }

  lemma StepInv(c: Answers, foreign: Foreign, s: State, event: Event)
    requires Configured(c) && Inv(c, foreign, s)
    ensures Inv(c, foreign, Step(c, foreign, s, event))
  {
    match event
    case Deliver(asked, now) => DeliverInv(c, foreign, s, asked, now);
    case ReadSigners(donId, current) => ReadInv(c, foreign, s, donId, current);
    case TakeReport(signed, signers, accepted) => ReportInv(c, foreign, s, signed, signers, accepted);
    case PumpCre(now) => PumpCreInv(c, foreign, s, now);
    case ForwardReturned => ReturnedInv(c, foreign, s);
    case ForwardThrew => ThrewInv(c, foreign, s);
    case PumpContract(now) => PumpContractInv(c, foreign, s, now);
    case Found(_) | Opened(_) | Waiting | CallFailed | PassEnds => PassInv(c, foreign, s, event);
  }

  lemma {:induction false} ExecuteInv(c: Answers, foreign: Foreign, s: State, trace: seq<Event>)
    requires Configured(c) && Inv(c, foreign, s)
    ensures Inv(c, foreign, Execute(c, foreign, s, trace))
    decreases |trace|
  {
    if trace != [] {
      StepInv(c, foreign, s, trace[0]);
      ExecuteInv(c, foreign, Step(c, foreign, s, trace[0]), trace[1..]);
    }
  }

  // ----- what a report does to the requests -----

  /** The reply of a report's entry to a request: with the report, its header and who signed it. */
  function AttestedBy(signed: SignedReport, header: Header, signers: Option<SignerSet>, accepted: seq<Address>, a: Attestation, answer: Answer): Reply {
    match signers
    case Some(set_) => Attested(a, answer, Registry(set_.f, accepted), header, signed)
    case None => Attested(a, answer, Unverified, header, signed)
  }

  /** What a report makes of one request: answered by its first entry about it, when there is one and the reply fits a Room. */
  ghost predicate AnsweredByReport(foreign: Foreign, signed: SignedReport, signers: Option<SignerSet>, accepted: seq<Address>, r: Request, r': Request)
    requires foreign.parse(signed.rawReport).Some?
  {
    var (header, report) := foreign.parse(signed.rawReport).value;
    if r.reply.Some? || !(exists answer :: Contains(report, answer) && Subject(answer) == r.attestation) then r' == r
    else exists answer ::
      && FirstAbout(report, r.attestation, answer)
      && r' == r.(reply := Some(if foreign.replyBytes(AttestedBy(signed, header, signers, accepted, r.attestation, answer)) <= 65_536
                                then AttestedBy(signed, header, signers, accepted, r.attestation, answer)
                                else Unanswered(r.attestation, ReplyTooLarge)))
  }

  lemma AnswerFromMeaning(foreign: Foreign, signed: SignedReport, signers: Option<SignerSet>, accepted: seq<Address>, r: Request)
    requires foreign.parse(signed.rawReport).Some?
    ensures var (header, report) := foreign.parse(signed.rawReport).value;
            AnsweredByReport(foreign, signed, signers, accepted, r, AnswerFrom(foreign, signed, header, report, SignatureView(signers, accepted), r))
  {
    AnswerForMeaning(r.attestation, foreign.parse(signed.rawReport).value.1);
  }

  // ----- the theorems -----

  /** A pump found the request past its retention, at this step of the run. */
  ghost predicate DroppedAt(c: Answers, foreign: Foreign, s: State, trace: seq<Event>, id: string, r: Request, k: int) {
    0 <= k < |trace| && IsPump(trace[k]) && Expired(trace[k].now, r) && Find(Execute(c, foreign, s, trace[..k + 1]).requests, id).None?
  }

  lemma OneStep(c: Answers, foreign: Foreign, s: State, trace: seq<Event>)
    requires trace != []
    ensures Execute(c, foreign, s, trace[..1]) == Step(c, foreign, s, trace[0])
  {
    assert trace[..1][1..] == [];
  }

  /** In every interleaving a reply, once set, stays as it is until its request is past retention and dropped. */
  lemma {:induction false} RepliesAreWriteOnce(c: Answers, foreign: Foreign, s: State, trace: seq<Event>, id: string)
    requires Configured(c) && Inv(c, foreign, s)
    requires Find(s.requests, id).Some? && Find(s.requests, id).value.reply.Some?
    ensures var r, s' := Find(s.requests, id).value, Execute(c, foreign, s, trace);
            || (Find(s'.requests, id).Some? && Find(s'.requests, id).value.reply == r.reply && Find(s'.requests, id).value.receivedAt == r.receivedAt)
            || exists k :: DroppedAt(c, foreign, s, trace, id, r, k)
    decreases |trace|
  {
    if trace != [] {
      var r := Find(s.requests, id).value;
      var next := Step(c, foreign, s, trace[0]);
      StepInv(c, foreign, s, trace[0]);
      StepKept(c, foreign, s, trace[0], id);
      if Find(next.requests, id).None? {
        OneStep(c, foreign, s, trace);
        assert DroppedAt(c, foreign, s, trace, id, r, 0);
      } else {
        RepliesAreWriteOnce(c, foreign, next, trace[1..], id);
        var r1 := Find(next.requests, id).value;
        if k :| DroppedAt(c, foreign, next, trace[1..], id, r1, k) {
          assert trace[..k + 2][1..] == trace[1..][..k + 1];
          assert DroppedAt(c, foreign, s, trace, id, r, k + 1);
        }
      }
    }
  }

  /** With registry signers, every attested reply of every run carries exactly f+1 distinct signers that the registry named. */
  lemma AttestedRepliesAreQuorumBacked(c: Answers, foreign: Foreign, s: State, trace: seq<Event>, id: string)
    requires Configured(c) && Inv(c, foreign, s) && c.Cre? && c.registry
    requires var found := Find(Execute(c, foreign, s, trace).requests, id);
             found.Some? && found.value.reply.Some? && found.value.reply.value.Attested?
    ensures var s' := Execute(c, foreign, s, trace);
            var r := Find(s'.requests, id).value;
            var reply := r.reply.value;
            && reply.request == r.attestation && Subject(reply.answer) == r.attestation
            && reply.header.workflow == c.workflow
            && foreign.parse(reply.report.rawReport).Some?
            && foreign.parse(reply.report.rawReport).value.0 == reply.header
            && Contains(foreign.parse(reply.report.rawReport).value.1, reply.answer)
            && reply.signatures.Registry?
            && |reply.signatures.signers| == reply.signatures.f + 1 && Distinct(reply.signatures.signers)
            && exists signers :: (reply.header.donId, signers) in s'.read && signers.f == reply.signatures.f
                                 && Quorum(reply.report, signers, foreign.recover, reply.signatures.signers)
  {
    ExecuteInv(c, foreign, s, trace);
    var s' := Execute(c, foreign, s, trace);
    FindMeaning(s'.requests, id);
    var r := Find(s'.requests, id).value;
    assert RequestInv(c, foreign, s', r);
    AnswerForMeaning(r.attestation, foreign.parse(r.reply.value.report.rawReport).value.1);
  }

  /** No request is asked more than `maxAttempts` times, and any two forwards are at least `paceSeconds` apart. */
  lemma ForwardingIsBounded(c: Answers, foreign: Foreign, s: State, trace: seq<Event>, id: string, i: nat, j: nat)
    requires Configured(c) && Inv(c, foreign, s) && c.Cre?
    ensures var s' := Execute(c, foreign, s, trace);
            && (Find(s'.requests, id).Some? ==> Find(s'.requests, id).value.attempts <= c.maxAttempts)
            && (i < j < |s'.forwards| ==> s'.forwards[j] - s'.forwards[i] >= c.paceSeconds)
  {
    ExecuteInv(c, foreign, s, trace);
    var s' := Execute(c, foreign, s, trace);
    FindMeaning(s'.requests, id);
    if Find(s'.requests, id).Some? { assert RequestInv(c, foreign, s', Find(s'.requests, id).value); }
  }

  /** The batch leads with the oldest due request, and holds due requests of its kind only. */
  ghost predicate OldestDue(c: Answers, requests: seq<Request>, now: int, batch: Batch) {
    && c.Cre? && batch.members != []
    && (forall r :: r in batch.members ==> r in requests && MayBeAsked(c, now, r) && r.publishOnchain == batch.members[0].publishOnchain)
    && (forall r :: r in requests && MayBeAsked(c, now, r) ==> batch.members[0].receivedAt <= r.receivedAt)
  }

  /** The batch asks for at most seven subjects, each once; a due request of its kind is left out only when it is full of others. */
  ghost predicate FullOfSubjects(c: Answers, requests: seq<Request>, now: int, batch: Batch) {
    && c.Cre? && batch.members != [] && |batch.attest| <= 7
    && (forall key :: key in batch.attest ==> Describe(batch.attest[key]) == key && AskedBy(batch, key))
    && (forall r :: r in batch.members ==> Describe(r.attestation) in batch.attest)
    && (forall r :: r in requests && MayBeAsked(c, now, r) && r.publishOnchain == batch.members[0].publishOnchain && r !in batch.members ==>
          |batch.attest| == 7 && Describe(r.attestation) !in batch.attest)
  }

  lemma ChosenIsFair(c: Answers, nextRunAt: int, requests: seq<Request>, now: int)
    requires c.Cre? && DueRequests(c, nextRunAt, requests, now) != []
    ensures var due := DueRequests(c, nextRunAt, requests, now);
            var batch := Choose(due, due[0].publishOnchain);
            OldestDue(c, requests, now, batch) && FullOfSubjects(c, requests, now, batch) && now >= nextRunAt
  {
    var due := DueRequests(c, nextRunAt, requests, now);
    DueMeaning(c, nextRunAt, requests, now);
    ChooseMeaning(due, due[0].publishOnchain);
    OldestLeads(due, due[0].publishOnchain);
    assert due[0] in due;
    forall r | r in requests && Due(c, now, r) ensures due[0].receivedAt <= r.receivedAt {
      var k :| 0 <= k < |due| && due[k] == r;
    }
  }

  /** A pump that forwards asks for at most MAX_ATTESTATIONS subjects, and never passes over the oldest due request. */
  lemma EachForwardIsFair(c: Answers, s: State, now: int)
    requires c.Cre? && s.flight.None? && DoPumpCre(c, s, now).flight.Some?
    ensures var s' := DoPumpCre(c, s, now);
            exists batch: Batch ::
              s'.flight.value == Flight(now, Ids(batch.members)) && now >= s.nextRunAt
              && OldestDue(c, s'.requests, now, batch) && FullOfSubjects(c, s'.requests, now, batch)
  {
    ChosenIsFair(c, s.nextRunAt, DoPumpCre(c, s, now).requests, now);
  }

  /** What the pump leaves waiting may not be asked yet: it was asked too recently, or often enough, or the pace forbids it. */
  lemma NothingDueIsIdle(c: Answers, foreign: Foreign, s: State, now: int, r: Request)
    requires Configured(c) && Inv(c, foreign, s) && c.Cre? && s.flight.None?
    requires DoPumpCre(c, s, now).flight.None? && r in DoPumpCre(c, s, now).requests && r.reply.None?
    ensures now < s.nextRunAt || (r.forwardedAt.Some? && now < r.forwardedAt.value + c.retrySeconds)
  {
    var s' := DoPumpCre(c, s, now);
    PumpCreInv(c, foreign, s, now);
    assert RequestInv(c, foreign, s', r);
    DueMeaning(c, s.nextRunAt, s'.requests, now);
    var f := r => GiveUp(c, now, r);
    EachAt(DropExpired(now, s.requests), f);
    var i :| 0 <= i < |s'.requests| && s'.requests[i] == r;
    assert !Exhausted(c, now, r);
  }

  // ----- a contract pump visits each unanswered request once -----

  ghost predicate Unanswers(requests: seq<Request>, id: string) {
    Find(requests, id).Some? && Find(requests, id).value.reply.None?
  }

  ghost predicate NoRepeats(ids: seq<string>) { forall i, j :: 0 <= i < j < |ids| ==> ids[i] != ids[j] }

  /** Whatever the pump still has to visit is there and unanswered. */
  ghost predicate PassReady(s: State) {
    s.pass.Some? ==> NoRepeats(s.pass.value.todo) && forall id :: id in s.pass.value.todo ==> Unanswers(s.requests, id)
  }

  lemma {:induction false} UniqueInsert(r: Request, sorted: seq<Request>)
    requires UniqueIds(sorted) && forall q :: q in sorted ==> q.id != r.id
    ensures UniqueIds(Insert(ByReceivedAt(), r, sorted))
    ensures forall q :: q in Insert(ByReceivedAt(), r, sorted) <==> q in sorted || q == r
  {
    if sorted != [] && ByReceivedAt()(sorted[0], r) {
      var rest := Insert(ByReceivedAt(), r, sorted[1..]);
      assert UniqueIds(sorted[1..]);
      UniqueInsert(r, sorted[1..]);
      assert forall k :: 0 <= k < |rest| ==> rest[k] in rest;
      assert forall q :: q in sorted[1..] ==> q.id != sorted[0].id;
    }
  }

  lemma {:induction false} UniqueSort(requests: seq<Request>)
    requires UniqueIds(requests)
    ensures UniqueIds(Sort(ByReceivedAt(), requests))
    ensures forall q :: q in Sort(ByReceivedAt(), requests) <==> q in requests
  {
    if requests != [] {
      assert UniqueIds(requests[1..]);
      UniqueSort(requests[1..]);
      assert forall q :: q in requests[1..] ==> q.id != requests[0].id;
      UniqueInsert(requests[0], Sort(ByReceivedAt(), requests[1..]));
    }
  }

  lemma {:induction false} UniqueFilter(requests: seq<Request>, keep: Request -> bool)
    requires UniqueIds(requests)
    ensures UniqueIds(Filter(requests, keep))
  {
    if requests != [] {
      var rest := Filter(requests[1..], keep);
      assert UniqueIds(requests[1..]);
      UniqueFilter(requests[1..], keep);
      FilterMeaning(requests[1..], keep);
      assert forall k :: 0 <= k < |rest| ==> rest[k] in rest;
      assert forall q :: q in requests[1..] ==> q.id != requests[0].id;
    }
  }

  lemma {:induction false} IdsAt(requests: seq<Request>)
    ensures |Ids(requests)| == |requests| && forall i :: 0 <= i < |requests| ==> Ids(requests)[i] == requests[i].id
  {
    if requests != [] { IdsAt(requests[1..]); }
  }

  lemma UnrepliedReady(requests: seq<Request>)
    requires UniqueIds(requests)
    ensures NoRepeats(Ids(Unreplied(requests))) && forall id :: id in Ids(Unreplied(requests)) ==> Unanswers(requests, id)
  {
    var unreplied := (r: Request) => r.reply.None?;
    UniqueFilter(requests, unreplied);
    FilterMeaning(requests, unreplied);
    assert Unreplied(requests) == Sort(ByReceivedAt(), Filter(requests, unreplied));
    UniqueSort(Filter(requests, unreplied));
    IdsAt(Unreplied(requests));
    forall id | id in Ids(Unreplied(requests)) ensures Unanswers(requests, id) {
      var r := IdsMeaning(Unreplied(requests), id);
      FindUnique(requests, r);
    }
  }

  /** A step that keeps what is to be visited as it is. */
  lemma SameReady(s: State, s': State)
    requires PassReady(s) && s'.pass == s.pass
    requires s.pass.Some? ==> forall id :: Unanswers(s.requests, id) ==> Unanswers(s'.requests, id)
    ensures PassReady(s')
  {
  }

  lemma VisitReady(s: State, f: Request -> Request)
    requires PassReady(s) && forall r: Request :: f(r).id == r.id
    ensures PassReady(Visit(s, f))
  {
    if s.pass.Some? && s.pass.value.todo != [] {
      var todo := s.pass.value.todo;
      var g := (r: Request) => if r.id == todo[0] && r.reply.None? then f(r) else r;
      forall id | id in todo[1..] ensures Unanswers(Visit(s, f).requests, id) {
        assert id in todo && id != todo[0];
        EachFind(s.requests, g, id);
        FindMeaning(s.requests, id);
      }
    }
  }

  lemma PassStepReady(s: State, event: Event)
    requires PassReady(s) && (event.Found? || event.Opened? || event.Waiting? || event.CallFailed? || event.PassEnds?)
    ensures PassReady(PassStep(s, event))
  {
    if s.pass.Some? {
      match event
      case Found(answer) => VisitReady(s, (r: Request) => if Subject(answer) == r.attestation then Answered(r, Recorded(r.attestation, answer)) else r);
      case Opened(block) => VisitReady(s, r => Open(s.pass.value.now, block, r));
      case Waiting => VisitReady(s, r => r);
      case CallFailed => VisitReady(s, r => Failed(r));
      case PassEnds =>
    }
  }

  lemma DeliverReady(s: State, asked: Asked, now: int)
    requires PassReady(s)
    ensures PassReady(DoDeliver(s, asked, now))
  {
    forall id | Unanswers(s.requests, id) ensures Unanswers(DoDeliver(s, asked, now).requests, id) {
      AppendFind(s.requests, NewRequest(asked, now), id);
    }
  }

  lemma PumpContractReady(c: Answers, foreign: Foreign, s: State, now: int)
    requires Inv(c, foreign, s) && PassReady(s)
    ensures PassReady(DoPumpContract(c, s, now))
  {
    PumpContractInv(c, foreign, s, now);
    if c.Contract? && s.pass.None? { UnrepliedReady(DoPumpContract(c, s, now).requests); }
  }

  /** In every run, each request a contract pump comes to is there and unanswered, and it comes to none twice. */
  lemma StepReady(c: Answers, foreign: Foreign, s: State, event: Event)
    requires Inv(c, foreign, s) && PassReady(s)
    ensures PassReady(Step(c, foreign, s, event))
  {
    match event
    case Deliver(asked, now) => DeliverReady(s, asked, now);
    case PumpContract(now) => PumpContractReady(c, foreign, s, now);
    case Found(_) | Opened(_) | Waiting | CallFailed | PassEnds => PassStepReady(s, event);
    case ReadSigners(_, _) | TakeReport(_, _, _) | PumpCre(_) | ForwardReturned | ForwardThrew => SameReady(s, Step(c, foreign, s, event));
  }

  lemma {:induction false} ContractPumpsVisitOnce(c: Answers, foreign: Foreign, s: State, trace: seq<Event>)
    requires Configured(c) && Inv(c, foreign, s) && PassReady(s)
    ensures PassReady(Execute(c, foreign, s, trace))
    decreases |trace|
  {
    if trace != [] {
      StepInv(c, foreign, s, trace[0]);
      StepReady(c, foreign, s, trace[0]);
      ContractPumpsVisitOnce(c, foreign, Step(c, foreign, s, trace[0]), trace[1..]);
    }
  }
}
