/** What one step of the Room bridge makes of one request, for every step and every request. */
module BridgeLife {
  import opened Basics
  import opened ReportSignatures
  import opened StableSort
  import opened Bridge
  import opened BridgeBatches
  import opened BridgeSafety

  /** A pump that starts: the CRE pump while no batch is in flight, the contract pump while no pass is under way. */
  ghost predicate Starts(c: Answers, s: State, event: Event) {
    (event.PumpCre? && c.Cre? && s.flight.None?) || (event.PumpContract? && c.Contract? && s.pass.None?)
  }

  /** The request a contract pass is about next. */
  ghost predicate IsNext(s: State, r: Request) {
    s.pass.Some? && s.pass.value.todo != [] && s.pass.value.todo[0] == r.id && r.reply.None?
  }

  /** What a step makes of a request that it keeps. */
  ghost predicate Becomes(c: Answers, foreign: Foreign, s: State, event: Event, r: Request, r': Request) {
    match event
    case TakeReport(signed, signers, accepted) =>
      if MayTake(c, foreign, s, signed, signers, accepted) then AnsweredByReport(foreign, signed, signers, accepted, r, r') else r' == r
    case PumpCre(now) =>
      if Starts(c, s, event) && r.reply.None? && r.attempts >= c.maxAttempts && r.forwardedAt.Some? && now - r.forwardedAt.value >= c.retrySeconds
      then r' == r.(reply := Some(Unanswered(r.attestation, NoFinishedReceipt))) else r' == r
    case ForwardReturned =>
      if s.flight.Some? && r.id in s.flight.value.batch then r' == r.(attempts := r.attempts + 1, forwardedAt := Some(s.flight.value.now)) else r' == r
    case PumpContract(now) =>
      if Starts(c, s, event) && r.reply.None? && r.forwardedAt.Some? && now > r.forwardedAt.value + c.answerWithinSeconds
      then r' == r.(reply := Some(Unanswered(r.attestation, NotRecorded))) else r' == r
    case Found(answer) =>
      if IsNext(s, r) && Subject(answer) == r.attestation then r' == r.(reply := Some(Recorded(r.attestation, answer))) else r' == r
    case Opened(block) =>
      if IsNext(s, r) && r.forwardedAt.None? then r' == r.(forwardedAt := Some(s.pass.value.now), requestedBlock := Some(block)) else r' == r
    case CallFailed =>
      if !IsNext(s, r) then r' == r
      else if r.attempts < 4 then r' == r.(attempts := r.attempts + 1)
      else r' == r.(attempts := r.attempts + 1, reply := Some(Unanswered(r.attestation, ChainUnavailable)))
    case Deliver(_, _) | ReadSigners(_, _) | ForwardThrew | Waiting | PassEnds => r' == r
  }

  /** A request as it is delivered. */
  ghost predicate IsFresh(asked: Asked, now: int, r: Request) {
    && r.id == asked.id && r.room == asked.room && r.attestation == asked.attestation && r.publishOnchain == asked.publishOnchain
    && r.receivedAt == now && r.attempts == 0 && r.forwardedAt.None? && r.requestedBlock.None? && r.reply.None?
  }

  /** What a step makes of the request an id names. */
  ghost predicate Lives(c: Answers, foreign: Foreign, s: State, event: Event, s': State, id: string) {
    match Find(s.requests, id)
    case None => if event.Deliver? && event.asked.id == id then Find(s'.requests, id).Some? && IsFresh(event.asked, event.now, Find(s'.requests, id).value) else Find(s'.requests, id).None?
    case Some(r) =>
      if Starts(c, s, event) && event.now > r.receivedAt + 90_000 then Find(s'.requests, id).None?
      else Find(s'.requests, id).Some? && Becomes(c, foreign, s, event, r, Find(s'.requests, id).value)
  }

  lemma DeliverLives(c: Answers, foreign: Foreign, s: State, asked: Asked, now: int, id: string)
    ensures Lives(c, foreign, s, Deliver(asked, now), DoDeliver(s, asked, now), id)
  {
    AppendFind(s.requests, NewRequest(asked, now), id);
    FindMeaning(s.requests, id);
  }

  lemma ReportLives(c: Answers, foreign: Foreign, s: State, event: Event, id: string)
    requires event.TakeReport?
    ensures Lives(c, foreign, s, event, DoTakeReport(c, foreign, s, event.signed, event.signers, event.accepted), id)
  {
    if MayTake(c, foreign, s, event.signed, event.signers, event.accepted) {
      var (header, report) := foreign.parse(event.signed.rawReport).value;
      EachFind(s.requests, r => AnswerFrom(foreign, event.signed, header, report, SignatureView(event.signers, event.accepted), r), id);
      if Find(s.requests, id).Some? { AnswerFromMeaning(foreign, event.signed, event.signers, event.accepted, Find(s.requests, id).value); }
    }
  }

  lemma PumpLives(c: Answers, foreign: Foreign, s: State, event: Event, s': State, f: Request -> Request, id: string)
    requires UniqueIds(s.requests) && Starts(c, s, event) && s'.requests == Each(DropExpired(event.now, s.requests), f)
    requires forall r: Request :: f(r).id == r.id && Becomes(c, foreign, s, event, r, f(r))
    ensures Lives(c, foreign, s, event, s', id)
  {
    DropFind(event.now, s.requests, id);
    EachFind(DropExpired(event.now, s.requests), f, id);
  }

  lemma PumpsLive(c: Answers, foreign: Foreign, s: State, event: Event, id: string)
    requires UniqueIds(s.requests) && (event.PumpCre? || event.PumpContract?)
    ensures Lives(c, foreign, s, event, Step(c, foreign, s, event), id)
  {
    if Starts(c, s, event) {
      if event.PumpCre? {
        PumpLives(c, foreign, s, event, DoPumpCre(c, s, event.now), r => GiveUp(c, event.now, r), id);
      } else {
        PumpLives(c, foreign, s, event, DoPumpContract(c, s, event.now), r => NotRecordedInTime(c, event.now, r), id);
      }
    }
  }

  lemma VisitLives(c: Answers, foreign: Foreign, s: State, event: Event, f: Request -> Request, id: string)
    requires event.Found? || event.Opened? || event.Waiting? || event.CallFailed?
    requires forall r: Request :: r.reply.None? ==> f(r).id == r.id
    requires forall r: Request :: (IsNext(s, r) ==> Becomes(c, foreign, s, event, r, f(r))) && (!IsNext(s, r) ==> Becomes(c, foreign, s, event, r, r))
    ensures Lives(c, foreign, s, event, Visit(s, f), id)
  {
    if s.pass.Some? && s.pass.value.todo != [] {
      var next := s.pass.value.todo[0];
      EachFind(s.requests, (r: Request) => if r.id == next && r.reply.None? then f(r) else r, id);
    }
  }

  lemma PassLives(c: Answers, foreign: Foreign, s: State, event: Event, id: string)
    requires event.Found? || event.Opened? || event.Waiting? || event.CallFailed? || event.PassEnds?
    ensures Lives(c, foreign, s, event, PassStep(s, event), id)
  {
    FindMeaning(s.requests, id);
    if s.pass.Some? {
      match event
      case Found(answer) =>
        VisitLives(c, foreign, s, event, (r: Request) => if Subject(answer) == r.attestation then Answered(r, Recorded(r.attestation, answer)) else r, id);
      case Opened(block) => VisitLives(c, foreign, s, event, r => Open(s.pass.value.now, block, r), id);
      case Waiting => VisitLives(c, foreign, s, event, r => r, id);
      case CallFailed => VisitLives(c, foreign, s, event, r => Failed(r), id);
      case PassEnds =>
    }
  }

  /** Every step does to every request just what its kind says: nothing is answered, counted, opened or dropped otherwise. */
  lemma StepLives(c: Answers, foreign: Foreign, s: State, event: Event, id: string)
    requires UniqueIds(s.requests)
    ensures Lives(c, foreign, s, event, Step(c, foreign, s, event), id)
  {
    FindMeaning(s.requests, id);
    match event
    case Deliver(asked, now) => DeliverLives(c, foreign, s, asked, now, id);
    case TakeReport(_, _, _) => ReportLives(c, foreign, s, event, id);
    case PumpCre(_) | PumpContract(_) => PumpsLive(c, foreign, s, event, id);
    case ForwardReturned =>
      if s.flight.Some? { EachFind(s.requests, r => Forwarded(s.flight.value.now, s.flight.value.batch, r), id); }
    case ReadSigners(_, _) | ForwardThrew =>
    case Found(_) | Opened(_) | Waiting | CallFailed | PassEnds => PassLives(c, foreign, s, event, id);
  }

  // ----- what the pumps set going -----

  /** A contract pump that may run visits every unanswered request, oldest first, and none twice. */
  lemma PassMeaning(c: Answers, s: State, now: int)
    requires c.Contract? && s.pass.None?
    ensures var s' := DoPumpContract(c, s, now);
            && (s'.pass.Some? <==> now >= s.nextRunAt)
            && (s'.pass.Some? ==>
                  && s'.nextRunAt == now + c.pollSeconds && s'.pass.value.now == now && |s'.pass.value.todo| == |Unreplied(s'.requests)|
                  && (forall k :: 0 <= k < |s'.pass.value.todo| ==> s'.pass.value.todo[k] == Unreplied(s'.requests)[k].id)
                  && OldestFirst(Unreplied(s'.requests))
                  && forall r :: r in Unreplied(s'.requests) <==> r in s'.requests && r.reply.None?)
  {
    var s' := DoPumpContract(c, s, now);
    UnrepliedMeaning(s'.requests);
    IdsAt(Unreplied(s'.requests));
  }

  /** A pass goes from request to request and ends after the last. */
  lemma PassEndsAfterTheLast(s: State, event: Event)
    requires s.pass.Some? && (event.Found? || event.Opened? || event.Waiting? || event.CallFailed? || event.PassEnds?)
    ensures var s' := PassStep(s, event);
            if event.PassEnds? then s' == s.(pass := if s.pass.value.todo == [] then None else s.pass)
            else s'.pass == Some(Pass(s.pass.value.now, if s.pass.value.todo == [] then [] else s.pass.value.todo[1..]))
  {
  }

  lemma {:induction false} IdsAt(requests: seq<Request>)
    ensures |Ids(requests)| == |requests| && forall k :: 0 <= k < |requests| ==> Ids(requests)[k] == requests[k].id
  {
    if requests != [] { IdsAt(requests[1..]); }
  }

  /** A CRE pump forwards exactly when the pace allows it and some request may be asked; the next one waits for the pace. */
  lemma FlightMeaning(c: Answers, s: State, now: int)
    requires c.Cre? && s.flight.None?
    ensures var s' := DoPumpCre(c, s, now);
            && (s'.flight.Some? <==> now >= s.nextRunAt && exists r :: r in s'.requests && MayBeAsked(c, now, r))
            && (s'.flight.Some? ==> s'.flight.value.now == now && s'.nextRunAt == now + c.paceSeconds && s'.forwards == s.forwards + [now])
            && (s'.flight.None? ==> s'.nextRunAt == s.nextRunAt && s'.forwards == s.forwards)
            && s'.returned == s.returned && s'.read == s.read && s'.reports == s.reports && s'.pass == s.pass
  {
    var s' := DoPumpCre(c, s, now);
    var due := DueRequests(c, s.nextRunAt, s'.requests, now);
    DueMeaning(c, s.nextRunAt, s'.requests, now);
    if due != [] { assert due[0] in due; }
  }
}
