/**
 The `Bridge` class (packages/cre/bridge/bridge.ts). Every method is one stretch between
 two awaits and takes one step of the state machine; what a message, a poll, the clock, the
 registry, the DON and the contract say are parameters.
 */
module BridgeService {
  import opened Basics
  import opened ReportSignatures
  import opened Bridge
  import opened BridgeBatches
  import opened BridgeSafety

  /** What a delivered message turned out to be. */
  datatype Message = Ignored | Refused | Asks(asked: Asked)

  datatype Response = Status(code: int) | Replies(reply: Reply)

  /** A read of a DON's signers: null when the bridge does not verify signatures. */
  datatype SignersRead = Threw | Read(signers: Option<SignerSet>)

  datatype Verdict = Rejected(code: int) | Accepted(signers: Option<SignerSet>, accepted: seq<Address>)

  class Service {
    const answers: Answers
    const foreign: Foreign
    var requests: seq<Request>
    var reports: seq<string>
    var nextRunAt: int
    ghost var flight: Option<Flight>
    ghost var pass: Option<Pass>
    ghost var read: set<(nat, SignerSet)>
    ghost var forwards: seq<int>
    ghost var returned: nat

    constructor (answers: Answers, foreign: Foreign, requests: seq<Request>, reports: seq<string>)
      ensures Now() == Init(requests, reports) && this.answers == answers && this.foreign == foreign
    {
      this.answers, this.foreign, this.requests, this.reports := answers, foreign, requests, reports;
      nextRunAt, flight, pass, read, forwards, returned := 0, None, None, {}, [], 0;
    }

    ghost function Now(): State
      reads this
    {
      State(requests, reports, nextRunAt, flight, pass, read, forwards, returned)
    }

    method HandleDelivery(signed: bool, message: Message, now: int) returns (response: Response)
      modifies this`requests
      ensures Now() == if signed && message.Asks? then Step(answers, foreign, old(Now()), Deliver(message.asked, now)) else old(Now())
      ensures response.Status? && (response.code == 202 <==> signed && message.Asks?)
      ensures response.code == 202 ==> Find(requests, message.asked.id).Some?
    {
      if !signed { return Status(401); }
      if message.Ignored? { return Status(204); }
      if message.Refused? { return Status(200); }
      if Find(requests, message.asked.id).None? {
        AppendFind(requests, NewRequest(message.asked, now), message.asked.id);
        requests := requests + [NewRequest(message.asked, now)];
      }
      return Status(202);
    }

    /** The reply to a request goes to the Room that asked, and to nobody else. */
    method HandlePoll(signed: bool, id: string, publication: string, room: string) returns (response: Response)
      ensures response.Replies? <==>
        signed && publication == id && Find(requests, id).Some? && Find(requests, id).value.room == room && Find(requests, id).value.reply.Some?
      ensures response.Replies? ==> Some(response.reply) == Find(requests, id).value.reply
      ensures response == Status(202) <==>
        signed && publication == id && Find(requests, id).Some? && Find(requests, id).value.room == room && Find(requests, id).value.reply.None?
    {
      if !signed { return Status(401); }
      var pending := Find(requests, id);
      FindMeaning(requests, id);
      if pending.None? || publication != pending.value.id || room != pending.value.room { return Status(404); }
      if pending.value.reply.None? { return Status(202); }
      return Replies(pending.value.reply.value);
    }

    /** Before its last stretch, `handleResult` only decides whether the report may be taken. */
    method CheckReport(signed: SignedReport, first: SignersRead, refreshed: SignersRead) returns (verdict: Verdict)
      requires first.Read? ==> (first.signers.Some? <==> answers.Cre? && answers.registry)
      requires refreshed.Read? ==> (refreshed.signers.Some? <==> answers.Cre? && answers.registry)
      modifies this`read
      ensures old(read) <= read && Now() == old(Now()).(read := read)
      ensures verdict.Accepted? <==>
        && answers.Cre? && foreign.digest(signed.rawReport) !in reports
        && foreign.parse(signed.rawReport).Some? && foreign.parse(signed.rawReport).value.0.workflow == answers.workflow
        && first.Read?
        && (first.signers.Some? ==>
              || (exists accepted :: Quorum(signed, first.signers.value, foreign.recover, accepted))
              || (refreshed.Read? && exists accepted :: Quorum(signed, refreshed.signers.value, foreign.recover, accepted)))
      ensures verdict.Accepted? ==> MayTake(answers, foreign, Now(), signed, verdict.signers, verdict.accepted)
    {
      if !answers.Cre? { return Rejected(404); }
      if foreign.digest(signed.rawReport) in reports { return Rejected(200); }
      var parsed := foreign.parse(signed.rawReport);
      if parsed.None? { return Rejected(400); }
      var header := parsed.value.0;
      if header.workflow != answers.workflow { return Rejected(403); }
      if first.Threw? { return Rejected(503); }
      if first.signers.None? { return Accepted(None, []); }
      read := read + {(header.donId, first.signers.value)};
      var accepted := VerifyReportSignatures(signed, first.signers.value, foreign.recover);
      if accepted.Some? { return Accepted(first.signers, accepted.value); }
      if refreshed.Threw? { return Rejected(503); }
      read := read + {(header.donId, refreshed.signers.value)};
      accepted := VerifyReportSignatures(signed, refreshed.signers.value, foreign.recover);
      if accepted.None? { return Rejected(403); }
      return Accepted(refreshed.signers, accepted.value);
    }

    /** The last stretch of `handleResult`: the report answers every open request it is about. */
    method TakeAccepted(signed: SignedReport, signers: Option<SignerSet>, accepted: seq<Address>)
      requires MayTake(answers, foreign, Now(), signed, signers, accepted)
      modifies this`requests, this`reports
      ensures Now() == DoTakeReport(answers, foreign, old(Now()), signed, signers, accepted)
      ensures |requests| == |old(requests)|
      ensures forall k :: 0 <= k < |requests| ==> AnsweredByReport(foreign, signed, signers, accepted, old(requests)[k], requests[k])
      ensures |reports| == (if |old(reports)| < 1000 then |old(reports)| + 1 else 1000)
      ensures reports == (old(reports) + [foreign.digest(signed.rawReport)])[|old(reports)| + 1 - |reports|..]
    {
      var (header, report) := foreign.parse(signed.rawReport).value;
      var view := SignatureView(signers, accepted);
      var i := 0;
      while i < |requests|
        invariant 0 <= i <= |requests| == |old(requests)| && reports == old(reports)
        invariant forall k :: 0 <= k < i ==> requests[k] == AnswerFrom(foreign, signed, header, report, view, old(requests)[k])
        invariant forall k :: i <= k < |requests| ==> requests[k] == old(requests)[k]
      {
        var pending := requests[i];
        if pending.reply.None? {
          var answer := AnswerFor(pending.attestation, report);
          if answer.Some? {
            var attested := Attested(pending.attestation, answer.value, view, header, signed);
            if foreign.replyBytes(attested) > MAX_REPLY_BYTES {
              requests := requests[i := pending.(reply := Some(Unanswered(pending.attestation, ReplyTooLarge)))];
            } else {
              requests := requests[i := pending.(reply := Some(attested))];
            }
          }
        }
        i := i + 1;
      }
      AnswerEachAt(foreign, signed, header, report, view, old(requests));
      forall k | 0 <= k < |requests| ensures AnsweredByReport(foreign, signed, signers, accepted, old(requests)[k], requests[k]) {
        AnswerFromMeaning(foreign, signed, signers, accepted, old(requests)[k]);
      }
      assert requests == AnswerEach(foreign, signed, header, report, view, old(requests));
      reports := Remember(reports, foreign.digest(signed.rawReport));
    }

    method DropPastRetention(now: int)
      modifies this`requests
      ensures requests == DropExpired(now, old(requests))
    {
      var kept: seq<Request> := [];
      for i := 0 to |requests|
        invariant requests == old(requests)
        invariant DropExpired(now, requests) == kept + DropExpired(now, requests[i..])
      {
        DropNext(now, requests, kept, i);
        if !Expired(now, requests[i]) { kept := kept + [requests[i]]; }
      }
      requests := kept;
    }

    method GiveUpExhausted(now: int)
      requires answers.Cre?
      modifies this`requests
      ensures requests == GiveUpEach(answers, now, old(requests))
    {
      for i := 0 to |requests|
        invariant |requests| == |old(requests)|
        invariant forall k :: 0 <= k < i ==> requests[k] == GiveUp(answers, now, old(requests)[k])
        invariant forall k :: i <= k < |requests| ==> requests[k] == old(requests)[k]
      {
        var pending := requests[i];
        if Exhausted(answers, now, pending) {
          requests := requests[i := pending.(reply := Some(Unanswered(pending.attestation, NoFinishedReceipt)))];
        }
      }
      GiveUpEachAt(answers, now, old(requests));
    }

    /** The batch of the oldest due request; None when nothing is due. */
    method ChooseBatch(now: int) returns (batch: Option<Batch>)
      requires answers.Cre?
      ensures var due := DueRequests(answers, nextRunAt, requests, now);
              batch == if due == [] then None else Some(Choose(due, due[0].publishOnchain))
      ensures batch.Some? ==> OldestDue(answers, requests, now, batch.value) && FullOfSubjects(answers, requests, now, batch.value)
    {
      var due := DueRequests(answers, nextRunAt, requests, now);
      if due == [] { return None; }
      var chosen := TakeWhatFits(due, due[0].publishOnchain);
      ChosenIsFair(answers, nextRunAt, requests, now);
      batch := Some(chosen);
    }

    static method TakeWhatFits(due: seq<Request>, publishOnchain: bool) returns (batch: Batch)
      ensures batch == Choose(due, publishOnchain)
    {
      var attest, members := map[], [];
      for i := 0 to |due|
        invariant Batch(attest, members) == Choose(due[..i], publishOnchain)
      {
        var pending := due[i];
        assert due[..i + 1][..i] == due[..i];
        var key := Describe(pending.attestation);
        if pending.publishOnchain != publishOnchain { continue; }
        if key !in attest && |attest| == MAX_ATTESTATIONS { continue; }
        attest := attest[key := pending.attestation];
        members := members + [pending];
      }
      assert due[..|due|] == due;
      batch := Batch(attest, members);
    }

    method Prepare(now: int)
      requires answers.Cre?
      modifies this`requests
      ensures requests == GiveUpEach(answers, now, DropExpired(now, old(requests)))
    {
      DropPastRetention(now);
      GiveUpExhausted(now);
    }

    /** A CRE pump up to its forward; None when nothing is forwarded. */
    method StartPumpCre(now: int) returns (batch: Option<Batch>)
      requires answers.Cre? && flight.None?
      modifies this
      ensures Now() == DoPumpCre(answers, old(Now()), now)
      ensures flight == if batch.Some? then Some(Flight(now, Ids(batch.value.members))) else None
      ensures batch.Some? ==> OldestDue(answers, requests, now, batch.value) && FullOfSubjects(answers, requests, now, batch.value)
    {
      Prepare(now);
      batch := ChooseBatch(now);
      if batch.Some? { Launch(now, Ids(batch.value.members)); }
    }

    method Launch(now: int, ids: seq<string>)
      requires answers.Cre?
      modifies this`nextRunAt, this`flight, this`forwards
      ensures Now() == old(Now()).(nextRunAt := now + answers.paceSeconds, flight := Some(Flight(now, ids)), forwards := old(forwards) + [now])
    {
      nextRunAt := now + answers.paceSeconds;
      flight := Some(Flight(now, ids));
      forwards := forwards + [now];
    }

    /** After the forward: its outcome, accepted or not, uses up an attempt of every request in the batch. */
    method FinishPumpCre(now: int, batch: seq<string>)
      requires flight == Some(Flight(now, batch))
      modifies this
      ensures Now() == Step(answers, foreign, old(Now()), ForwardReturned)
    {
      for i := 0 to |requests|
        invariant |requests| == |old(requests)|
        invariant forall k :: 0 <= k < i ==> requests[k] == Forwarded(now, batch, old(requests)[k])
        invariant forall k :: i <= k < |requests| ==> requests[k] == old(requests)[k]
        invariant Now() == old(Now()).(requests := requests)
      {
        var pending := requests[i];
        if pending.id in batch { requests := requests[i := pending.(attempts := pending.attempts + 1, forwardedAt := Some(now))]; }
      }
      EachAt(old(requests), r => Forwarded(now, batch, r));
      flight := None;
      returned := returned + 1;
    }

    method ExpireUnrecorded(now: int)
      requires answers.Contract?
      modifies this`requests
      ensures requests == Each(old(requests), r => NotRecordedInTime(answers, now, r))
    {
      for i := 0 to |requests|
        invariant |requests| == |old(requests)|
        invariant forall k :: 0 <= k < i ==> requests[k] == NotRecordedInTime(answers, now, old(requests)[k])
        invariant forall k :: i <= k < |requests| ==> requests[k] == old(requests)[k]
      {
        var pending := requests[i];
        if Overdue(answers, now, pending) {
          requests := requests[i := pending.(reply := Some(Unanswered(pending.attestation, NotRecorded)))];
        }
      }
      EachAt(old(requests), r => NotRecordedInTime(answers, now, r));
    }

    /** A contract pump up to its first contract call. */
    method StartPumpContract(now: int) returns (todo: Option<seq<string>>)
      requires answers.Contract? && pass.None?
      modifies this
      ensures Now() == Step(answers, foreign, old(Now()), PumpContract(now))
      ensures (todo.Some? <==> pass.Some?) && (todo.Some? ==> pass == Some(Pass(now, todo.value)))
    {
      DropPastRetention(now);
      ExpireUnrecorded(now);
      if now < nextRunAt { return None; }
      nextRunAt := now + answers.pollSeconds;
      todo := Some(Ids(Unreplied(requests)));
      pass := Some(Pass(now, todo.value));
    }

    method Update(id: string, changed: Request)
      requires Find(requests, id).Some? && UniqueIds(requests)
      modifies this`requests
      ensures requests == Each(old(requests), (r: Request) => if r.id == id then changed else r)
    {
      FindMeaning(requests, id);
      for i := 0 to |requests|
        invariant |requests| == |old(requests)|
        invariant forall k :: 0 <= k < i ==> requests[k] == if old(requests)[k].id == id then changed else old(requests)[k]
        invariant forall k :: i <= k < |requests| ==> requests[k] == old(requests)[k]
      {
        if requests[i].id == id { requests := requests[i := changed]; }
      }
      EachAt(old(requests), (r: Request) => if r.id == id then changed else r);
    }

    /**
     One turn of a contract pump: the receipt the contract holds answers the request; otherwise the request is opened,
     once per subject and pass; a failed call counts, and the fifth is answered.
     */
    method VisitNext(now: int, todo: seq<string>, openings: map<string, nat>, lookup: Lookup, request: Opening)
        returns (openings': map<string, nat>, called: bool, ghost event: Event)
      requires UniqueIds(requests) && pass == Some(Pass(now, todo)) && todo != []
      requires Find(requests, todo[0]).Some? && Find(requests, todo[0]).value.reply.None?
      requires lookup.Holds? ==> Subject(lookup.answer) == Find(requests, todo[0]).value.attestation
      modifies this
      ensures Now() == Step(answers, foreign, old(Now()), event)
      ensures event == (match lookup
                        case Holds(answer) => Event.Found(answer)
                        case LookupThrew => CallFailed
                        case HoldsNothing =>
                          var r := Find(old(requests), todo[0]).value;
                          if r.forwardedAt.Some? then Waiting
                          else if Describe(r.attestation) in openings then Event.Opened(openings[Describe(r.attestation)])
                          else if request.Opens? then Event.Opened(request.block) else CallFailed)
      ensures called <==> lookup.HoldsNothing? && Find(old(requests), todo[0]).value.forwardedAt.None?
                          && Describe(Find(old(requests), todo[0]).value.attestation) !in openings
      ensures openings' == if called && request.Opens? then openings[Describe(Find(old(requests), todo[0]).value.attestation) := request.block] else openings
    {
      var r := Find(requests, todo[0]).value;
      FindMeaning(requests, todo[0]);
      var key := Describe(r.attestation);
      openings', called := openings, false;
      var changed := r;
      if lookup.Holds? {
        event := Event.Found(lookup.answer);
        changed := r.(reply := Some(Recorded(r.attestation, lookup.answer)));
      } else if lookup.HoldsNothing? && r.forwardedAt.Some? {
        event := Waiting;
      } else if lookup.HoldsNothing? && key in openings {
        event := Event.Opened(openings[key]);
        changed := r.(forwardedAt := Some(now), requestedBlock := Some(openings[key]));
      } else if lookup.HoldsNothing? && request.Opens? {
        called, openings' := true, openings[key := request.block];
        event := Event.Opened(request.block);
        changed := r.(forwardedAt := Some(now), requestedBlock := Some(request.block));
      } else {
        called := lookup.HoldsNothing?;
        event := CallFailed;
        changed := r.(attempts := r.attempts + 1);
        if changed.attempts >= MAX_CHAIN_FAILURES {
          changed := changed.(reply := Some(Unanswered(r.attestation, ChainUnavailable)));
        }
      }
      Update(todo[0], changed);
      pass := Some(Pass(now, todo[1..]));
      SameChange(old(Now()), event, todo[0], r, changed);
    }
  }

  datatype Lookup = Holds(answer: Answer) | HoldsNothing | LookupThrew
  datatype Opening = Opens(block: nat) | OpenThrew

  /** Changing the one request an id names is what a visit does. */
  lemma SameChange(s: State, event: Event, id: string, r: Request, changed: Request)
    requires UniqueIds(s.requests) && s.pass.Some? && s.pass.value.todo != [] && s.pass.value.todo[0] == id
    requires Find(s.requests, id) == Some(r) && r.reply.None?
    requires match event
             case Found(answer) => Subject(answer) == r.attestation && changed == Answered(r, Recorded(r.attestation, answer))
             case Opened(block) => changed == Open(s.pass.value.now, block, r)
             case Waiting => changed == r
             case CallFailed => changed == Failed(r)
             case _ => false
    ensures PassStep(s, event) ==
      s.(requests := Each(s.requests, (q: Request) => if q.id == id then changed else q), pass := Some(s.pass.value.(todo := s.pass.value.todo[1..])))
  {
    var g := (q: Request) => if q.id == id then changed else q;
    var s' := PassStep(s, event);
    EachAt(s.requests, g);
    FindMeaning(s.requests, id);
    match event
    case Found(answer) =>
      ChangeAt(s.requests, id, (q: Request) => if Subject(answer) == q.attestation then Answered(q, Recorded(q.attestation, answer)) else q);
    case Opened(block) => ChangeAt(s.requests, id, q => Open(s.pass.value.now, block, q));
    case Waiting => ChangeAt(s.requests, id, q => q);
    case CallFailed => ChangeAt(s.requests, id, q => Failed(q));
    forall k | 0 <= k < |s.requests| ensures s'.requests[k] == Each(s.requests, g)[k] {
      if s.requests[k].id == id { FindUnique(s.requests, s.requests[k]); }
    }
    assert s'.requests == Each(s.requests, g);
  }

  lemma ChangeAt(requests: seq<Request>, id: string, f: Request -> Request)
    ensures |Change(requests, id, f)| == |requests|
    ensures forall k :: 0 <= k < |requests| ==>
      Change(requests, id, f)[k] == if requests[k].id == id && requests[k].reply.None? then f(requests[k]) else requests[k]
  {
    EachAt(requests, (r: Request) => if r.id == id && r.reply.None? then f(r) else r);
  }
}
