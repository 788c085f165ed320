/**
 The Room bridge (packages/cre/bridge/bridge.ts) as a state machine. Deliveries, reports
 and pumps run concurrently and interleave where they await; each stretch between two
 awaits is one step. `main.ts` awaits every pump, so two pumps never overlap.
 */
module Bridge {
  import opened Basics
  import opened ReportSignatures
  import opened StableSort

  datatype Attestation = Transfer(transferId: string) | Publication(room: string, channel: string, publication: string)

  /** `describe`: the key under which a pump asks for an attestation once. */
  function Describe(a: Attestation): string {
    match a
    case Transfer(id) => "transfer " + id
    case Publication(room, channel, publication) => "publication " + room + "/" + channel + "/" + publication
  }

  // ----- reports -----

  datatype StandardEntry = StandardEntry(transferId: string, details: nat)
  datatype RoomEntry = RoomEntry(room: string, channel: string, publication: string, details: nat)
  /** A closure names its publication by a hash; hash collisions are not modelled. */
  datatype ClosureEntry = ClosureEntry(room: string, channel: string, publication: string, details: nat)

  datatype Report = Report(standard: seq<StandardEntry>, rooms: seq<RoomEntry>, closures: seq<ClosureEntry>)

  datatype Answer = Standard(standard: StandardEntry) | Room(room: RoomEntry) | Closure(closure: ClosureEntry)

  function FindStandard(entries: seq<StandardEntry>, transferId: string): Option<StandardEntry> {
    if entries == [] then None
    else if entries[0].transferId == transferId then Some(entries[0])
    else FindStandard(entries[1..], transferId)
  }

  function FindRoom(entries: seq<RoomEntry>, a: Attestation): Option<RoomEntry> {
    if entries == [] then None
    else if Publication(entries[0].room, entries[0].channel, entries[0].publication) == a then Some(entries[0])
    else FindRoom(entries[1..], a)
  }

  function FindClosure(entries: seq<ClosureEntry>, a: Attestation): Option<ClosureEntry> {
    if entries == [] then None
    else if Publication(entries[0].room, entries[0].channel, entries[0].publication) == a then Some(entries[0])
    else FindClosure(entries[1..], a)
  }

  /** `answerFor` (packages/cre/workflows/transfer-receipts/attestations.ts) */
  function AnswerFor(a: Attestation, report: Report): Option<Answer> {
    if a.Transfer? then
      match FindStandard(report.standard, a.transferId)
      case Some(entry) => Some(Standard(entry))
      case None => None
    else
      match FindRoom(report.rooms, a)
      case Some(entry) => Some(Room(entry))
      case None =>
        match FindClosure(report.closures, a)
        case Some(entry) => Some(Closure(entry))
        case None => None
  }

  /** What an answer is about. */
  function Subject(answer: Answer): Attestation {
    match answer
    case Standard(e) => Transfer(e.transferId)
    case Room(e) => Publication(e.room, e.channel, e.publication)
    case Closure(e) => Publication(e.room, e.channel, e.publication)
  }

  ghost predicate Contains(report: Report, answer: Answer) {
    match answer
    case Standard(e) => e in report.standard
    case Room(e) => e in report.rooms
    case Closure(e) => e in report.closures
  }

  ghost predicate First<T>(entries: seq<T>, about: T -> bool, entry: T) {
    exists i :: 0 <= i < |entries| && entries[i] == entry && about(entry) && forall j :: 0 <= j < i ==> !about(entries[j])
  }

  /** The first entry about the attestation: of a publication's, a receipt goes before a closure. */
  ghost predicate FirstAbout(report: Report, a: Attestation, answer: Answer) {
    && Subject(answer) == a
    && match answer
       case Standard(e) => First(report.standard, (s: StandardEntry) => Transfer(s.transferId) == a, e)
       case Room(e) => First(report.rooms, (s: RoomEntry) => Publication(s.room, s.channel, s.publication) == a, e)
       case Closure(e) =>
         && First(report.closures, (s: ClosureEntry) => Publication(s.room, s.channel, s.publication) == a, e)
         && forall s :: s in report.rooms ==> Publication(s.room, s.channel, s.publication) != a
  }

  /** An answer is the first entry of the report about just that attestation; there is none only when the report has no such entry. */
  lemma AnswerForMeaning(a: Attestation, report: Report)
    ensures AnswerFor(a, report).Some? ==>
      Contains(report, AnswerFor(a, report).value) && Subject(AnswerFor(a, report).value) == a && FirstAbout(report, a, AnswerFor(a, report).value)
    ensures AnswerFor(a, report).None? ==> forall answer :: Contains(report, answer) ==> Subject(answer) != a
  {
    if a.Transfer? { FindStandardMeaning(report.standard, a.transferId, (s: StandardEntry) => Transfer(s.transferId) == a); }
    else {
      FindRoomMeaning(report.rooms, a, (s: RoomEntry) => Publication(s.room, s.channel, s.publication) == a);
      FindClosureMeaning(report.closures, a, (s: ClosureEntry) => Publication(s.room, s.channel, s.publication) == a);
    }
    if AnswerFor(a, report).None? {
      forall answer | Contains(report, answer) ensures Subject(answer) != a {
        match answer
        case Standard(e) =>
        case Room(e) =>
        case Closure(e) =>
      }
    }
  }

  lemma FirstLater<T>(entries: seq<T>, about: T -> bool, entry: T)
    requires entries != [] && !about(entries[0]) && First(entries[1..], about, entry)
    ensures First(entries, about, entry)
  {
    var i :| 0 <= i < |entries| - 1 && entries[1..][i] == entry && forall j :: 0 <= j < i ==> !about(entries[1..][j]);
    assert entries[i + 1] == entry;
    forall j | 0 <= j < i + 1 ensures !about(entries[j]) { assert j > 0 ==> entries[j] == entries[1..][j - 1]; }
  }

  lemma {:induction false} FindStandardMeaning(entries: seq<StandardEntry>, transferId: string, about: StandardEntry -> bool)
    requires forall e :: about(e) <==> e.transferId == transferId
    ensures var r := FindStandard(entries, transferId);
            && (r.Some? ==> r.value in entries && about(r.value) && First(entries, about, r.value))
            && (r.None? ==> forall e :: e in entries ==> e.transferId != transferId)
  {
    if entries != [] && entries[0].transferId != transferId {
      FindStandardMeaning(entries[1..], transferId, about);
      if FindStandard(entries, transferId).Some? { FirstLater(entries, about, FindStandard(entries, transferId).value); }
    }
  }

  lemma {:induction false} FindRoomMeaning(entries: seq<RoomEntry>, a: Attestation, about: RoomEntry -> bool)
    requires forall e :: about(e) <==> Publication(e.room, e.channel, e.publication) == a
    ensures var r := FindRoom(entries, a);
            && (r.Some? ==> r.value in entries && about(r.value) && First(entries, about, r.value))
            && (r.None? ==> forall e :: e in entries ==> Publication(e.room, e.channel, e.publication) != a)
  {
    if entries != [] && !about(entries[0]) {
      FindRoomMeaning(entries[1..], a, about);
      if FindRoom(entries, a).Some? { FirstLater(entries, about, FindRoom(entries, a).value); }
    }
  }

  lemma {:induction false} FindClosureMeaning(entries: seq<ClosureEntry>, a: Attestation, about: ClosureEntry -> bool)
    requires forall e :: about(e) <==> Publication(e.room, e.channel, e.publication) == a
    ensures var r := FindClosure(entries, a);
            && (r.Some? ==> r.value in entries && about(r.value) && First(entries, about, r.value))
            && (r.None? ==> forall e :: e in entries ==> Publication(e.room, e.channel, e.publication) != a)
  {
    if entries != [] && !about(entries[0]) {
      FindClosureMeaning(entries[1..], a, about);
      if FindClosure(entries, a).Some? { FirstLater(entries, about, FindClosure(entries, a).value); }
    }
  }

  // ----- requests and replies -----

  datatype Workflow = Workflow(id: string, owner: string)
  datatype Header = Header(donId: nat, workflow: Workflow, executionId: string)

  datatype Signatures = Registry(f: nat, signers: seq<Address>) | Unverified

  datatype Reason = NoFinishedReceipt | ReplyTooLarge | NotRecorded | ChainUnavailable

  datatype Reply =
    | Attested(request: Attestation, answer: Answer, signatures: Signatures, header: Header, report: SignedReport)
    | Recorded(request: Attestation, answer: Answer)
    | Unanswered(request: Attestation, reason: Reason)

  datatype Request = Request(
    id: string, room: string, receivedAt: int, attestation: Attestation, publishOnchain: bool,
    attempts: nat, forwardedAt: Option<int>, requestedBlock: Option<nat>, reply: Option<Reply>)

  const RETENTION_SECONDS: int := 25 * 3600
  const MAX_ATTESTATIONS: nat := 7
  const MAX_CHAIN_FAILURES: nat := 5
  const MAX_REPLY_BYTES: nat := 64 * 1024
  const MAX_REMEMBERED_REPORTS: nat := 1000

  datatype Answers =
    | Cre(workflow: Workflow, registry: bool, paceSeconds: int, retrySeconds: int, maxAttempts: nat)
    | Contract(pollSeconds: int, answerWithinSeconds: int)

  /** What the bridge calls but does not define: signature recovery, report parsing, hashing and the size of a reply. */
  datatype Foreign = Foreign(
    recover: Recovery,
    parse: seq<byte> -> Option<(Header, Report)>,
    digest: seq<byte> -> string,
    replyBytes: Reply -> nat)

  /** What a delivery asked for. */
  datatype Asked = Asked(id: string, room: string, attestation: Attestation, publishOnchain: bool)

  /** A batch that was forwarded and whose outcome is awaited. */
  datatype Flight = Flight(now: int, batch: seq<string>)

  /** The requests a contract pump still has to visit. */
  datatype Pass = Pass(now: int, todo: seq<string>)

  datatype State = State(
    requests: seq<Request>,       // in the order they were added
    reports: seq<string>,
    nextRunAt: int,
    flight: Option<Flight>,
    pass: Option<Pass>,
    // What happened so far.
    read: set<(nat, SignerSet)>,  // signer sets the registry returned
    forwards: seq<int>,           // the clock at every forward
    returned: nat)                // forwards whose outcome came back

  datatype Event =
    | Deliver(asked: Asked, now: int)
    | ReadSigners(donId: nat, current: SignerSet)
    | TakeReport(signed: SignedReport, signers: Option<SignerSet>, accepted: seq<Address>)
    | PumpCre(now: int)
    | ForwardReturned                    // accepted or not
    | ForwardThrew
    | PumpContract(now: int)
    | Found(answer: Answer)              // the contract's answer about the next request's subject
    | Opened(block: nat)                 // opened for it, or earlier in the pass for the same subject
    | Waiting
    | CallFailed
    | PassEnds

  ghost predicate UniqueIds(requests: seq<Request>) {
    forall i, j :: 0 <= i < j < |requests| ==> requests[i].id != requests[j].id
  }

  /** The request an id names. */
  function Find(requests: seq<Request>, id: string): Option<Request> {
    if requests == [] then None
    else if requests[0].id == id then Some(requests[0])
    else Find(requests[1..], id)
  }

  // ----- what the steps do to requests: each keeps, changes or drops single requests -----

  predicate Expired(now: int, r: Request) { now - r.receivedAt > RETENTION_SECONDS }

  function DropExpired(now: int, requests: seq<Request>): seq<Request> {
    if requests == [] then []
    else (if Expired(now, requests[0]) then [] else [requests[0]]) + DropExpired(now, requests[1..])
  }

  function Each(requests: seq<Request>, f: Request -> Request): seq<Request> {
    if requests == [] then [] else [f(requests[0])] + Each(requests[1..], f)
  }

  function Answered(r: Request, reply: Reply): Request { r.(reply := Some(reply)) }

  /** The reply to a request a report is about; one too large for a Room goes without the report. */
  function ReplyFrom(foreign: Foreign, signed: SignedReport, header: Header, signatures: Signatures, a: Attestation, answer: Answer): Reply {
    var attested := Attested(a, answer, signatures, header, signed);
    if foreign.replyBytes(attested) > MAX_REPLY_BYTES then Unanswered(a, ReplyTooLarge) else attested
  }

  function AnswerFrom(foreign: Foreign, signed: SignedReport, header: Header, report: Report, signatures: Signatures, r: Request): Request {
    if r.reply.Some? then r
    else
      match AnswerFor(r.attestation, report)
      case Some(answer) => Answered(r, ReplyFrom(foreign, signed, header, signatures, r.attestation, answer))
      case None => r
  }

  function AnswerEach(foreign: Foreign, signed: SignedReport, header: Header, report: Report, signatures: Signatures, requests: seq<Request>): seq<Request> {
    Each(requests, r => AnswerFrom(foreign, signed, header, report, signatures, r))
  }

  /** A request asked as often as allowed, whose last answer is overdue. */
  predicate Exhausted(c: Answers, now: int, r: Request)
    requires c.Cre?
  {
    r.reply.None? && r.attempts >= c.maxAttempts && r.forwardedAt.Some? && r.forwardedAt.value + c.retrySeconds <= now
  }

  function GiveUp(c: Answers, now: int, r: Request): Request
    requires c.Cre?
  {
    if Exhausted(c, now, r) then Answered(r, Unanswered(r.attestation, NoFinishedReceipt)) else r
  }

  function GiveUpEach(c: Answers, now: int, requests: seq<Request>): seq<Request>
    requires c.Cre?
  {
    Each(requests, r => GiveUp(c, now, r))
  }

  predicate Due(c: Answers, now: int, r: Request)
    requires c.Cre?
  {
    r.reply.None? && r.attempts < c.maxAttempts && (r.forwardedAt.None? || r.forwardedAt.value + c.retrySeconds <= now)
  }

  predicate Overdue(c: Answers, now: int, r: Request)
    requires c.Contract?
  {
    r.reply.None? && r.forwardedAt.Some? && now - r.forwardedAt.value > c.answerWithinSeconds
  }

  function NotRecordedInTime(c: Answers, now: int, r: Request): Request
    requires c.Contract?
  {
    if Overdue(c, now, r) then Answered(r, Unanswered(r.attestation, NotRecorded)) else r
  }

  function Forwarded(now: int, batch: seq<string>, r: Request): Request {
    if r.id in batch then r.(attempts := r.attempts + 1, forwardedAt := Some(now)) else r
  }

  function Failed(r: Request): Request {
    var r' := r.(attempts := r.attempts + 1);
    if r'.attempts >= MAX_CHAIN_FAILURES then Answered(r', Unanswered(r.attestation, ChainUnavailable)) else r'
  }

  function Change(requests: seq<Request>, id: string, f: Request -> Request): seq<Request> {
    Each(requests, (r: Request) => if r.id == id && r.reply.None? then f(r) else r)
  }

  // ----- the order and the choice of a batch -----

  function ByReceivedAt(): Order<Request> { (a: Request, b: Request) => a.receivedAt < b.receivedAt }

  function Unreplied(requests: seq<Request>): seq<Request> {
    Sort(ByReceivedAt(), Filter(requests, (r: Request) => r.reply.None?))
  }

  datatype Batch = Batch(attest: map<string, Attestation>, members: seq<Request>)

  /** One execution takes one `publishOnchain` and MAX_ATTESTATIONS distinct attestations. */
  function Choose(due: seq<Request>, publishOnchain: bool): Batch {
    if due == [] then Batch(map[], [])
    else Consider(Choose(due[..|due| - 1], publishOnchain), due[|due| - 1], publishOnchain)
  }

  function Consider(batch: Batch, r: Request, publishOnchain: bool): Batch {
    var key := Describe(r.attestation);
    if r.publishOnchain != publishOnchain || (key !in batch.attest && |batch.attest| == MAX_ATTESTATIONS) then batch
    else Batch(batch.attest[key := r.attestation], batch.members + [r])
  }

  function Ids(requests: seq<Request>): seq<string> {
    if requests == [] then [] else [requests[0].id] + Ids(requests[1..])
  }

  // ----- the steps -----

  function NewRequest(asked: Asked, now: int): Request {
    Request(asked.id, asked.room, now, asked.attestation, asked.publishOnchain, 0, None, None, None)
  }

  function DoDeliver(s: State, asked: Asked, now: int): State {
    if Find(s.requests, asked.id).Some? then s else s.(requests := s.requests + [NewRequest(asked, now)])
  }

  function SignatureView(signers: Option<SignerSet>, accepted: seq<Address>): Signatures {
    if signers.Some? then Registry(signers.value.f, accepted) else Unverified
  }

  /** A report of the configured workflow, whose signatures were checked against a set the registry returned. */
  ghost predicate MayTake(c: Answers, foreign: Foreign, s: State, signed: SignedReport, signers: Option<SignerSet>, accepted: seq<Address>) {
    && c.Cre? && foreign.parse(signed.rawReport).Some?
    && foreign.parse(signed.rawReport).value.0.workflow == c.workflow
    && (signers.Some? <==> c.registry)
    && (signers.Some? ==>
          (foreign.parse(signed.rawReport).value.0.donId, signers.value) in s.read && Quorum(signed, signers.value, foreign.recover, accepted))
  }

  function Remember(reports: seq<string>, digest: string): seq<string> {
    var all := reports + [digest];
    if |all| > MAX_REMEMBERED_REPORTS then all[|all| - MAX_REMEMBERED_REPORTS..] else all
  }

  ghost function DoTakeReport(c: Answers, foreign: Foreign, s: State, signed: SignedReport, signers: Option<SignerSet>, accepted: seq<Address>): State {
    if !MayTake(c, foreign, s, signed, signers, accepted) then s
    else
      var (header, report) := foreign.parse(signed.rawReport).value;
      s.(requests := AnswerEach(foreign, signed, header, report, SignatureView(signers, accepted), s.requests),
         reports := Remember(s.reports, foreign.digest(signed.rawReport)))
  }

  function DueRequests(c: Answers, nextRunAt: int, requests: seq<Request>, now: int): seq<Request>
    requires c.Cre?
  {
    if now < nextRunAt then [] else Filter(Unreplied(requests), r => Due(c, now, r))
  }

  function DoPumpCre(c: Answers, s: State, now: int): State {
    if !c.Cre? || s.flight.Some? then s
    else
      var requests := GiveUpEach(c, now, DropExpired(now, s.requests));
      var due := DueRequests(c, s.nextRunAt, requests, now);
      if due == [] then s.(requests := requests)
      else
        s.(requests := requests, nextRunAt := now + c.paceSeconds,
           flight := Some(Flight(now, Ids(Choose(due, due[0].publishOnchain).members))),
           forwards := s.forwards + [now])
  }

  function DoForwardReturned(s: State): State {
    if s.flight.None? then s
    else
      var flight := s.flight.value;
      s.(requests := Each(s.requests, r => Forwarded(flight.now, flight.batch, r)), flight := None, returned := s.returned + 1)
  }

  function DoPumpContract(c: Answers, s: State, now: int): State {
    if !c.Contract? || s.pass.Some? then s
    else
      var requests := Each(DropExpired(now, s.requests), r => NotRecordedInTime(c, now, r));
      if now < s.nextRunAt then s.(requests := requests)
      else s.(requests := requests, nextRunAt := now + c.pollSeconds, pass := Some(Pass(now, Ids(Unreplied(requests)))))
  }

  /** The contract pump's current request. */
  function Visit(s: State, f: Request -> Request): State {
    if s.pass.None? || s.pass.value.todo == [] then s
    else s.(requests := Change(s.requests, s.pass.value.todo[0], f), pass := Some(s.pass.value.(todo := s.pass.value.todo[1..])))
  }

  function Open(now: int, block: nat, r: Request): Request {
    if r.forwardedAt.Some? then r else r.(forwardedAt := Some(now), requestedBlock := Some(block))
  }

  function PassStep(s: State, event: Event): State
    requires event.Found? || event.Opened? || event.Waiting? || event.CallFailed? || event.PassEnds?
  {
    if s.pass.None? then s
    else
      match event
      // An answer is about the subject the contract was asked for.
      case Found(answer) => Visit(s, (r: Request) => if Subject(answer) == r.attestation then Answered(r, Recorded(r.attestation, answer)) else r)
      case Opened(block) => Visit(s, r => Open(s.pass.value.now, block, r))
      case Waiting => Visit(s, r => r)
      case CallFailed => Visit(s, r => Failed(r))
      case PassEnds => if s.pass.value.todo == [] then s.(pass := None) else s
  }

  ghost function Step(c: Answers, foreign: Foreign, s: State, event: Event): State {
    match event
    case Deliver(asked, now) => DoDeliver(s, asked, now)
    case ReadSigners(donId, signers) => s.(read := s.read + {(donId, signers)})
    case TakeReport(signed, signers, accepted) => DoTakeReport(c, foreign, s, signed, signers, accepted)
    case PumpCre(now) => DoPumpCre(c, s, now)
    case ForwardReturned => DoForwardReturned(s)
    case ForwardThrew => s.(flight := None)
    case PumpContract(now) => DoPumpContract(c, s, now)
    case Found(_) | Opened(_) | Waiting | CallFailed | PassEnds => PassStep(s, event)
  }

  ghost function Execute(c: Answers, foreign: Foreign, s: State, trace: seq<Event>): State
    decreases |trace|
  {
    if trace == [] then s else Execute(c, foreign, Step(c, foreign, s, trace[0]), trace[1..])
  }

  /** A bridge that starts with saved requests and reports. */
  function Init(requests: seq<Request>, reports: seq<string>): State {
    State(requests, reports, 0, None, None, {}, [], 0)
  }
}
