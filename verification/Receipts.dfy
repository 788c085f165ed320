/**
 What the relay looks up and writes: subjects, report entries and what they are charged as
 (packages/cre/workflows/transfer-receipts/subjects.ts and packages/cre/relay/relay.ts).
 Hashes are their arguments: two different inputs never share one.
 */
module Receipts {
  import opened Basics

  const REQUEST_TRANSFER: int := 1
  const REQUEST_RECEIPT: int := 2
  const STANDARD: int := 1
  const ROOM_DELIVERY: int := 2
  const JOB: int := 3

  datatype RoomKey = RoomKey(room: string, channel: string, publication: string)

  datatype Subject =
    | TransferSubject(transferId: string, request: Option<string>)
    | RoomSubject(key: RoomKey, request: Option<string>)
    | RoomRequestSubject(room: string, channel: string, requestId: string)
    | JobSubject(room: string, inputChannel: string, outputChannel: string, requestId: string)

  /** `subjectKey`: the same subject asked for with and without a request id has one key. */
  datatype Key = ByTransfer(transferId: string) | ByRoom(key: RoomKey) | ByRoomRequest(requestId: string) | ByJob(requestId: string)

  function SubjectKey(subject: Subject): Key {
    match subject
    case TransferSubject(id, _) => ByTransfer(id)
    case RoomSubject(key, _) => ByRoom(key)
    case RoomRequestSubject(_, _, id) => ByRoomRequest(id)
    case JobSubject(_, _, _, id) => ByJob(id)
  }

  /** An open request of the contract. */
  datatype OpenRequest = OpenRequest(
    key: string, kind: int, transferKind: int, requester: string, openedAt: int, requestId: string, transferId: string, room: RoomKey)

  datatype RoomRoute = RoomRoute(room: string, channel: string)

  /** Where Room deliveries and jobs publish; `transferIdFor` is the transfer a client's request id derives. */
  datatype Routes = Routes(roomDelivery: Option<RoomRoute>, jobOutput: Option<string>, transferIdFor: string -> string)

  function SubjectForOpenRequest(routes: Routes, request: OpenRequest): Option<Subject> {
    if request.kind == REQUEST_TRANSFER then
      if request.transferKind == ROOM_DELIVERY then
        match routes.roomDelivery
        case Some(route) => Some(RoomRequestSubject(route.room, route.channel, request.requestId))
        case None => None
      else if request.transferKind == JOB then
        if routes.roomDelivery.None? || routes.jobOutput.None? then None
        else Some(JobSubject(routes.roomDelivery.value.room, routes.roomDelivery.value.channel, routes.jobOutput.value, request.requestId))
      else if request.transferKind != STANDARD then None
      else Some(TransferSubject(routes.transferIdFor(request.requestId), Some(request.requestId)))
    else if request.kind == REQUEST_RECEIPT then Some(TransferSubject(request.transferId, None))
    else Some(RoomSubject(request.room, None))
  }

  /** What Beam says about a subject; `Other` is an error, an invalid answer or none. */
  datatype Observation = SawTransfer | SawRoom | SawNotRoom | Absent | Unfinished | Other

  datatype Lookup = Found(publication: string) | LookupAbsent | LookupOther

  datatype Entry =
    | StandardEntry(transferId: string, request: Option<string>)
    | RoomEntry(key: RoomKey, request: Option<string>)
    | ClosureEntry(key: RoomKey)
    | JobEntry(requestId: string, input: RoomKey, output: RoomKey)

  function ReportEntryFor(subject: Subject, observation: Observation): Option<Entry> {
    if subject.TransferSubject? && observation.SawTransfer? then Some(StandardEntry(subject.transferId, subject.request))
    else if subject.RoomSubject? && observation.SawRoom? then Some(RoomEntry(subject.key, subject.request))
    else if subject.RoomSubject? && observation.SawNotRoom? then Some(ClosureEntry(subject.key))
    else None
  }

  /** The two Room receipts of a job, and the result that links them; None while either is no finished Room transfer. */
  function JobEntriesFor(job: Subject, input: string, output: string, inputSaw: Observation, outputSaw: Observation): Option<seq<Entry>>
    requires job.JobSubject?
  {
    var inputKey, outputKey := RoomKey(job.room, job.inputChannel, input), RoomKey(job.room, job.outputChannel, output);
    var inputEntry := ReportEntryFor(RoomSubject(inputKey, None), inputSaw);
    var outputEntry := ReportEntryFor(RoomSubject(outputKey, None), outputSaw);
    if inputEntry.None? || outputEntry.None? || !inputEntry.value.RoomEntry? || !outputEntry.value.RoomEntry? then None
    else Some([inputEntry.value, outputEntry.value, JobEntry(job.requestId, inputKey, outputKey)])
  }

  /** A job is answered exactly when both its publications ran as finished Room transfers, and then with both receipts. */
  lemma JobNeedsBothPublications(job: Subject, input: string, output: string, inputSaw: Observation, outputSaw: Observation)
    requires job.JobSubject?
    ensures var entries := JobEntriesFor(job, input, output, inputSaw, outputSaw);
            && (entries.Some? <==> inputSaw.SawRoom? && outputSaw.SawRoom?)
            && (entries.Some? ==>
                  && |entries.value| == 3 && entries.value[2].JobEntry? && entries.value[2].requestId == job.requestId
                  && entries.value[0] == RoomEntry(entries.value[2].input, None) && entries.value[1] == RoomEntry(entries.value[2].output, None)
                  && entries.value[2].input == RoomKey(job.room, job.inputChannel, input)
                  && entries.value[2].output == RoomKey(job.room, job.outputChannel, output))
  {
  }

  /** A request names its transfer or publication itself, or by the id a client chose and where this deployment publishes. */
  ghost predicate IsWhatWasAsked(routes: Routes, request: OpenRequest, subject: Subject) {
    match subject
    case TransferSubject(id, None) => request.kind == 2 && id == request.transferId
    case TransferSubject(id, Some(requestId)) => request.transferKind == 1 && requestId == request.requestId && id == routes.transferIdFor(requestId)
    case RoomSubject(key, requestId) => request.kind != 2 && key == request.room && requestId.None?
    case RoomRequestSubject(room, channel, requestId) =>
      request.transferKind == 2 && routes.roomDelivery == Some(RoomRoute(room, channel)) && requestId == request.requestId
    case JobSubject(room, input, output, requestId) =>
      && request.transferKind == 3 && routes.roomDelivery == Some(RoomRoute(room, input)) && routes.jobOutput == Some(output)
      && requestId == request.requestId
  }

  /** Only a request to start something has no subject, when its kind has no route, or carries a request id. */
  lemma OnlyStartsCarryRequestIds(routes: Routes, request: OpenRequest)
    ensures var subject := SubjectForOpenRequest(routes, request);
            && (request.kind != 1 ==>
                  subject.Some? && !HasRequestId(subject.value) && (subject.value.TransferSubject? || subject.value.RoomSubject?))
            && (request.kind == 1 ==>
                  (subject.Some? <==> request.transferKind == 1
                                      || (request.transferKind == 2 && routes.roomDelivery.Some?)
                                      || (request.transferKind == 3 && routes.roomDelivery.Some? && routes.jobOutput.Some?)))
            && (subject.Some? && subject.value.JobSubject? ==> request.kind == 1 && request.transferKind == 3)
            && (subject.Some? && HasRequestId(subject.value) <==> subject.Some? && request.kind == 1 && request.requestId != "")
            && (subject.Some? ==> IsWhatWasAsked(routes, request, subject.value))
  {
  }

  /** A receipt the contract holds. */
  datatype Receipt = TransferReceipt(transferId: string) | RoomReceipt(key: RoomKey)

  /** The subject key of a receipt. */
  function KeyOfReceipt(receipt: Receipt): Key {
    match receipt
    case TransferReceipt(id) => ByTransfer(id)
    case RoomReceipt(key) => ByRoom(key)
  }

  /** What the website keys a charge by. */
  datatype ChargeSubject = ForReceipt(receipt: Receipt) | ForClosing(requestKey: string)

  /** `chargeSubjectOf`: the receipt an entry records; closures and job results are never charged. */
  function ReceiptOf(entry: Entry): Option<Receipt> {
    match entry
    case StandardEntry(id, _) => Some(TransferReceipt(id))
    case RoomEntry(key, _) => Some(RoomReceipt(key))
    case ClosureEntry(_) | JobEntry(_, _, _) => None
  }

  /** An entry is about the subject it was built for, whatever request it carries, and a closure is the only uncharged one. */
  lemma EntryIsAboutItsSubject(subject: Subject, observation: Observation)
    requires ReportEntryFor(subject, observation).Some?
    ensures var entry := ReportEntryFor(subject, observation).value;
            && !entry.JobEntry?
            && (ReceiptOf(entry).None? <==> entry.ClosureEntry?)
            && (ReceiptOf(entry).Some? ==>
                  SubjectKey(subject) == KeyOfReceipt(ReceiptOf(entry).value))
  {
  }

  // ----- who asks -----

  datatype Owner = Beam | OwnedBy(organizationId: string)

  /** A subject to look up, and for whom; a customer's own request comes along, since the pass may have to cancel it. */
  datatype Pending = Pending(subject: Subject, owner: Owner, observation: Option<Observation>, request: Option<OpenRequest>)

  /** A customer asks for receipts only, so it never owns a delivery, a job or anything with a request id. */
  predicate AsksForReceiptOnly(item: Pending) {
    item.owner.OwnedBy? ==> (item.subject.TransferSubject? || item.subject.RoomSubject?) && item.subject.request.None?
  }

  predicate HasRequestId(subject: Subject) {
    match subject
    case TransferSubject(_, request) => request.Some? && request.value != ""
    case RoomSubject(_, request) => request.Some? && request.value != ""
    case RoomRequestSubject(_, _, id) => id != ""
    case JobSubject(_, _, _, id) => id != ""
  }

  ghost predicate OneEach(pending: seq<Pending>) {
    forall i, j :: 0 <= i < j < |pending| ==> SubjectKey(pending[i].subject) != SubjectKey(pending[j].subject)
  }

  /** The position of a key, or the length when it has none. */
  function Position(pending: seq<Pending>, key: Key): nat
    ensures Position(pending, key) <= |pending|
    ensures Position(pending, key) < |pending| ==> SubjectKey(pending[Position(pending, key)].subject) == key
    ensures forall i :: 0 <= i < Position(pending, key) ==> SubjectKey(pending[i].subject) != key
  {
    if pending == [] then 0
    else if SubjectKey(pending[0].subject) == key then 0
    else 1 + Position(pending[1..], key)
  }

  /** Each subject is pending once; a copy with a request id replaces one without, in its place. */
  function Add(pending: seq<Pending>, item: Pending): seq<Pending> {
    var at := Position(pending, SubjectKey(item.subject));
    if at == |pending| then pending + [item]
    else if !HasRequestId(pending[at].subject) && HasRequestId(item.subject) then pending[at := item]
    else pending
  }

  /** Adding keeps one item a subject, loses no subject and no request id, and invents nothing. */
  lemma AddMeaning(pending: seq<Pending>, item: Pending)
    requires OneEach(pending)
    ensures OneEach(Add(pending, item))
    ensures forall p :: p in Add(pending, item) ==> p in pending || p == item
    ensures exists p :: p in Add(pending, item) && SubjectKey(p.subject) == SubjectKey(item.subject)
                        && (HasRequestId(item.subject) ==> HasRequestId(p.subject))
    ensures forall p :: p in pending ==> exists q :: q in Add(pending, item) && SubjectKey(q.subject) == SubjectKey(p.subject)
                                                     && (HasRequestId(p.subject) ==> q == p)
  {
    var at, added := Position(pending, SubjectKey(item.subject)), Add(pending, item);
    if at == |pending| {
      assert added[|pending|] == item;
      forall p | p in pending ensures p in added { var i :| 0 <= i < |pending| && pending[i] == p; assert added[i] == p; }
    } else {
      assert added[at] in added;
      forall p | p in pending
        ensures exists q :: q in added && SubjectKey(q.subject) == SubjectKey(p.subject) && (HasRequestId(p.subject) ==> q == p)
      {
        var i :| 0 <= i < |pending| && pending[i] == p;
        assert added[i] in added;
      }
    }
  }
}
