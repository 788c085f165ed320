/**
 What a relay pass has to do with what the chain, Beam and the registry tell it
 (packages/cre/relay/relay.ts), written without its loops.
 */
module RelayRules {
  import opened Basics
  import opened StableSort
  import opened Customers
  import opened Receipts
  import opened RelayLedger

  const MAX_ENTRIES_PER_REPORT: nat := 14
  const ABSENT_GRACE_MS: int := 60 * 60 * 1000

  datatype Status = Waiting | Approved | Revoked
  datatype Requester = Requester(address: string, status: Status)

  /** An organization set up in the console. */
  datatype Account = Account(organizationId: string, periods: seq<Period>, requesters: seq<Requester>)

  /** `maxPerOrganization` is None outside customers mode. */
  datatype Settings = Settings(routes: Routes, relayAccount: string, maxPerOrganization: Option<nat>)

  /** What the chain, Beam and the registry answer during one pass; None is a call that throws. */
  datatype Inputs = Inputs(
    customers: seq<Account>,
    openRequests: Option<seq<OpenRequest>>,
    lookup: Subject -> Option<Lookup>,
    observe: Subject -> Option<Observation>,
    finishedTransfers: (string, int) -> Option<seq<Row>>,
    now: int)

  datatype Unanswerable = Unanswerable(request: OpenRequest, organizationId: string)
  datatype Planned = Planned(entry: Entry, owner: Owner, key: Key)

  /** A credit of an organization that the website is asked to hold for a charge. */
  datatype Ask = Ask(charge: ChargeSubject, organizationId: string)

  /** One report, and what the pass had held when it was sent. */
  datatype Report = Report(batch: seq<Planned>, held: set<ChargeSubject>)

  // ----- what a pass relies on and keeps -----

  /** The request came from an address that the organization registered. */
  ghost predicate Asked(customers: seq<Account>, request: OpenRequest, organizationId: string) {
    exists account, requester :: account in customers && requester in account.requesters
                                 && account.organizationId == organizationId && requester.address == request.requester
  }

  /** The observation is what a listing shows for the transfer. */
  ghost predicate ListedAs(facts: Facts, id: string, observation: Observation) {
    exists org, row :: row in facts.rows(org) && row.id == id && row.observation == observation
  }

  ghost predicate Known(facts: Facts, customers: seq<Account>, item: Pending) {
    && AsksForReceiptOnly(item)
    && (item.observation.Some? ==> item.subject.TransferSubject? && ListedAs(facts, item.subject.transferId, item.observation.value))
    && (item.request.Some? ==> item.owner.OwnedBy? && Asked(customers, item.request.value, item.owner.organizationId))
  }

  ghost predicate AllKnown(facts: Facts, customers: seq<Account>, pending: seq<Pending>) {
    forall item :: item in pending ==> Known(facts, customers, item)
  }

  ghost predicate AllAsked(customers: seq<Account>, unanswerable: seq<Unanswerable>) {
    forall u :: u in unanswerable ==> Asked(customers, u.request, u.organizationId)
  }

  /** A customer's receipt, which costs a credit. */
  predicate Chargeable(p: Planned) { p.owner.OwnedBy? && ReceiptOf(p.entry).Some? }

  function Charge(p: Planned): ChargeSubject
    requires Chargeable(p)
  {
    ForReceipt(ReceiptOf(p.entry).value)
  }

  ghost predicate CommitsAsked(planned: seq<Planned>, asked: set<ChargeSubject>) {
    forall p :: p in planned && Chargeable(p) ==> Charge(p) in asked
  }

  /** Whatever the website called charged since then is settled. */
  ghost predicate ChargedSettled(before: set<ChargeSubject>, charged: set<ChargeSubject>, settled: set<Key>) {
    forall r :: ForReceipt(r) in charged && ForReceipt(r) !in before ==> KeyOfReceipt(r) in settled
  }

  ghost predicate ChargesHeld(batch: seq<Planned>, held: set<ChargeSubject>) {
    forall p :: p in batch && Chargeable(p) ==> ForReceipt(ReceiptOf(p.entry).value) in held
  }

  /** The key a planned entry settles is that of its receipt; a job result is never a customer's. */
  ghost predicate KeysFit(planned: seq<Planned>) {
    forall p :: p in planned ==>
      && (Chargeable(p) ==> p.key == KeyOfReceipt(ReceiptOf(p.entry).value))
      && (p.entry.JobEntry? ==> p.owner.Beam?)
  }

  /** A job result directly follows its two receipts. */
  ghost predicate JobsFollow(planned: seq<Planned>) {
    forall k :: 0 <= k < |planned| && planned[k].entry.JobEntry? ==>
      && k >= 2 && planned[k - 2].entry == RoomEntry(planned[k].entry.input, None) && planned[k - 1].entry == RoomEntry(planned[k].entry.output, None)
  }

  function EntriesOf(planned: seq<Planned>): seq<Entry> {
    seq(|planned|, i requires 0 <= i < |planned| => planned[i].entry)
  }

  /** What Beam and the registry promise: complete listings whose cut is clear, and periods that agree with what is owed. */
  ghost predicate Honest(facts: Facts, settings: Settings, inputs: Inputs) {
    && (forall account :: account in inputs.customers ==> Agrees(facts, account.organizationId, account.periods))
    && (settings.maxPerOrganization.Some? ==> forall org, cursor :: inputs.finishedTransfers(org, cursor).Some? ==>
          Listable(facts, org, cursor, inputs.finishedTransfers(org, cursor).value, settings.maxPerOrganization.value))
  }

  ghost predicate Listable(facts: Facts, org: string, cursor: int, answer: seq<Row>, max: nat) {
    CompleteAnswer(facts, org, cursor, answer) && ClearCut(Sort(ByCompletion(), answer), max)
  }

  ghost predicate ListingReady(facts: Facts, w: World, l: Listing) {
    NothingSkipped(facts, w, l.org, l.cursor) && CompleteListing(facts, l) && (l.org in w.cursors ==> l.cursor == w.cursors[l.org])
  }

  ghost predicate ListingsReady(facts: Facts, w: World, listings: seq<Listing>) {
    forall l :: l in listings ==> ListingReady(facts, w, l)
  }

  lemma ListingsStayReady(facts: Facts, w: World, w': World, listings: seq<Listing>)
    requires ListingsReady(facts, w, listings) && Later(w, w') && w'.cursors == w.cursors
    ensures ListingsReady(facts, w', listings)
  {
    forall l, row | l in listings && Owed(facts, l.org, row) && row.completedAt <= l.cursor ensures TransferSettled(facts, w', row.id) {
      assert ListingReady(facts, w, l);
      SettledStays(facts, w, w', row.id);
    }
  }

  lemma SettledStaysSound(facts: Facts, w: World, w': World, settled: set<Key>)
    requires SettledSound(facts, w, settled) && Later(w, w')
    ensures SettledSound(facts, w', settled)
  {
    forall id | ByTransfer(id) in settled ensures TransferSettled(facts, w', id) { SettledStays(facts, w, w', id); }
  }

  /** In a batch of a plan whose earlier entries are on chain, every job result has its receipts. */
  lemma BatchCoversItsJobs(w: World, planned: seq<Planned>, i: nat, j: nat)
    requires i <= j <= |planned| && JobsFollow(planned) && ReceiptsOf(EntriesOf(planned[..i])) <= w.receipts
    ensures JobsCovered(w, EntriesOf(planned[i..j]))
  {
    var entries := EntriesOf(planned[i..j]);
    forall e | e in entries && e.JobEntry?
      ensures RoomReceipt(e.input) in w.receipts + ReceiptsOf(entries) && RoomReceipt(e.output) in w.receipts + ReceiptsOf(entries)
    {
      var k :| 0 <= k < |entries| && entries[k] == e;
      EntryIsThere(w, planned, i, j, i + k - 2);
      EntryIsThere(w, planned, i, j, i + k - 1);
    }
  }

  lemma EntryIsThere(w: World, planned: seq<Planned>, i: nat, j: nat, k: nat)
    requires i <= j <= |planned| && k < j && ReceiptOf(planned[k].entry).Some? && ReceiptsOf(EntriesOf(planned[..i])) <= w.receipts
    ensures ReceiptOf(planned[k].entry).value in w.receipts + ReceiptsOf(EntriesOf(planned[i..j]))
  {
    if k < i {
      assert EntriesOf(planned[..i])[k] == planned[k].entry;
      assert planned[k].entry in EntriesOf(planned[..i]);
    } else {
      assert EntriesOf(planned[i..j])[k - i] == planned[k].entry;
      assert planned[k].entry in EntriesOf(planned[i..j]);
    }
  }

  lemma OnChainPrefix(w: World, planned: seq<Planned>, i: nat, j: nat)
    requires i <= j <= |planned| && OnChain(w, EntriesOf(planned[..i])) && OnChain(w, EntriesOf(planned[i..j]))
    ensures OnChain(w, EntriesOf(planned[..j]))
  {
    var all, first, rest := EntriesOf(planned[..j]), EntriesOf(planned[..i]), EntriesOf(planned[i..j]);
    forall e | e in all ensures e in first || e in rest {
      var k :| 0 <= k < |all| && all[k] == e;
      if k < i { assert first[k] == e; } else { assert rest[k - i] == e; }
    }
  }


  lemma AskedForBoth(planned: seq<Planned>, i: nat, j: nat, asked: set<ChargeSubject>, asked': set<ChargeSubject>)
    requires i <= j <= |planned| && asked <= asked'
    requires CommitsAsked(planned[..i], asked) && CommitsAsked(planned[i..j], asked')
    ensures CommitsAsked(planned[..j], asked')
  {
    forall p | p in planned[..j] && Chargeable(p) ensures Charge(p) in asked' {
      var k :| 0 <= k < j && planned[k] == p;
      if k < i { assert planned[..i][k] == p; } else { assert planned[i..j][k - i] == p; }
    }
  }

  /** Some item waits under the key. */
  ghost predicate IsPending(pending: seq<Pending>, key: Key) {
    exists item :: item in pending && SubjectKey(item.subject) == key
  }

  ghost predicate OwedArePending(pending: seq<Pending>, transfers: seq<ListedRow>) {
    forall k :: 0 <= k < |transfers| && transfers[k].owed ==> IsPending(pending, ByTransfer(transfers[k].row.id))
  }

  ghost predicate AllOwedPending(pending: seq<Pending>, listings: seq<Listing>) {
    forall l :: l in listings ==> OwedArePending(pending, l.transfers)
  }

  lemma OneMoreListing(facts: Facts, w: World, listings: seq<Listing>, last: Listing, before: seq<Pending>, after: seq<Pending>)
    requires forall key :: IsPending(before, key) ==> IsPending(after, key)
    requires AllOwedPending(before, listings) && OwedArePending(after, last.transfers)
    requires ListingsReady(facts, w, listings) && ListingsReady(facts, w, [last])
    ensures AllOwedPending(after, listings + [last]) && ListingsReady(facts, w, listings + [last])
  {
    assert last in [last];
  }

  lemma AddKeepsPending(pending: seq<Pending>, item: Pending)
    requires OneEach(pending)
    ensures IsPending(Add(pending, item), SubjectKey(item.subject))
    ensures forall key :: IsPending(pending, key) ==> IsPending(Add(pending, item), key)
  {
    AddMeaning(pending, item);
    forall key | IsPending(pending, key) ensures IsPending(Add(pending, item), key) {
      var p :| p in pending && SubjectKey(p.subject) == key;
    }
  }

  // ----- what the inputs of a pass say about a pending subject -----

  /** The receipt subject of an item that is no job; a Room delivery's publication has to be found first. */
  function SubjectOf(inputs: Inputs, item: Pending): Option<Subject> {
    if !item.subject.RoomRequestSubject? then Some(item.subject)
    else
      match inputs.lookup(item.subject)
      case Some(Found(publication)) =>
        Some(RoomSubject(RoomKey(item.subject.room, item.subject.channel, publication), Some(item.subject.requestId)))
      case _ => None
  }

  function Observed(inputs: Inputs, item: Pending): Option<Observation> {
    match SubjectOf(inputs, item)
    case Some(subject) => if item.observation.Some? then item.observation else inputs.observe(subject)
    case None => None
  }

  /** The entry that answers an item that is no job, when it can be answered now. */
  function EntryFor(inputs: Inputs, item: Pending): Option<Entry> {
    match Observed(inputs, item)
    case Some(observation) => ReportEntryFor(SubjectOf(inputs, item).value, observation)
    case None => None
  }

  function Publication(lookup: Option<Lookup>): Option<string> {
    match lookup
    case Some(Found(publication)) => Some(publication)
    case _ => None
  }

  /** The entries that answer a job, when both its publications are found and finished. */
  function EntriesForJob(inputs: Inputs, job: Subject): Option<seq<Entry>>
    requires job.JobSubject?
  {
    var input := Publication(inputs.lookup(RoomRequestSubject(job.room, job.inputChannel, job.requestId)));
    var output := Publication(inputs.lookup(RoomRequestSubject(job.room, job.outputChannel, job.requestId)));
    if input.None? || output.None? then None
    else
      var inputSaw := inputs.observe(RoomSubject(RoomKey(job.room, job.inputChannel, input.value), None));
      var outputSaw := inputs.observe(RoomSubject(RoomKey(job.room, job.outputChannel, output.value), None));
      if inputSaw.None? || outputSaw.None? then None
      else JobEntriesFor(job, input.value, output.value, inputSaw.value, outputSaw.value)
  }

  /** What a pass may plan for an item: its job's entries, or its one entry. */
  function Plan(inputs: Inputs, item: Pending): seq<Planned> {
    if item.subject.JobSubject? then
      match EntriesForJob(inputs, item.subject)
      case Some(entries) =>
        JobNeedsThree(inputs, item.subject);
        [Planned(entries[0], item.owner, SubjectKey(item.subject)), Planned(entries[1], item.owner, SubjectKey(item.subject)),
         Planned(entries[2], item.owner, SubjectKey(item.subject))]
      case None => []
    else
      match EntryFor(inputs, item)
      case Some(entry) => [Planned(entry, item.owner, SubjectKey(SubjectOf(inputs, item).value))]
      case None => []
  }

  lemma JobNeedsThree(inputs: Inputs, job: Subject)
    requires job.JobSubject?
    ensures EntriesForJob(inputs, job).Some? ==> |EntriesForJob(inputs, job).value| == 3
  {
  }

  // ----- the same, by what was seen -----

  /** What the pass sees under the item: its subject (a Room delivery's is its publication, once found) and an observation of it. */
  ghost predicate Sees(inputs: Inputs, item: Pending, subject: Subject, observation: Observation) {
    && (if item.subject.RoomRequestSubject?
        then subject.RoomSubject? && subject.key.room == item.subject.room && subject.key.channel == item.subject.channel
             && subject.request == Some(item.subject.requestId) && inputs.lookup(item.subject) == Some(Found(subject.key.publication))
        else subject == item.subject)
    && Some(observation) == (if item.observation.Some? then item.observation else inputs.observe(subject))
  }

  /** Both publications of the job were found under its request id, and ran as finished Room transfers. */
  ghost predicate JobRan(inputs: Inputs, job: Subject, input: RoomKey, output: RoomKey)
    requires job.JobSubject?
  {
    && input.room == job.room && input.channel == job.inputChannel && output.room == job.room && output.channel == job.outputChannel
    && inputs.lookup(RoomRequestSubject(job.room, job.inputChannel, job.requestId)) == Some(Found(input.publication))
    && inputs.lookup(RoomRequestSubject(job.room, job.outputChannel, job.requestId)) == Some(Found(output.publication))
    && inputs.observe(RoomSubject(input, None)) == Some(SawRoom) && inputs.observe(RoomSubject(output, None)) == Some(SawRoom)
  }

  ghost predicate RanAs(inputs: Inputs, item: Pending, key: RoomKey) {
    item.subject.JobSubject? && exists input, output :: JobRan(inputs, item.subject, input, output) && (key == input || key == output)
  }

  /** What was seen of the item calls for just this entry. */
  ghost predicate CallsFor(inputs: Inputs, item: Pending, entry: Entry) {
    match entry
    case StandardEntry(id, request) => Sees(inputs, item, TransferSubject(id, request), SawTransfer)
    case RoomEntry(key, request) => Sees(inputs, item, RoomSubject(key, request), SawRoom) || (request.None? && RanAs(inputs, item, key))
    case ClosureEntry(key) => exists request :: Sees(inputs, item, RoomSubject(key, request), SawNotRoom)
    case JobEntry(id, input, output) => item.subject.JobSubject? && id == item.subject.requestId && JobRan(inputs, item.subject, input, output)
  }

  lemma EntryForCalls(inputs: Inputs, item: Pending, entry: Entry)
    requires !item.subject.JobSubject?
    ensures EntryFor(inputs, item) == Some(entry) <==> CallsFor(inputs, item, entry)
  {
    if SubjectOf(inputs, item).Some? && Observed(inputs, item).Some? {
      assert Sees(inputs, item, SubjectOf(inputs, item).value, Observed(inputs, item).value);
    }
  }

  lemma JobCalls(inputs: Inputs, item: Pending, entry: Entry)
    requires item.subject.JobSubject?
    ensures EntriesForJob(inputs, item.subject).Some? && entry in EntriesForJob(inputs, item.subject).value <==> CallsFor(inputs, item, entry)
  {
    var entries := EntriesForJob(inputs, item.subject);
    if entries.Some? {
      var input, output := entries.value[2].input, entries.value[2].output;
      assert JobRan(inputs, item.subject, input, output);
      assert entries.value == [RoomEntry(input, None), RoomEntry(output, None), JobEntry(item.subject.requestId, input, output)];
    }
    if CallsFor(inputs, item, entry) {
      var input, output :| JobRan(inputs, item.subject, input, output);
      var job := item.subject;
      assert JobRan(inputs, job, input, output);
      assert input.room == job.room;
      assert input.channel == job.inputChannel;
      assert input == RoomKey(job.room, job.inputChannel, input.publication) && output == RoomKey(job.room, job.outputChannel, output.publication);
      assert entries == JobEntriesFor(job, input.publication, output.publication, SawRoom, SawRoom);
      assert entries.value == [RoomEntry(input, None), RoomEntry(output, None), JobEntry(item.subject.requestId, input, output)];
    }
  }

  /** What a pass may plan for an item is what was seen of it, no more and no less, for the item's owner. */
  lemma PlanIsWhatWasSeen(inputs: Inputs, item: Pending, entry: Entry)
    ensures (exists p :: p in Plan(inputs, item) && p.entry == entry) <==> CallsFor(inputs, item, entry)
    ensures forall p :: p in Plan(inputs, item) ==> p.owner == item.owner
  {
    if item.subject.JobSubject? {
      JobCalls(inputs, item, entry);
      var plan := Plan(inputs, item);
      if EntriesForJob(inputs, item.subject).Some? {
        JobNeedsThree(inputs, item.subject);
        assert plan[0] in plan && plan[1] in plan && plan[2] in plan;
      }
    } else {
      EntryForCalls(inputs, item, entry);
      if EntryFor(inputs, item).Some? { assert Plan(inputs, item)[0] in Plan(inputs, item); }
    }
  }

  /** What an entry costs a customer; closures and job results are never charged, and Beam is not either. */
  function Cost(owner: Owner, entry: Entry): Option<ChargeSubject> {
    match entry
    case StandardEntry(id, _) => if owner.Beam? then None else Some(ForReceipt(TransferReceipt(id)))
    case RoomEntry(key, _) => if owner.Beam? then None else Some(ForReceipt(RoomReceipt(key)))
    case ClosureEntry(_) | JobEntry(_, _, _) => None
  }

  ghost predicate IsPlanned(planned: seq<Planned>, entry: Entry, owner: Owner) {
    exists p :: p in planned && p.entry == entry && p.owner == owner
  }

  /** The website was asked to hold a credit of the owner, and its answer decides: held is planned, charged or released is settled. */
  ghost predicate AsTheWebsiteSays(trail: Trail, holdsAsked: set<Ask>, answers: map<ChargeSubject, ChargeOutcome>, entry: Entry, owner: Owner) {
    match Cost(owner, entry)
    case None => IsPlanned(trail.planned, entry, owner)
    case Some(charge) =>
      && owner.OwnedBy? && Ask(charge, owner.organizationId) in holdsAsked && charge in answers
      && (IsPlanned(trail.planned, entry, owner) <==> answers[charge].Held?)
      && (answers[charge].Charged? || answers[charge].Released? ==>
            (entry.StandardEntry? ==> ByTransfer(entry.transferId) in trail.settled) && (entry.RoomEntry? ==> ByRoom(entry.key) in trail.settled))
  }

  /** Every entry that what was seen calls for is planned, or its charge was asked for and answered otherwise; nothing else is planned. */
  ghost predicate AllAnswered(inputs: Inputs, trail: Trail, holdsAsked: set<Ask>, answers: map<ChargeSubject, ChargeOutcome>) {
    && (forall item, entry :: item in trail.pending && CallsFor(inputs, item, entry) ==> AsTheWebsiteSays(trail, holdsAsked, answers, entry, item.owner))
    && (forall p :: p in trail.planned ==> exists item :: item in trail.pending && item.owner == p.owner && CallsFor(inputs, item, p.entry))
    && (forall ask :: ask in holdsAsked && ask.charge.ForReceipt? ==> CalledFor(inputs, trail.pending, ask))
  }

  /** The credit is for an entry that an item of that organization calls for. */
  ghost predicate CalledFor(inputs: Inputs, pending: seq<Pending>, ask: Ask) {
    exists item, entry :: item in pending && CallsFor(inputs, item, entry) && Cost(item.owner, entry) == Some(ask.charge)
                          && item.owner == OwnedBy(ask.organizationId)
  }

  /** Every charge of the first `n` items was asked for, and the website's answer followed. */
  ghost predicate ChargesFollowed(inputs: Inputs, pending: seq<Pending>, n: nat, planned: seq<Planned>, settled: set<Key>, answers: map<ChargeSubject, ChargeOutcome>) {
    && (forall k, p :: 0 <= k < n <= |pending| && p in Plan(inputs, pending[k]) && Chargeable(p) ==> ChargeFollowed(p, planned, settled, answers))
    && (forall p :: p in planned ==> PlannedFor(inputs, pending, n, p) && (Chargeable(p) ==> Charge(p) in answers && answers[Charge(p)].Held?))
  }

  ghost predicate ChargeFollowed(p: Planned, planned: seq<Planned>, settled: set<Key>, answers: map<ChargeSubject, ChargeOutcome>)
    requires Chargeable(p)
  {
    Charge(p) in answers && (answers[Charge(p)].Held? ==> p in planned) && (Over(answers[Charge(p)]) ==> p.key in settled)
  }

  ghost predicate PlannedFor(inputs: Inputs, pending: seq<Pending>, n: nat, p: Planned) {
    exists k :: 0 <= k < n <= |pending| && p in Plan(inputs, pending[k])
  }

  /** What a charge of an item is about is the item itself. */
  lemma ChargeIsOfItem(inputs: Inputs, item: Pending, p: Planned)
    requires AsksForReceiptOnly(item) && p in Plan(inputs, item) && Chargeable(p)
    ensures !item.subject.JobSubject? && KeyOfReceipt(ReceiptOf(p.entry).value) == SubjectKey(item.subject) == p.key
  {
    EntryIsAboutItsSubject(SubjectOf(inputs, item).value, Observed(inputs, item).value);
  }

  /** The credit was asked for the plan of an item. */
  ghost predicate AskedOfPlan(inputs: Inputs, item: Pending, ask: Ask) {
    exists p :: p in Plan(inputs, item) && Chargeable(p) && ask == Ask(Charge(p), p.owner.organizationId)
  }

  ghost predicate AllAsksOfPlans(inputs: Inputs, pending: seq<Pending>, holdsAsked: set<Ask>) {
    forall ask :: ask in holdsAsked ==> exists item :: item in pending && AskedOfPlan(inputs, item, ask)
  }

  lemma OneMoreAsk(inputs: Inputs, pending: seq<Pending>, item: Pending, asked: set<Ask>, asked': set<Ask>)
    requires item in pending && AllAsksOfPlans(inputs, pending, asked)
    requires forall ask :: ask in asked' && ask !in asked ==> AskedOfPlan(inputs, item, ask)
    ensures AllAsksOfPlans(inputs, pending, asked')
  {
  }

  lemma AsksAreCalledFor(inputs: Inputs, pending: seq<Pending>, holdsAsked: set<Ask>)
    requires AllAsksOfPlans(inputs, pending, holdsAsked)
    ensures forall ask :: ask in holdsAsked ==> ask.charge.ForReceipt? && CalledFor(inputs, pending, ask)
  {
    forall ask | ask in holdsAsked ensures ask.charge.ForReceipt? && CalledFor(inputs, pending, ask) {
      var item :| item in pending && AskedOfPlan(inputs, item, ask);
      var p :| p in Plan(inputs, item) && Chargeable(p) && ask == Ask(Charge(p), p.owner.organizationId);
      PlanIsWhatWasSeen(inputs, item, p.entry);
      CostIsCharge(p);
    }
  }

  /** A step about one item does not touch the charges of another. */
  ghost predicate OnlyAsks(inputs: Inputs, item: Pending, answers: map<ChargeSubject, ChargeOutcome>, answers': map<ChargeSubject, ChargeOutcome>) {
    forall c :: c in answers && !(exists p :: p in Plan(inputs, item) && Chargeable(p) && Charge(p) == c) ==> c in answers' && answers'[c] == answers[c]
  }

  lemma OneMoreFollowed(inputs: Inputs, pending: seq<Pending>, n: nat, outcome: Outcome, planned: seq<Planned>, settled: set<Key>,
                        answers: map<ChargeSubject, ChargeOutcome>, answers': map<ChargeSubject, ChargeOutcome>)
    requires n < |pending| && OneEach(pending) && (forall item :: item in pending ==> AsksForReceiptOnly(item))
    requires ChargesFollowed(inputs, pending, n, planned, settled, answers) && OnlyAsks(inputs, pending[n], answers, answers')
    requires outcome.Plans? ==> outcome.planned == Plan(inputs, pending[n])
    requires forall p :: p in Plan(inputs, pending[n]) && Chargeable(p) ==> Charge(p) in answers' && outcome == ByAnswer(p, answers'[Charge(p)])
    ensures ChargesFollowed(inputs, pending, n + 1, planned + PlannedOf(outcome), settled + SettledOf(outcome), answers')
  {
    forall k, p | 0 <= k < n && p in Plan(inputs, pending[k]) && Chargeable(p)
      ensures Charge(p) in answers ==> Charge(p) in answers' && answers'[Charge(p)] == answers[Charge(p)]
    {
      assert pending[k] in pending && pending[n] in pending;
      ChargeIsOfItem(inputs, pending[k], p);
      forall q | q in Plan(inputs, pending[n]) && Chargeable(q) ensures Charge(q) != Charge(p) { ChargeIsOfItem(inputs, pending[n], q); }
    }
    forall k, p | 0 <= k < n + 1 && p in Plan(inputs, pending[k]) && Chargeable(p)
      ensures ChargeFollowed(p, planned + PlannedOf(outcome), settled + SettledOf(outcome), answers')
    {
      if k < n { assert ChargeFollowed(p, planned, settled, answers); }
    }
    forall p | p in planned + PlannedOf(outcome)
      ensures PlannedFor(inputs, pending, n + 1, p) && (Chargeable(p) ==> Charge(p) in answers' && answers'[Charge(p)].Held?)
    {
      if p in planned {
        var k :| 0 <= k < n && p in Plan(inputs, pending[k]);
      } else {
        assert p in Plan(inputs, pending[n]);
      }
    }
  }

  /** Settling more, and asking about closings, leaves the charges followed. */
  lemma FollowedStays(inputs: Inputs, pending: seq<Pending>, n: nat, planned: seq<Planned>, settled: set<Key>, settled': set<Key>,
                      answers: map<ChargeSubject, ChargeOutcome>, answers': map<ChargeSubject, ChargeOutcome>)
    requires ChargesFollowed(inputs, pending, n, planned, settled, answers) && settled <= settled'
    requires forall r :: ForReceipt(r) in answers ==> ForReceipt(r) in answers' && answers'[ForReceipt(r)] == answers[ForReceipt(r)]
    ensures ChargesFollowed(inputs, pending, n, planned, settled', answers')
  {
    forall k, p | 0 <= k < n <= |pending| && p in Plan(inputs, pending[k]) && Chargeable(p) ensures ChargeFollowed(p, planned, settled', answers') {
      assert ChargeFollowed(p, planned, settled, answers);
    }
  }

  lemma CostIsCharge(p: Planned)
    ensures Cost(p.owner, p.entry).Some? <==> Chargeable(p)
    ensures Chargeable(p) ==> Cost(p.owner, p.entry) == Some(Charge(p))
  {
  }

  /** A pass that planned and asked by its rules has answered by what it saw. */
  lemma FollowedAnswersAll(inputs: Inputs, trail: Trail, heard: Heard)
    requires forall item :: item in trail.pending ==> AsksForReceiptOnly(item)
    requires ItemsDone(inputs, trail.pending, |trail.pending|, trail.planned, heard.holdsAsked, trail.settled, trail.unanswerable)
    requires ChargesFollowed(inputs, trail.pending, |trail.pending|, trail.planned, trail.settled, heard.answers)
    requires AllAsksOfPlans(inputs, trail.pending, heard.holdsAsked)
    ensures AllAnswered(inputs, trail, heard.holdsAsked, heard.answers)
  {
    AsksAreCalledFor(inputs, trail.pending, heard.holdsAsked);
    forall item, entry | item in trail.pending && CallsFor(inputs, item, entry) ensures AsTheWebsiteSays(trail, heard.holdsAsked, heard.answers, entry, item.owner) {
      var k :| 0 <= k < |trail.pending| && trail.pending[k] == item;
      PlanIsWhatWasSeen(inputs, item, entry);
      var p :| p in Plan(inputs, item) && p.entry == entry;
      CostIsCharge(p);
      assert ItemDone(inputs, trail.pending[k], trail.planned, heard.holdsAsked, trail.settled, trail.unanswerable);
      if Chargeable(p) {
        ChargeIsOfItem(inputs, item, p);
        assert ChargeFollowed(p, trail.planned, trail.settled, heard.answers);
        forall q | q in trail.planned && q.entry == entry && q.owner == item.owner ensures heard.answers[Charge(p)].Held? { CostIsCharge(q); }
      }
    }
    forall p | p in trail.planned ensures exists item :: item in trail.pending && item.owner == p.owner && CallsFor(inputs, item, p.entry) {
      var k :| 0 <= k < |trail.pending| && p in Plan(inputs, trail.pending[k]);
      PlanIsWhatWasSeen(inputs, trail.pending[k], p.entry);
      assert trail.pending[k] in trail.pending;
    }
  }

  /** Everything that can be answered is planned, unless its charge stands in the way, which was then asked for. */
  ghost predicate Answered(inputs: Inputs, item: Pending, planned: seq<Planned>, holdsAsked: set<Ask>) {
    forall p :: p in Plan(inputs, item) ==>
      (if Chargeable(p) then Ask(Charge(p), p.owner.organizationId) in holdsAsked else p in planned)
  }

  /** A listed transfer that is no receipt and will not become one. */
  predicate GivenUp(inputs: Inputs, item: Pending) {
    && !item.subject.JobSubject? && item.observation.Some? && EntryFor(inputs, item).None?
    && !item.observation.value.Absent? && !item.observation.value.Unfinished?
  }

  /** What an absent subject means: after the grace period a customer's request is turned away, until then it waits. */
  function UnseenOutcome(inputs: Inputs, item: Pending): Outcome {
    if item.owner.OwnedBy? && item.request.Some? && inputs.now - item.request.value.openedAt * 1000 >= ABSENT_GRACE_MS then
      Unseen(Unanswerable(item.request.value, item.owner.organizationId))
    else NotYet
  }

  predicate SeenAbsent(inputs: Inputs, item: Pending) {
    !item.subject.JobSubject? && Observed(inputs, item) == Some(Absent) && EntryFor(inputs, item).None?
  }

  /** What the answer of the website to a hold makes of an entry. */
  function ByAnswer(p: Planned, answer: ChargeOutcome): Outcome {
    match answer
    case Held => Plans([p])
    case Charged | Released => Settles(p.key)
    case Refused(_) | Unavailable(_) => NotYet
  }

  predicate Over(answer: ChargeOutcome) { answer.Charged? || answer.Released? }

  /** A receipt whose charge is over is settled. */
  ghost predicate HoldsSettled(answers: map<ChargeSubject, ChargeOutcome>, settled: set<Key>) {
    forall r :: ForReceipt(r) in answers && Over(answers[ForReceipt(r)]) ==> KeyOfReceipt(r) in settled
  }

  lemma NewFromListing(listed: seq<Listing>, last: Listing, asked: seq<Pending>, before: seq<Pending>, after: seq<Pending>)
    requires forall item :: item in before ==> item in asked || FromListing(listed, item)
    requires forall item :: item in after ==> item in before || ItemOfRow(last.org, last.transfers, item)
    ensures forall item :: item in after ==> item in asked || FromListing(listed + [last], item)
  {
    assert last in listed + [last];
    forall item | item in after && FromListing(listed, item) ensures FromListing(listed + [last], item) {
      var l :| l in listed && ItemOfRow(l.org, l.transfers, item);
      assert l in listed + [last];
    }
  }

  /** A customer's request for what its key still cannot see an hour after it was opened. */
  ghost predicate UnseenTooLong(inputs: Inputs, item: Pending) {
    && item.owner.OwnedBy? && item.request.Some? && Sees(inputs, item, item.subject, Absent)
    && inputs.now >= item.request.value.openedAt * 1000 + 3_600_000
  }

  lemma UnseenMeaning(inputs: Inputs, item: Pending)
    requires AsksForReceiptOnly(item)
    ensures UnseenTooLong(inputs, item) <==> SeenAbsent(inputs, item) && UnseenOutcome(inputs, item).Unseen?
    ensures UnseenTooLong(inputs, item) ==> UnseenOutcome(inputs, item).closing == Unanswerable(item.request.value, item.owner.organizationId)
  {
  }

  /** The request to close belongs to an item that was not seen in time. */
  ghost predicate ClosesUnseen(inputs: Inputs, pending: seq<Pending>, u: Unanswerable) {
    exists item :: item in pending && UnseenTooLong(inputs, item) && u == Unanswerable(item.request.value, item.owner.organizationId)
  }

  /** Requests are closed exactly when they have to be turned away, or ask for what was not seen in time. */
  ghost predicate AllClosed(settings: Settings, inputs: Inputs, trail: Trail)
    requires inputs.openRequests.Some?
  {
    && (forall u :: u in trail.unanswerable ==>
          || (u.request in inputs.openRequests.value && TurnedAway(settings, inputs.customers, u.request))
          || ClosesUnseen(inputs, trail.pending, u))
    && (forall request :: request in inputs.openRequests.value && TurnedAway(settings, inputs.customers, request) ==> Closes(trail.unanswerable, request))
    && (forall item :: item in trail.pending && UnseenTooLong(inputs, item) ==>
          Unanswerable(item.request.value, item.owner.organizationId) in trail.unanswerable)
  }

  /** What a pass made of an item: planned or asked about, settled when given up, to be closed when unseen too long. */
  ghost predicate ItemDone(inputs: Inputs, item: Pending, planned: seq<Planned>, holdsAsked: set<Ask>, settled: set<Key>, unseen: seq<Unanswerable>) {
    && Answered(inputs, item, planned, holdsAsked)
    && (GivenUp(inputs, item) ==> SubjectKey(item.subject) in settled)
    && (SeenAbsent(inputs, item) && UnseenOutcome(inputs, item).Unseen? ==> UnseenOutcome(inputs, item).closing in unseen)
  }

  ghost predicate ItemsDone(inputs: Inputs, pending: seq<Pending>, n: nat, planned: seq<Planned>, holdsAsked: set<Ask>, settled: set<Key>, unseen: seq<Unanswerable>) {
    forall k :: 0 <= k < n <= |pending| ==> ItemDone(inputs, pending[k], planned, holdsAsked, settled, unseen)
  }

  lemma ItemsStayDone(inputs: Inputs, pending: seq<Pending>, n: nat, planned: seq<Planned>, planned': seq<Planned>,
                      asked: set<Ask>, asked': set<Ask>, settled: set<Key>, settled': set<Key>,
                      unseen: seq<Unanswerable>, unseen': seq<Unanswerable>)
    requires ItemsDone(inputs, pending, n, planned, asked, settled, unseen)
    requires (forall p :: p in planned ==> p in planned') && asked <= asked' && settled <= settled' && (forall u :: u in unseen ==> u in unseen')
    ensures ItemsDone(inputs, pending, n, planned', asked', settled', unseen')
  {
    forall k | 0 <= k < n <= |pending| ensures ItemDone(inputs, pending[k], planned', asked', settled', unseen') {
      assert ItemDone(inputs, pending[k], planned, asked, settled, unseen);
    }
  }

  function PlannedOf(outcome: Outcome): seq<Planned> { if outcome.Plans? then outcome.planned else [] }
  function SettledOf(outcome: Outcome): set<Key> { if outcome.Settles? then {outcome.key} else {} }
  function UnseenOf(outcome: Outcome): seq<Unanswerable> { if outcome.Unseen? then [outcome.closing] else [] }

  lemma ItemIsDone(inputs: Inputs, pending: seq<Pending>, n: nat, outcome: Outcome, planned: seq<Planned>, holdsAsked: set<Ask>,
                   settled: set<Key>, unseen: seq<Unanswerable>)
    requires n < |pending| && ItemsDone(inputs, pending, n, planned, holdsAsked, settled, unseen)
    requires ItemDone(inputs, pending[n], PlannedOf(outcome), holdsAsked, SettledOf(outcome), UnseenOf(outcome))
    requires (forall p :: p in PlannedOf(outcome) ==> p in planned) && SettledOf(outcome) <= settled && (forall u :: u in UnseenOf(outcome) ==> u in unseen)
    ensures ItemsDone(inputs, pending, n + 1, planned, holdsAsked, settled, unseen)
  {
    forall k | 0 <= k < n + 1 ensures ItemDone(inputs, pending[k], planned, holdsAsked, settled, unseen) {
      if k < n { assert ItemDone(inputs, pending[k], planned, holdsAsked, settled, unseen); }
    }
  }

  lemma OneMoreDone(inputs: Inputs, pending: seq<Pending>, n: nat, outcome: Outcome, planned: seq<Planned>, settled: set<Key>, unseen: seq<Unanswerable>,
                    asked: set<Ask>, asked': set<Ask>)
    requires n < |pending| && ItemsDone(inputs, pending, n, planned, asked, settled, unseen) && asked <= asked'
    requires ItemDone(inputs, pending[n], PlannedOf(outcome), asked', SettledOf(outcome), UnseenOf(outcome))
    ensures ItemsDone(inputs, pending, n + 1, planned + PlannedOf(outcome), asked', settled + SettledOf(outcome), unseen + UnseenOf(outcome))
  {
    var planned', settled', unseen' := planned + PlannedOf(outcome), settled + SettledOf(outcome), unseen + UnseenOf(outcome);
    ItemsStayDone(inputs, pending, n, planned, planned', asked, asked', settled, settled', unseen, unseen');
    ItemIsDone(inputs, pending, n, outcome, planned', asked', settled', unseen');
  }

  lemma KeepsShape(planned: seq<Planned>, outcome: Outcome)
    requires JobsFollow(planned) && (outcome.Plans? ==> PlanShape(outcome.planned))
    ensures JobsFollow(planned + PlannedOf(outcome))
  {
    if outcome.Plans? { ShapeFollows(planned, outcome.planned); } else { assert planned + [] == planned; }
  }

  // ----- which listings a pass reads -----

  /** The listing of a customer whose transfers are listed, from its saved cursor on, cut and marked. */
  function ListingOf(inputs: Inputs, max: nat, cursors: map<string, int>, customer: Account): Option<Listing> {
    if customer.periods == [] || !ListsTransfers(customer.periods, inputs.now) then None
    else
      var org := customer.organizationId;
      var cursor := if org in cursors then cursors[org] else InitialTransferCursor(customer.periods);
      match inputs.finishedTransfers(org, cursor)
      case Some(answer) => Some(Listing(org, cursor, Marked(Cut(answer, max), customer.periods)))
      case None => None
  }

  function Collect<T>(read: nat -> Option<T>, n: nat): seq<T> {
    if n == 0 then [] else Collect(read, n - 1) + (if read(n - 1).Some? then [read(n - 1).value] else [])
  }

  lemma {:induction false} CollectMeaning<T>(read: nat -> Option<T>, n: nat)
    ensures forall x :: x in Collect(read, n) <==> exists k :: 0 <= k < n && read(k) == Some(x)
  {
    if n > 0 { CollectMeaning(read, n - 1); }
  }

  function ListingAt(inputs: Inputs, max: nat, cursors: map<string, int>): nat -> Option<Listing> {
    (k: nat) => if k < |inputs.customers| then ListingOf(inputs, max, cursors, inputs.customers[k]) else None
  }

  /** The listings of the first `n` customers. */
  function Listings(inputs: Inputs, max: nat, cursors: map<string, int>, n: nat): seq<Listing> {
    Collect(ListingAt(inputs, max, cursors), n)
  }

  /** The organization's switch is on, or went off less than a week ago. */
  ghost predicate OnLately(periods: seq<Period>, now: int) {
    exists period :: period in periods && (period.endedAt.None? || now < period.endedAt.value + 604_800_000)
  }

  /** The time falls into a period; its end does not belong to it. */
  ghost predicate SwitchedOn(periods: seq<Period>, at: int) {
    exists period :: period in periods && period.startedAt <= at && (period.endedAt.Some? ==> at < period.endedAt.value)
  }

  /** Where a listing begins: at the saved cursor, or in the millisecond before the switch was first on. */
  ghost predicate StartsAt(cursors: map<string, int>, customer: Account, cursor: int) {
    if customer.organizationId in cursors then cursor == cursors[customer.organizationId]
    else
      && (exists period :: period in customer.periods && period.startedAt == cursor + 1)
      && (forall period :: period in customer.periods ==> cursor < period.startedAt)
  }

  /** A listing is read when the switch is on or was lately, and holds the oldest rows, with what each owes. */
  lemma ListingMeaning(inputs: Inputs, max: nat, cursors: map<string, int>, customer: Account)
    ensures var listing := ListingOf(inputs, max, cursors, customer);
            && (listing.Some? <==> exists cursor ::
                  OnLately(customer.periods, inputs.now) && StartsAt(cursors, customer, cursor)
                  && inputs.finishedTransfers(customer.organizationId, cursor).Some?)
            && (listing.Some? ==>
                  var l := listing.value;
                  && l.org == customer.organizationId && StartsAt(cursors, customer, l.cursor)
                  && inputs.finishedTransfers(l.org, l.cursor).Some?
                  && (forall row :: (exists t :: t in l.transfers && t.row == row) <==> row in Cut(inputs.finishedTransfers(l.org, l.cursor).value, max))
                  && (forall t :: t in l.transfers ==> (t.owed <==> SwitchedOn(customer.periods, t.row.createdAt))))
  {
    var periods := customer.periods;
    assert OnLately(periods, inputs.now) <==> ListsTransfers(periods, inputs.now);
    if periods != [] {
      FirstPeriod(periods);
      assert StartsAt(cursors, customer, if customer.organizationId in cursors then cursors[customer.organizationId] else InitialTransferCursor(periods));
      var listing := ListingOf(inputs, max, cursors, customer);
      if listing.Some? {
        var rows := Cut(inputs.finishedTransfers(listing.value.org, listing.value.cursor).value, max);
        MarkedMeaning(rows, periods);
        forall at ensures CreatedDuringPeriods(at, periods) <==> SwitchedOn(periods, at) { PeriodsMeaning(periods, at); }
      }
    }
  }

  lemma PeriodsMeaning(periods: seq<Period>, at: int)
    ensures CreatedDuringPeriods(at, periods) <==> SwitchedOn(periods, at)
  {
  }

  lemma FirstPeriod(periods: seq<Period>)
    requires periods != []
    ensures exists period :: period in periods && period.startedAt == InitialTransferCursor(periods) + 1
    ensures forall period :: period in periods ==> InitialTransferCursor(periods) < period.startedAt
  {
    Customers.StartsAt(periods);
    MinMeaning(Starts(periods));
    var k :| 0 <= k < |periods| && Starts(periods)[k] == Min(Starts(periods));
    assert periods[k] in periods;
    forall period | period in periods ensures InitialTransferCursor(periods) < period.startedAt {
      var j :| 0 <= j < |periods| && periods[j] == period;
      assert Starts(periods)[j] in Starts(periods);
    }
  }

  /** The listings of a pass are those of its customers. */
  lemma ListingsMeaning(inputs: Inputs, max: nat, cursors: map<string, int>, listing: Listing)
    ensures listing in Listings(inputs, max, cursors, |inputs.customers|) <==>
      exists customer :: customer in inputs.customers && ListingOf(inputs, max, cursors, customer) == Some(listing)
  {
    var read := ListingAt(inputs, max, cursors);
    CollectMeaning(read, |inputs.customers|);
    if customer :| customer in inputs.customers && ListingOf(inputs, max, cursors, customer) == Some(listing) {
      var k: nat :| k < |inputs.customers| && inputs.customers[k] == customer;
      assert read(k) == Some(listing);
    }
    if k: nat :| k < |inputs.customers| && read(k) == Some(listing) {
      assert inputs.customers[k] in inputs.customers;
    }
  }

  // ----- a whole pass -----

  /** What a pass went through; `cut` says that a report failed to be written. */
  datatype Trail = Trail(pending: seq<Pending>, unanswerable: seq<Unanswerable>, listings: seq<Listing>, planned: seq<Planned>,
                         settled: set<Key>, recorded: nat, cut: bool)

  /** What the pass asked for and heard. */
  datatype Heard = Heard(holdsAsked: set<Ask>, answers: map<ChargeSubject, ChargeOutcome>, commitsAsked: set<ChargeSubject>, charged: set<ChargeSubject>)

  ghost predicate OnChain(w: World, entries: seq<Entry>) {
    ReceiptsOf(entries) <= w.receipts && forall e :: e in entries && e.JobEntry? ==> e in w.jobs
  }

  /** What a request to look up makes pending: a customer's for its organization, with the request; any other for Beam. */
  ghost predicate ItemOf(settings: Settings, customers: seq<Account>, request: OpenRequest, item: Pending) {
    && LooksUp(settings, customers, request) && Some(item.subject) == SubjectForOpenRequest(settings.routes, request) && item.observation.None?
    && (if settings.maxPerOrganization.None? || request.requester == settings.relayAccount then item.owner.Beam? && item.request.None?
        else item.owner.OwnedBy? && item.request == Some(request) && Asked(customers, request, item.owner.organizationId))
  }

  ghost predicate FromRequest(settings: Settings, customers: seq<Account>, requests: seq<OpenRequest>, item: Pending) {
    exists request :: request in requests && ItemOf(settings, customers, request, item)
  }

  /** What an owed row makes pending: its transfer, for its organization, as the listing shows it. */
  ghost predicate ItemOfRow(org: string, transfers: seq<ListedRow>, item: Pending) {
    exists t :: t in transfers && t.owed && item == Pending(TransferSubject(t.row.id, None), OwnedBy(org), Some(t.row.observation), None)
  }

  ghost predicate FromListing(listings: seq<Listing>, item: Pending) {
    exists l :: l in listings && ItemOfRow(l.org, l.transfers, item)
  }

  /** Every open request was looked up, turned away or left alone; every owed row was looked up; nothing else was. */
  ghost predicate LookedUp(settings: Settings, inputs: Inputs, cursors: map<string, int>, trail: Trail) {
    && inputs.openRequests.Some?
    && (forall request :: request in inputs.openRequests.value ==> Routed(settings, inputs.customers, request, trail.pending, trail.unanswerable))
    && trail.listings == (match settings.maxPerOrganization case Some(max) => Listings(inputs, max, cursors, |inputs.customers|) case None => [])
    && AllOwedPending(trail.pending, trail.listings)
    && (forall item :: item in trail.pending ==>
          FromRequest(settings, inputs.customers, inputs.openRequests.value, item) || FromListing(trail.listings, item))
  }

  /** What could be answered was planned, or its charge asked for; what was recorded is on chain, and asked to be committed. */
  ghost predicate Recorded(inputs: Inputs, trail: Trail, w: World, heard: Heard) {
    && ItemsDone(inputs, trail.pending, |trail.pending|, trail.planned, heard.holdsAsked, trail.settled, trail.unanswerable)
    && ChargesFollowed(inputs, trail.pending, |trail.pending|, trail.planned, trail.settled, heard.answers) && AllAnswered(inputs, trail, heard.holdsAsked, heard.answers)
    && trail.recorded <= |trail.planned| && (!trail.cut ==> trail.recorded == |trail.planned|)
    && OnChain(w, EntriesOf(trail.planned[..trail.recorded])) && CommitsAsked(trail.planned[..trail.recorded], heard.commitsAsked)
  }

  /** What is settled is done with, what was heard to be over or charged is settled, and the cursors moved accordingly. */
  ghost predicate Settled(facts: Facts, trail: Trail, w: World, heard: Heard) {
    && SettledSound(facts, w, trail.settled) && HoldsSettled(heard.answers, trail.settled) && ChargedSettled({}, heard.charged, trail.settled)
    && (OrgsDiffer(trail.listings) ==> MovedTo(trail.listings, w.cursors, trail.settled))
  }

  /** A pass in which nothing threw. */
  ghost predicate PassDone(facts: Facts, settings: Settings, inputs: Inputs, cursors: map<string, int>, trail: Trail, w: World, heard: Heard) {
    && LookedUp(settings, inputs, cursors, trail) && AllClosed(settings, inputs, trail)
    && Recorded(inputs, trail, w, heard) && Settled(facts, trail, w, heard)
  }

  ghost predicate SameReceiptAnswers(answers: map<ChargeSubject, ChargeOutcome>, answers': map<ChargeSubject, ChargeOutcome>) {
    forall r :: (ForReceipt(r) in answers <==> ForReceipt(r) in answers') && (ForReceipt(r) in answers ==> answers'[ForReceipt(r)] == answers[ForReceipt(r)])
  }

  lemma StillAnswered(inputs: Inputs, trail: Trail, heard: Heard, heard': Heard)
    requires AllAnswered(inputs, trail, heard.holdsAsked, heard.answers)
    requires ClosingOnly(heard, heard')
    ensures AllAnswered(inputs, trail, heard'.holdsAsked, heard'.answers)
  {
    forall item, entry | item in trail.pending && CallsFor(inputs, item, entry)
      ensures AsTheWebsiteSays(trail, heard'.holdsAsked, heard'.answers, entry, item.owner)
    {
      assert AsTheWebsiteSays(trail, heard.holdsAsked, heard.answers, entry, item.owner);
    }
  }

  /** Closing requests afterwards takes nothing of it back. */
  lemma PassStaysDone(facts: Facts, settings: Settings, inputs: Inputs, cursors: map<string, int>, trail: Trail, w: World, w': World, heard: Heard, heard': Heard)
    requires PassDone(facts, settings, inputs, cursors, trail, w, heard)
    requires Later(w, w') && w'.cursors == w.cursors && ClosingOnly(heard, heard')
    ensures PassDone(facts, settings, inputs, cursors, trail, w', heard')
  {
    ItemsStayDone(inputs, trail.pending, |trail.pending|, trail.planned, trail.planned, heard.holdsAsked, heard'.holdsAsked,
                  trail.settled, trail.settled, trail.unanswerable, trail.unanswerable);
    FollowedStays(inputs, trail.pending, |trail.pending|, trail.planned, trail.settled, trail.settled, heard.answers, heard'.answers);
    StillAnswered(inputs, trail, heard, heard');
    SettledStaysSound(facts, w, w', trail.settled);
  }

  // ----- what the relay does about an open request -----

  ghost predicate Has(customers: seq<Account>, address: string, status: Status) {
    exists account :: account in customers && Requester(address, status) in account.requesters
  }

  /** A customer's request that is never answered: its address is no longer approved, or it asks to start something. */
  ghost predicate TurnedAway(settings: Settings, customers: seq<Account>, request: OpenRequest) {
    && settings.maxPerOrganization.Some? && request.requester != settings.relayAccount
    && (if Has(customers, request.requester, Approved) then request.kind == REQUEST_TRANSFER else Has(customers, request.requester, Revoked))
  }

  /** A request this relay looks up: its own, any outside customers mode, or an approved customer's for a receipt. */
  ghost predicate LooksUp(settings: Settings, customers: seq<Account>, request: OpenRequest) {
    || settings.maxPerOrganization.None? || request.requester == settings.relayAccount
    || (Has(customers, request.requester, Approved) && request.kind != REQUEST_TRANSFER)
  }

  ghost predicate Closes(unanswerable: seq<Unanswerable>, request: OpenRequest) {
    exists u :: u in unanswerable && u.request == request
  }

  /** The request is looked up, or turned away, or left open as a stranger's: whichever it has to be. */
  ghost predicate Routed(settings: Settings, customers: seq<Account>, request: OpenRequest, pending: seq<Pending>, unanswerable: seq<Unanswerable>) {
    && (TurnedAway(settings, customers, request) ==> Closes(unanswerable, request))
    && (LooksUp(settings, customers, request) && SubjectForOpenRequest(settings.routes, request).Some? ==>
          IsPending(pending, SubjectKey(SubjectForOpenRequest(settings.routes, request).value)))
  }

  /** What became of one pending subject. */
  datatype Outcome = Threw | NotYet | Settles(key: Key) | Unseen(closing: Unanswerable) | Plans(planned: seq<Planned>)

  /** A single entry that is no job result, or a job's two receipts and its result. */
  ghost predicate PlanShape(planned: seq<Planned>) {
    || (|planned| == 1 && !planned[0].entry.JobEntry?)
    || (|planned| == 3 && planned[2].entry.JobEntry? && planned[0].entry == RoomEntry(planned[2].entry.input, None)
        && planned[1].entry == RoomEntry(planned[2].entry.output, None))
  }

  lemma ShapeFollows(planned: seq<Planned>, more: seq<Planned>)
    requires JobsFollow(planned) && PlanShape(more)
    ensures JobsFollow(planned + more)
  {
    var all := planned + more;
    forall k | 0 <= k < |all| && all[k].entry.JobEntry?
      ensures k >= 2 && all[k - 2].entry == RoomEntry(all[k].entry.input, None) && all[k - 1].entry == RoomEntry(all[k].entry.output, None)
    {
      if k < |planned| { assert all[k] == planned[k]; } else { assert all[k] == more[k - |planned|]; }
    }
  }

  function Moved(listing: Listing, settled: set<Key>): int {
    NextTransferCursor(listing.cursor, ProgressOf(listing.transfers, settled))
  }

  predicate OrgsDiffer(listings: seq<Listing>) {
    forall i, j :: 0 <= i < j < |listings| ==> listings[i].org != listings[j].org
  }

  ghost predicate MovedTo(listings: seq<Listing>, cursors: map<string, int>, settled: set<Key>) {
    forall l :: l in listings ==> l.org in cursors && cursors[l.org] == Moved(l, settled)
  }

  lemma MovedSnoc(listings: seq<Listing>, i: nat, cursors: map<string, int>, settled: set<Key>)
    requires i < |listings| && OrgsDiffer(listings) && MovedTo(listings[..i], cursors, settled)
    ensures MovedTo(listings[..i + 1], cursors[listings[i].org := Moved(listings[i], settled)], settled)
  {
    forall l | l in listings[..i + 1] ensures l == listings[i] || (l in listings[..i] && l.org != listings[i].org) {
      var k :| 0 <= k < i + 1 && listings[k] == l;
      if k < i { assert listings[..i][k] == l; }
    }
  }

  lemma AllRouted(settings: Settings, inputs: Inputs, asked: seq<Pending>, turnedAway: seq<Unanswerable>, pending: seq<Pending>, unanswerable: seq<Unanswerable>)
    requires inputs.openRequests.Some?
    requires forall request :: request in inputs.openRequests.value ==> Routed(settings, inputs.customers, request, asked, turnedAway)
    requires forall key :: IsPending(asked, key) ==> IsPending(pending, key)
    requires turnedAway <= unanswerable
    ensures forall request :: request in inputs.openRequests.value ==> Routed(settings, inputs.customers, request, pending, unanswerable)
  {
    forall request | request in inputs.openRequests.value ensures Routed(settings, inputs.customers, request, pending, unanswerable) {
      assert Routed(settings, inputs.customers, request, asked, turnedAway);
      if Closes(turnedAway, request) {
        var u :| u in turnedAway && u.request == request;
        assert u in unanswerable;
      }
    }
  }

  lemma PassIsDone(facts: Facts, settings: Settings, inputs: Inputs, cursors: map<string, int>, turnedAway: seq<Unanswerable>, unseen: seq<Unanswerable>,
                   trail: Trail, w: World, heard: Heard)
    requires LookedUp(settings, inputs, cursors, Trail(trail.pending, turnedAway, trail.listings, [], {}, 0, false))
    requires trail.unanswerable == turnedAway + unseen
    requires ItemsDone(inputs, trail.pending, |trail.pending|, trail.planned, heard.holdsAsked, trail.settled, unseen)
    requires forall item :: item in trail.pending ==> AsksForReceiptOnly(item)
    requires ChargesFollowed(inputs, trail.pending, |trail.pending|, trail.planned, trail.settled, heard.answers)
    requires forall u :: u in turnedAway ==> u.request in inputs.openRequests.value && TurnedAway(settings, inputs.customers, u.request)
    requires forall u :: u in unseen ==> ClosesUnseen(inputs, trail.pending, u)
    requires AllAsksOfPlans(inputs, trail.pending, heard.holdsAsked)
    requires trail.recorded <= |trail.planned| && (!trail.cut ==> trail.recorded == |trail.planned|)
    requires OnChain(w, EntriesOf(trail.planned[..trail.recorded])) && CommitsAsked(trail.planned[..trail.recorded], heard.commitsAsked)
    requires Settled(facts, trail, w, heard)
    ensures PassDone(facts, settings, inputs, cursors, trail, w, heard)
  {
    AllRouted(settings, inputs, trail.pending, turnedAway, trail.pending, trail.unanswerable);
    ItemsStayDone(inputs, trail.pending, |trail.pending|, trail.planned, trail.planned, heard.holdsAsked, heard.holdsAsked,
                  trail.settled, trail.settled, unseen, trail.unanswerable);
    FollowedAnswersAll(inputs, trail, heard);
    ClosesAll(settings, inputs, trail, heard);
  }

  lemma NobodyAsked(settings: Settings, inputs: Inputs, cursors: map<string, int>, trail: Trail, holdsAsked: set<Ask>)
    requires settings.maxPerOrganization.None? && LookedUp(settings, inputs, cursors, trail) && AllAsksOfPlans(inputs, trail.pending, holdsAsked)
    ensures holdsAsked == {}
  {
    AsksAreCalledFor(inputs, trail.pending, holdsAsked);
    forall item | item in trail.pending ensures item.owner.Beam? { assert FromRequest(settings, inputs.customers, inputs.openRequests.value, item); }
    forall ask ensures ask !in holdsAsked { assert ask in holdsAsked ==> CalledFor(inputs, trail.pending, ask); }
  }

  lemma ClosesAll(settings: Settings, inputs: Inputs, trail: Trail, heard: Heard)
    requires inputs.openRequests.Some? && forall item :: item in trail.pending ==> AsksForReceiptOnly(item)
    requires forall u :: u in trail.unanswerable ==>
      (u.request in inputs.openRequests.value && TurnedAway(settings, inputs.customers, u.request)) || ClosesUnseen(inputs, trail.pending, u)
    requires forall request :: request in inputs.openRequests.value ==> Routed(settings, inputs.customers, request, trail.pending, trail.unanswerable)
    requires ItemsDone(inputs, trail.pending, |trail.pending|, trail.planned, heard.holdsAsked, trail.settled, trail.unanswerable)
    ensures AllClosed(settings, inputs, trail)
  {
    forall item | item in trail.pending && UnseenTooLong(inputs, item)
      ensures Unanswerable(item.request.value, item.owner.organizationId) in trail.unanswerable
    {
      var k :| 0 <= k < |trail.pending| && trail.pending[k] == item;
      UnseenMeaning(inputs, item);
      assert ItemDone(inputs, trail.pending[k], trail.planned, heard.holdsAsked, trail.settled, trail.unanswerable);
    }
  }

  /** The website was asked to hold the closing's charge and answered, and where it did hold it the request was asked to be cancelled. */
  ghost predicate ClosingAsked(u: Unanswerable, holdsAsked: set<Ask>, answers: map<ChargeSubject, ChargeOutcome>, cancelsAsked: set<string>) {
    var charge := ForClosing(u.request.key);
    Ask(charge, u.organizationId) in holdsAsked && charge in answers && (answers[charge].Held? ==> u.request.key in cancelsAsked)
  }

  /** One of those to close under this key was; a request is closed once, however often it is listed. */
  ghost predicate KeyAsked(unanswerable: seq<Unanswerable>, key: string, holdsAsked: set<Ask>, answers: map<ChargeSubject, ChargeOutcome>, cancelsAsked: set<string>) {
    exists u :: u in unanswerable && u.request.key == key && ClosingAsked(u, holdsAsked, answers, cancelsAsked)
  }

  ghost predicate KeysAsked(unanswerable: seq<Unanswerable>, keys: set<string>, holdsAsked: set<Ask>, answers: map<ChargeSubject, ChargeOutcome>, cancelsAsked: set<string>) {
    forall key :: key in keys ==> KeyAsked(unanswerable, key, holdsAsked, answers, cancelsAsked)
  }

  ghost predicate OthersStay(answers: map<ChargeSubject, ChargeOutcome>, answers': map<ChargeSubject, ChargeOutcome>, charge: ChargeSubject) {
    forall c :: c != charge ==> (c in answers <==> c in answers') && (c in answers ==> answers'[c] == answers[c])
  }

  lemma OneMoreClosing(unanswerable: seq<Unanswerable>, keys: set<string>, u: Unanswerable, asked: set<Ask>, asked': set<Ask>,
                       answers: map<ChargeSubject, ChargeOutcome>, answers': map<ChargeSubject, ChargeOutcome>, cancels: set<string>, cancels': set<string>)
    requires KeysAsked(unanswerable, keys, asked, answers, cancels) && asked <= asked' && cancels <= cancels'
    requires u in unanswerable && u.request.key !in keys
    requires OthersStay(answers, answers', ForClosing(u.request.key)) && ClosingAsked(u, asked', answers', cancels')
    ensures KeysAsked(unanswerable, keys + {u.request.key}, asked', answers', cancels')
  {
    forall key | key in keys ensures KeyAsked(unanswerable, key, asked', answers', cancels') {
      assert KeyAsked(unanswerable, key, asked, answers, cancels);
      var v :| v in unanswerable && v.request.key == key && ClosingAsked(v, asked, answers, cancels);
      assert ClosingAsked(v, asked', answers', cancels');
    }
  }

  /** So many requests were closed: cancelled, with their charges asked to be committed. */
  ghost predicate ClosedAre(keys: set<string>, closed: int, w: World, commitsAsked: set<ChargeSubject>) {
    closed == |keys| && keys <= w.cancelled && forall key :: key in keys ==> ForClosing(key) in commitsAsked
  }

  lemma OneMoreClosed(keys: set<string>, closed: int, key: string, done: bool, w: World, w': World, commits: set<ChargeSubject>, commits': set<ChargeSubject>)
    requires ClosedAre(keys, closed, w, commits) && Later(w, w') && commits <= commits' && key !in keys
    requires done ==> key in w'.cancelled && ForClosing(key) in commits'
    ensures ClosedAre(if done then keys + {key} else keys, if done then closed + 1 else closed, w', commits')
  {
  }

  /** Closing asks for nothing about receipts. */
  ghost predicate ClosingOnly(before: Heard, after: Heard) {
    && before.holdsAsked <= after.holdsAsked && before.commitsAsked <= after.commitsAsked
    && (forall ask :: ask in after.holdsAsked && ask.charge.ForReceipt? ==> ask in before.holdsAsked)
    && SameReceiptAnswers(before.answers, after.answers)
    && (forall r :: ForReceipt(r) in after.charged ==> ForReceipt(r) in before.charged)
  }

  lemma ClosingOnlyTransitive(a: Heard, b: Heard, c: Heard)
    requires ClosingOnly(a, b) && ClosingOnly(b, c)
    ensures ClosingOnly(a, c)
  {
  }

  lemma RoutedStays(settings: Settings, inputs: Inputs, i: nat, pending: seq<Pending>, unanswerable: seq<Unanswerable>,
                    pending': seq<Pending>, unanswerable': seq<Unanswerable>)
    requires inputs.openRequests.Some? && i <= |inputs.openRequests.value|
    requires forall k :: 0 <= k < i ==> Routed(settings, inputs.customers, inputs.openRequests.value[k], pending, unanswerable)
    requires forall key :: IsPending(pending, key) ==> IsPending(pending', key)
    requires forall u :: u in unanswerable ==> u in unanswerable'
    ensures forall k :: 0 <= k < i ==> Routed(settings, inputs.customers, inputs.openRequests.value[k], pending', unanswerable')
  {
    forall k | 0 <= k < i ensures Routed(settings, inputs.customers, inputs.openRequests.value[k], pending', unanswerable') {
      assert Routed(settings, inputs.customers, inputs.openRequests.value[k], pending, unanswerable);
      if Closes(unanswerable, inputs.openRequests.value[k]) {
        var u :| u in unanswerable && u.request == inputs.openRequests.value[k];
        assert u in unanswerable';
      }
    }
  }

  lemma SettledIgnoresCursors(facts: Facts, w: World, cursors: map<string, int>)
    requires forall org :: org in cursors ==> NothingSkipped(facts, w, org, cursors[org])
    ensures CursorsSafe(facts, w.(cursors := cursors))
  {
    forall org, row | org in cursors && Owed(facts, org, row) && row.completedAt <= cursors[org]
      ensures TransferSettled(facts, w.(cursors := cursors), row.id)
    {
      assert NothingSkipped(facts, w, org, cursors[org]);
      assert TransferSettled(facts, w, row.id);
    }
  }
}
