/**
 The receipts half of a relay pass (`runReceipts`, `closeUnanswerable` and `runOnce`,
 packages/cre/relay/relay.ts). Every call outside may throw, before or after its effect,
 which ends the pass, and others act between any two calls. A restart loses
 `uncommittedCloses` and nothing else.
 */
module RelayPass {
  import opened Basics
  import opened StableSort
  import opened Customers
  import opened Receipts
  import opened RelayLedger
  import opened RelayRules

  class Relay {
    const settings: Settings
    ghost const facts: Facts
    var world: World                                // the ledger, the contract and the cursor file
    var uncommittedCloses: map<string, string>      // in memory only: closed requests whose charge did not commit
    ghost var held: set<ChargeSubject>              // what this pass has held
    ghost var reports: seq<Report>                  // every report sent so far
    // What this pass asked the website and the contract for, and how many calls ever threw.
    ghost var holdsAsked: set<Ask>
    ghost var answers: map<ChargeSubject, ChargeOutcome>   // what the website last said to each
    ghost var commitsAsked: set<ChargeSubject>
    ghost var charged: set<ChargeSubject>           // commits answered as charged
    ghost var commitAnswers: map<ChargeSubject, ChargeOutcome>   // what the website last said to each commit
    ghost var cancelsAsked: set<string>
    ghost var faults: nat
    ghost var unwritten: nat                        // reports whose write failed

    ghost predicate Safe()
      reads this
    {
      Sound(world) && CursorsSafe(facts, world)
    }

    /**
     What holds between any two passes, however they ended: what is paid happened, one credit each; no saved cursor
     skipped an owed transfer; every customer receipt was sent with its charge held in that pass.
     */
    ghost predicate Valid()
      reads this
    {
      && Safe()
      && uncommittedCloses.Keys <= world.cancelled
      && (forall report :: report in reports ==> |report.batch| <= 14 && ChargesHeld(report.batch, report.held))
    }

    /** What this pass asked for and heard. */
    ghost function Heard(): Heard
      reads this
    {
      RelayRules.Heard(holdsAsked, answers, commitsAsked, charged)
    }

    constructor (settings: Settings, ghost facts: Facts, world: World)
      requires Sound(world) && CursorsSafe(facts, world)
      ensures Valid() && this.settings == settings && this.facts == facts && this.world == world
    {
      this.settings, this.facts, this.world := settings, facts, world;
      uncommittedCloses, held, reports := map[], {}, [];
      holdsAsked, answers, commitsAsked, charged, commitAnswers, cancelsAsked, faults, unwritten := {}, map[], {}, {}, map[], {}, 0, 0;
    }

    // ----- calls outside -----

    method Meanwhile()
      requires Safe()
      modifies this`world
      ensures Safe() && Elsewhere(old(world), world)
    {
      assert Elsewhere(world, world);
      var w: World :| Elsewhere(world, w);
      ElsewhereKeepsSound(world, w);
      CursorsStaySafe(facts, world, w);
      world := w;
    }

    /** The website is asked to hold a credit of an organization. */
    method ReserveCharge(c: ChargeSubject, organizationId: string) returns (outcome: Option<ChargeOutcome>)
      requires Safe()
      modifies this`world, this`held, this`holdsAsked, this`answers, this`faults
      ensures answers == if outcome.Some? then old(answers)[c := outcome.value] else old(answers)
      ensures holdsAsked == old(holdsAsked) + {Ask(c, organizationId)} && faults == old(faults) + (if outcome.None? then 1 else 0)
      ensures Safe() && Later(old(world), world) && world.cursors == old(world).cursors
      ensures held == if outcome == Some(Held) then old(held) + {c} else old(held)
      ensures outcome == Some(Charged) ==> Paid(world, c)
      ensures outcome == Some(Released) ==> LetGo(world, c)
    {
      Meanwhile();
      var reached: bool, threw: bool, status: int := *, *, *;
      ghost var w := world;
      if reached {
        HoldKeepsSound(world, c);
        CursorsStaySafe(facts, world, Hold(world, c));
        world := Hold(world, c);
      }
      LaterTransitive(old(world), w, world);
      holdsAsked := holdsAsked + {Ask(c, organizationId)};
      if threw {
        faults := faults + 1;
        return None;
      }
      // Only a website that was reached answers 200, and then with the charge's operation.
      if status == 200 && !reached { status := 0; }
      outcome := Some(ProjectCharge(status, if c in world.ledger then Some(world.ledger[c]) else None));
      answers := answers[c := outcome.value];
      if outcome == Some(Held) { held := held + {c}; }
    }

    /** The website is asked to commit a charge, which the relay only does for what has happened. */
    method CommitCharge(c: ChargeSubject) returns (outcome: Option<ChargeOutcome>)
      requires Safe() && Earned(world, c)
      modifies this`world, this`commitsAsked, this`charged, this`commitAnswers, this`faults
      ensures commitsAsked == old(commitsAsked) + {c} && faults == old(faults) + (if outcome.None? then 1 else 0)
      ensures charged == if outcome == Some(Charged) then old(charged) + {c} else old(charged)
      ensures commitAnswers == if outcome.Some? then old(commitAnswers)[c := outcome.value] else old(commitAnswers)
      ensures Safe() && Later(old(world), world) && world.cursors == old(world).cursors
      ensures outcome == Some(Charged) ==> Paid(world, c)
    {
      Meanwhile();
      var reached: bool, threw: bool, status: int := *, *, *;
      ghost var w := world;
      if reached {
        CommitKeepsSound(world, c);
        CursorsStaySafe(facts, world, Commit(world, c));
        world := Commit(world, c);
      }
      LaterTransitive(old(world), w, world);
      commitsAsked := commitsAsked + {c};
      if threw {
        faults := faults + 1;
        return None;
      }
      outcome := Some(ProjectCharge(status, if c in world.ledger then Some(world.ledger[c]) else None));
      commitAnswers := commitAnswers[c := outcome.value];
      if outcome == Some(Charged) { charged := charged + {c}; }
    }

    /** A report goes to the contract; false when the call throws, mined or not. */
    method WriteReport(batch: seq<Planned>) returns (ok: bool)
      requires Safe() && JobsCovered(world, EntriesOf(batch)) && ChargesHeld(batch, held) && |batch| <= MAX_ENTRIES_PER_REPORT
      modifies this`world, this`reports, this`unwritten
      ensures unwritten == old(unwritten) + (if ok then 0 else 1)
      ensures Safe() && Later(old(world), world) && world.cursors == old(world).cursors
      ensures ok ==> OnChain(world, EntriesOf(batch))
      ensures reports == old(reports) + [Report(batch, held)]
    {
      Meanwhile();
      ok := *;
      var mined: bool := *;
      ghost var w := world;
      if ok || mined {
        RecordKeepsSound(world, EntriesOf(batch));
        CursorsStaySafe(facts, world, Record(world, EntriesOf(batch)));
        world := Record(world, EntriesOf(batch));
      }
      LaterTransitive(old(world), w, world);
      reports := reports + [Report(batch, held)];
      if !ok { unwritten := unwritten + 1; }
    }

    /** `cancelRequest`, sent only with its charge held. */
    method CancelRequest(key: string) returns (ok: bool)
      requires Safe() && ForClosing(key) in held
      modifies this`world, this`cancelsAsked
      ensures cancelsAsked == old(cancelsAsked) + {key}
      ensures Safe() && Later(old(world), world) && world.cursors == old(world).cursors
      ensures ok ==> key in world.cancelled
    {
      Meanwhile();
      ok := *;
      var mined: bool := *;
      ghost var w := world;
      if ok || mined {
        CancelKeepsSound(world, key);
        CursorsStaySafe(facts, world, world.(cancelled := world.cancelled + {key}));
        world := world.(cancelled := world.cancelled + {key});
      }
      cancelsAsked := cancelsAsked + {key};
      LaterTransitive(old(world), w, world);
    }

    method SaveTransferCursors(cursors: map<string, int>) returns (ok: bool)
      requires Safe()
      requires forall org :: org in world.cursors ==> org in cursors && world.cursors[org] <= cursors[org]
      requires forall org :: org in cursors ==> NothingSkipped(facts, world, org, cursors[org])
      modifies this`world, this`faults
      ensures faults == old(faults) + (if ok then 0 else 1)
      ensures Safe() && Later(old(world), world)
      ensures ok ==> world.cursors == cursors
    {
      ok := *;
      var written: bool := *;
      if ok || written {
        assert PaidSubjects(world.(cursors := cursors)) == PaidSubjects(world);
        assert forall c :: Paid(world.(cursors := cursors), c) ==> Paid(world, c);
        SettledIgnoresCursors(facts, world, cursors);
        world := world.(cursors := cursors);
      }
      if !ok { faults := faults + 1; }
    }

    method ReadTransferCursors() returns (cursors: Option<map<string, int>>)
      modifies this`faults
      ensures cursors.Some? ==> cursors.value == world.cursors
      ensures faults == old(faults) + (if cursors.None? then 1 else 0)
    {
      var readable: bool := *;
      if readable { return Some(world.cursors); }
      faults := faults + 1;
      cursors := None;
    }

    /** Beam or the coordinator throws. */
    ghost method Throws()
      modifies this`faults
      ensures faults == old(faults) + 1
    {
      faults := faults + 1;
    }

    // ----- who asks for what -----

    method ByAddress(customers: seq<Account>) returns (approvedBy: map<string, Account>, revokedBy: map<string, Account>)
      ensures forall a :: a in approvedBy ==> approvedBy[a] in customers && Requester(a, Approved) in approvedBy[a].requesters
      ensures forall a :: a in revokedBy ==> revokedBy[a] in customers && Requester(a, Revoked) in revokedBy[a].requesters
      ensures forall account, requester :: account in customers && requester in account.requesters ==>
        (requester.status.Approved? ==> requester.address in approvedBy) && (requester.status.Revoked? ==> requester.address in revokedBy)
    {
      approvedBy, revokedBy := map[], map[];
      for i := 0 to |customers|
        invariant forall a :: a in approvedBy ==> approvedBy[a] in customers && Requester(a, Approved) in approvedBy[a].requesters
        invariant forall a :: a in revokedBy ==> revokedBy[a] in customers && Requester(a, Revoked) in revokedBy[a].requesters
        invariant forall account, requester :: account in customers[..i] && requester in account.requesters ==>
          (requester.status.Approved? ==> requester.address in approvedBy) && (requester.status.Revoked? ==> requester.address in revokedBy)
      {
        var customer := customers[i];
        for j := 0 to |customer.requesters|
          invariant forall a :: a in approvedBy ==> approvedBy[a] in customers && Requester(a, Approved) in approvedBy[a].requesters
          invariant forall a :: a in revokedBy ==> revokedBy[a] in customers && Requester(a, Revoked) in revokedBy[a].requesters
          invariant forall account, requester :: account in customers[..i] && requester in account.requesters ==>
            (requester.status.Approved? ==> requester.address in approvedBy) && (requester.status.Revoked? ==> requester.address in revokedBy)
          invariant forall requester :: requester in customer.requesters[..j] ==>
            (requester.status.Approved? ==> requester.address in approvedBy) && (requester.status.Revoked? ==> requester.address in revokedBy)
        {
          var requester := customer.requesters[j];
          assert requester == Requester(requester.address, requester.status);
          if requester.status.Approved? { approvedBy := approvedBy[requester.address := customer]; }
          if requester.status.Revoked? { revokedBy := revokedBy[requester.address := customer]; }
        }
        assert customer.requesters[..|customer.requesters|] == customer.requesters;
      }
      assert customers[..|customers|] == customers;
    }

    /**
     The open requests this relay answers, and the customers' ones it never will. A customer's request to start a
     transfer or a job is turned away here, so nothing of a customer's carries a request id from here on.
     */
    method CollectOpen(inputs: Inputs) returns (pending: seq<Pending>, unanswerable: seq<Unanswerable>)
      requires inputs.openRequests.Some?
      ensures OneEach(pending) && AllKnown(facts, inputs.customers, pending) && AllAsked(inputs.customers, unanswerable)
      ensures settings.maxPerOrganization.None? ==> unanswerable == [] && forall item :: item in pending ==> item.owner.Beam?
      ensures forall request :: request in inputs.openRequests.value ==> Routed(settings, inputs.customers, request, pending, unanswerable)
      ensures forall u :: u in unanswerable ==> u.request in inputs.openRequests.value && TurnedAway(settings, inputs.customers, u.request)
      ensures forall item :: item in pending ==> FromRequest(settings, inputs.customers, inputs.openRequests.value, item)
    {
      var approvedBy, revokedBy := ByAddress(inputs.customers);
      pending, unanswerable := [], [];
      for i := 0 to |inputs.openRequests.value|
        invariant OneEach(pending) && AllKnown(facts, inputs.customers, pending) && AllAsked(inputs.customers, unanswerable)
        invariant settings.maxPerOrganization.None? ==> unanswerable == [] && forall item :: item in pending ==> item.owner.Beam?
        invariant forall k :: 0 <= k < i ==> Routed(settings, inputs.customers, inputs.openRequests.value[k], pending, unanswerable)
        invariant forall u :: u in unanswerable ==> u.request in inputs.openRequests.value && TurnedAway(settings, inputs.customers, u.request)
        invariant forall item :: item in pending ==> FromRequest(settings, inputs.customers, inputs.openRequests.value, item)
      {
        var request := inputs.openRequests.value[i];
        ghost var pending0, unanswerable0 := pending, unanswerable;
        var turnedAway, item := Route(inputs.customers, approvedBy, revokedBy, request);
        if turnedAway.Some? {
          unanswerable := unanswerable + [turnedAway.value];
        } else if item.Some? {
          assert ItemOf(settings, inputs.customers, request, item.value);
          AddMeaning(pending, item.value);
          AddKeepsPending(pending, item.value);
          pending := Add(pending, item.value);
        }
        assert turnedAway.Some? ==> turnedAway.value in unanswerable;
        RoutedStays(settings, inputs, i, pending0, unanswerable0, pending, unanswerable);
      }
    }

    /** One open request: turned away, to be looked up, or neither. */
    method Route(customers: seq<Account>, approvedBy: map<string, Account>, revokedBy: map<string, Account>, request: OpenRequest)
        returns (turnedAway: Option<Unanswerable>, item: Option<Pending>)
      requires forall a :: a in approvedBy ==> approvedBy[a] in customers && Requester(a, Approved) in approvedBy[a].requesters
      requires forall a :: a in revokedBy ==> revokedBy[a] in customers && Requester(a, Revoked) in revokedBy[a].requesters
      requires Has(customers, request.requester, Approved) ==> request.requester in approvedBy
      requires Has(customers, request.requester, Revoked) ==> request.requester in revokedBy
      ensures turnedAway.Some? <==> TurnedAway(settings, customers, request)
      ensures turnedAway.Some? ==> turnedAway.value.request == request && Asked(customers, request, turnedAway.value.organizationId)
      ensures item.Some? <==> LooksUp(settings, customers, request) && SubjectForOpenRequest(settings.routes, request).Some?
      ensures item.Some? ==> Known(facts, customers, item.value) && ItemOf(settings, customers, request, item.value)
    {
      var owner := Beam;
      var address := request.requester;
      assert address in approvedBy ==> Has(customers, address, Approved);
      assert address in revokedBy ==> Has(customers, address, Revoked);
      if settings.maxPerOrganization.Some? && address != settings.relayAccount {
        if address !in approvedBy {
          if address !in revokedBy { return None, None; }
          assert Asked(customers, request, revokedBy[address].organizationId);
          return Some(Unanswerable(request, revokedBy[address].organizationId)), None;
        }
        assert Asked(customers, request, approvedBy[address].organizationId);
        if request.kind == REQUEST_TRANSFER {
          return Some(Unanswerable(request, approvedBy[address].organizationId)), None;
        }
        owner := OwnedBy(approvedBy[address].organizationId);
      }
      turnedAway := None;
      var subject := SubjectForOpenRequest(settings.routes, request);
      item := if subject.None? then None
              else Some(Pending(subject.value, owner, None, if owner.OwnedBy? then Some(request) else None));
    }

    /** What each organization finished since its cursor; a listing that fails is left for the next pass. */
    method CollectListings(inputs: Inputs, cursors: map<string, int>, asked: seq<Pending>) returns (pending: seq<Pending>, listings: seq<Listing>)
      requires Honest(facts, settings, inputs) && settings.maxPerOrganization.Some? && Safe() && cursors == world.cursors
      requires OneEach(asked) && AllKnown(facts, inputs.customers, asked)
      ensures OneEach(pending) && AllKnown(facts, inputs.customers, pending) && ListingsReady(facts, world, listings)
      ensures listings == Listings(inputs, settings.maxPerOrganization.value, cursors, |inputs.customers|)
      ensures AllOwedPending(pending, listings)
      ensures forall item :: item in pending ==> item in asked || FromListing(listings, item)
      ensures forall key :: IsPending(asked, key) ==> IsPending(pending, key)
    {
      pending, listings := asked, [];
      for i := 0 to |inputs.customers|
        invariant OneEach(pending) && AllKnown(facts, inputs.customers, pending) && ListingsReady(facts, world, listings)
        invariant listings == Listings(inputs, settings.maxPerOrganization.value, cursors, i)
        invariant AllOwedPending(pending, listings)
        invariant forall item :: item in pending ==> item in asked || FromListing(listings, item)
        invariant forall key :: IsPending(asked, key) ==> IsPending(pending, key)
      {
        var listing := ReadListing(inputs, cursors, inputs.customers[i]);
        if listing.Some? {
          ghost var before, listed := pending, listings;
          pending := AddListed(inputs.customers, listing.value.org, listing.value.transfers, pending);
          OneMoreListing(facts, world, listings, listing.value, before, pending);
          listings := listings + [listing.value];
          NewFromListing(listed, listing.value, asked, before, pending);
        }
      }
    }

    /** One customer's listing: complete up to its newest row, from a cursor that skips nothing. */
    method ReadListing(inputs: Inputs, cursors: map<string, int>, customer: Account) returns (listing: Option<Listing>)
      requires Honest(facts, settings, inputs) && settings.maxPerOrganization.Some? && Safe() && cursors == world.cursors
      requires customer in inputs.customers
      ensures listing == ListingOf(inputs, settings.maxPerOrganization.value, cursors, customer)
      ensures listing.Some? ==> ListingsReady(facts, world, [listing.value])
      ensures listing.Some? ==> forall t :: t in listing.value.transfers ==> t.row in facts.rows(listing.value.org)
    {
      if customer.periods == [] || !ListsTransfers(customer.periods, inputs.now) { return None; }
      var org := customer.organizationId;
      var cursor := if org in cursors then cursors[org] else InitialTransferCursor(customer.periods);
      var listed := inputs.finishedTransfers(org, cursor);
      if listed.None? { return None; }
      assert Listable(facts, org, cursor, listed.value, settings.maxPerOrganization.value);
      var cut := Cut(listed.value, settings.maxPerOrganization.value);
      CutIsComplete(facts, org, cursor, listed.value, settings.maxPerOrganization.value);
      MarkedIsComplete(facts, org, cursor, cut, customer.periods);
      MarkedMeaning(cut, customer.periods);
      InitialCursorSkipsNothing(facts, world, org, customer.periods);
      listing := Some(Listing(org, cursor, Marked(cut, customer.periods)));
    }

    method AddListed(ghost customers: seq<Account>, org: string, transfers: seq<ListedRow>, asked: seq<Pending>) returns (pending: seq<Pending>)
      requires OneEach(asked) && AllKnown(facts, customers, asked)
      requires forall t :: t in transfers ==> t.row in facts.rows(org)
      ensures OneEach(pending) && AllKnown(facts, customers, pending)
      ensures forall key :: IsPending(asked, key) ==> IsPending(pending, key)
      ensures OwedArePending(pending, transfers)
      ensures forall item :: item in pending ==> item in asked || ItemOfRow(org, transfers, item)
    {
      pending := asked;
      for i := 0 to |transfers|
        invariant OneEach(pending) && AllKnown(facts, customers, pending)
        invariant forall key :: IsPending(asked, key) ==> IsPending(pending, key)
        invariant forall k :: 0 <= k < i && transfers[k].owed ==> IsPending(pending, ByTransfer(transfers[k].row.id))
        invariant forall item :: item in pending ==> item in asked || ItemOfRow(org, transfers, item)
      {
        var t := transfers[i];
        if !t.owed { continue; }
        assert t in transfers && t.row in facts.rows(org);
        var item := Pending(TransferSubject(t.row.id, None), OwnedBy(org), Some(t.row.observation), None);
        assert ItemOfRow(org, transfers, item);
        AddMeaning(pending, item);
        AddKeepsPending(pending, item);
        pending := Add(pending, item);
      }
    }

    // ----- looking up, and holding credits -----

    /** A job, which only Beam owns: its two publications are found and observed, in that order. */
    method PlanJob(inputs: Inputs, item: Pending) returns (outcome: Outcome)
      requires item.subject.JobSubject? && AsksForReceiptOnly(item)
      modifies this`faults
      ensures faults == old(faults) + (if outcome.Threw? then 1 else 0)
      ensures outcome.Threw? || outcome == (if Plan(inputs, item) == [] then NotYet else Plans(Plan(inputs, item)))
      ensures outcome.Plans? ==> PlanShape(outcome.planned) && KeysFit(outcome.planned) && forall p :: p in outcome.planned ==> p.owner.Beam?
    {
      var job := item.subject;
      JobNeedsThree(inputs, job);
      var input := inputs.lookup(RoomRequestSubject(job.room, job.inputChannel, job.requestId));
      if input.None? { Throws(); return Threw; }
      if !input.value.Found? { return NotYet; }
      var output := inputs.lookup(RoomRequestSubject(job.room, job.outputChannel, job.requestId));
      if output.None? { Throws(); return Threw; }
      if !output.value.Found? { return NotYet; }
      var inputSaw := inputs.observe(RoomSubject(RoomKey(job.room, job.inputChannel, input.value.publication), None));
      if inputSaw.None? { Throws(); return Threw; }
      var outputSaw := inputs.observe(RoomSubject(RoomKey(job.room, job.outputChannel, output.value.publication), None));
      if outputSaw.None? { Throws(); return Threw; }
      var entries := JobEntriesFor(job, input.value.publication, output.value.publication, inputSaw.value, outputSaw.value);
      if entries.None? { return NotYet; }
      var key := SubjectKey(job);
      outcome := Plans([Planned(entries.value[0], item.owner, key), Planned(entries.value[1], item.owner, key), Planned(entries.value[2], item.owner, key)]);
    }

    /** The receipt subject of a pending one; a Room delivery's publication is looked up first. */
    method Resolve(inputs: Inputs, item: Pending) returns (found: Option<Subject>, threw: bool)
      requires !item.subject.JobSubject? && Known(facts, inputs.customers, item)
      modifies this`faults
      ensures found == SubjectOf(inputs, item) && faults == old(faults) + (if threw then 1 else 0)
      ensures found.Some? ==> !threw && (found.value.TransferSubject? || found.value.RoomSubject?)
      ensures item.subject.TransferSubject? ==> found == Some(item.subject)
    {
      if !item.subject.RoomRequestSubject? { return Some(item.subject), false; }
      var lookup := inputs.lookup(item.subject);
      if lookup.None? { Throws(); return None, true; }
      // A customer never owns a Room request, so an absent publication closes nothing.
      if !lookup.value.Found? { return None, false; }
      var key := RoomKey(item.subject.room, item.subject.channel, lookup.value.publication);
      found, threw := Some(RoomSubject(key, Some(item.subject.requestId))), false;
    }

    /** What becomes of an item without an entry: an absent one may be closed, a listed one that is no receipt is done with. */
    method WithoutEntry(inputs: Inputs, item: Pending, subject: Subject, observation: Observation) returns (outcome: Outcome)
      requires Known(facts, inputs.customers, item) && ReportEntryFor(subject, observation).None?
      requires item.observation.Some? ==> subject == item.subject && item.observation == Some(observation)
      ensures observation.Absent? ==> outcome == UnseenOutcome(inputs, item)
      ensures !observation.Absent? ==>
        outcome == if observation.Unfinished? || item.observation.None? then NotYet else Settles(SubjectKey(subject))
      ensures outcome.Settles? && outcome.key.ByTransfer? ==> TransferSettled(facts, world, outcome.key.transferId)
    {
      if observation.Absent? { return UnseenOutcome(inputs, item); }
      if observation.Unfinished? || item.observation.None? { return NotYet; }
      ghost var org, row :| row in facts.rows(org) && row.id == subject.transferId && row.observation == observation;
      assert NeverAReceipt(row);
      outcome := Settles(SubjectKey(subject));
    }

    method PlanOne(inputs: Inputs, item: Pending) returns (outcome: Outcome)
      requires Safe() && Known(facts, inputs.customers, item)
      modifies this`world, this`held, this`holdsAsked, this`answers, this`faults
      ensures Safe() && Later(old(world), world) && world.cursors == old(world).cursors
      ensures old(held) <= held && old(holdsAsked) <= holdsAsked && faults == old(faults) + (if outcome.Threw? then 1 else 0)
      ensures outcome.Settles? && outcome.key.ByTransfer? ==> TransferSettled(facts, world, outcome.key.transferId)
      ensures outcome.Unseen? ==> Asked(inputs.customers, outcome.closing.request, outcome.closing.organizationId)
      ensures outcome.Plans? ==>
        outcome.planned == Plan(inputs, item) && PlanShape(outcome.planned) && KeysFit(outcome.planned) && ChargesHeld(outcome.planned, held)
      ensures !outcome.Threw? ==> ItemDone(inputs, item, PlannedOf(outcome), holdsAsked, SettledOf(outcome), UnseenOf(outcome))
      // A customer's receipt goes as the website answers, and what is over is settled.
      ensures !outcome.Threw? ==> forall p :: p in Plan(inputs, item) && Chargeable(p) ==> Charge(p) in answers && outcome == ByAnswer(p, answers[Charge(p)])
      ensures forall r :: ForReceipt(r) in answers && Over(answers[ForReceipt(r)]) ==>
        (ForReceipt(r) in old(answers) && Over(old(answers)[ForReceipt(r)])) || outcome == Settles(KeyOfReceipt(r))
      ensures OnlyAsks(inputs, item, old(answers), answers)
      ensures forall ask :: ask in holdsAsked && ask !in old(holdsAsked) ==> AskedOfPlan(inputs, item, ask)
      ensures outcome.Unseen? ==> UnseenTooLong(inputs, item) && outcome.closing == Unanswerable(item.request.value, item.owner.organizationId)
    {
      if item.subject.JobSubject? {
        outcome := PlanJob(inputs, item);
        return;
      }
      var found, threw := Resolve(inputs, item);
      if found.None? { return if threw then Threw else NotYet; }
      var subject := found.value;
      var observation := if item.observation.Some? then item.observation else inputs.observe(subject);
      if observation.None? { Throws(); return Threw; }
      var entry := ReportEntryFor(subject, observation.value);
      if entry.None? {
        outcome := WithoutEntry(inputs, item, subject, observation.value);
        UnseenMeaning(inputs, item);
        return;
      }
      EntryIsAboutItsSubject(subject, observation.value);
      var planned := Planned(entry.value, item.owner, SubjectKey(subject));
      assert Plan(inputs, item) == [planned];
      if Chargeable(planned) {
        outcome := HoldFor(planned);
      } else {
        outcome := Plans([planned]);
      }
    }

    /** Plans an entry only with its credit held; a charge that is over settles the subject, a refused one leaves it waiting. */
    method HoldFor(planned: Planned) returns (outcome: Outcome)
      requires Safe() && Chargeable(planned) && KeysFit([planned])
      modifies this`world, this`held, this`holdsAsked, this`answers, this`faults
      ensures Safe() && Later(old(world), world) && world.cursors == old(world).cursors
      ensures old(held) <= held && faults == old(faults) + (if outcome.Threw? then 1 else 0)
      ensures holdsAsked == old(holdsAsked) + {Ask(Charge(planned), planned.owner.organizationId)}
      ensures outcome.Threw? ==> answers == old(answers)
      ensures !outcome.Threw? ==> Charge(planned) in answers && outcome == ByAnswer(planned, answers[Charge(planned)])
      ensures !outcome.Threw? ==> answers == old(answers)[Charge(planned) := answers[Charge(planned)]]
      ensures outcome.Settles? && outcome.key.ByTransfer? ==> TransferSettled(facts, world, outcome.key.transferId)
      ensures outcome.Plans? ==> Charge(planned) in held
      ensures outcome.NotYet? ==> held == old(held)
    {
      assert planned in [planned];
      var reserved := ReserveCharge(Charge(planned), planned.owner.organizationId);
      match reserved
      case None => outcome := Threw;
      case Some(Held) => outcome := Plans([planned]);
      case Some(Charged) | Some(Released) => outcome := Settles(planned.key);
      case Some(Refused(_)) | Some(Unavailable(_)) => outcome := NotYet;
    }

    /** Everything pending is looked up; what may be recorded is planned, its customers' credits held, and nothing else. */
    method PlanAll(inputs: Inputs, pending: seq<Pending>)
        returns (threw: bool, planned: seq<Planned>, settled: set<Key>, unseen: seq<Unanswerable>)
      requires Safe() && AllKnown(facts, inputs.customers, pending) && OneEach(pending) && answers == map[] && holdsAsked == {}
      modifies this`world, this`held, this`holdsAsked, this`answers, this`faults
      ensures Safe() && Later(old(world), world) && world.cursors == old(world).cursors
      ensures AllAsksOfPlans(inputs, pending, holdsAsked) && faults == old(faults) + (if threw then 1 else 0)
      ensures JobsFollow(planned) && KeysFit(planned) && ChargesHeld(planned, held) && SettledSound(facts, world, settled)
      ensures AllAsked(inputs.customers, unseen) && forall u :: u in unseen ==> ClosesUnseen(inputs, pending, u)
      ensures !threw ==> ChargesFollowed(inputs, pending, |pending|, planned, settled, answers)
      ensures !threw ==> ItemsDone(inputs, pending, |pending|, planned, holdsAsked, settled, unseen) && HoldsSettled(answers, settled)
    {
      threw, planned, settled, unseen := false, [], {}, [];
      for i := 0 to |pending|
        invariant Safe() && Later(old(world), world) && world.cursors == old(world).cursors
        invariant AllAsksOfPlans(inputs, pending, holdsAsked) && faults == old(faults)
        invariant JobsFollow(planned) && KeysFit(planned) && ChargesHeld(planned, held) && SettledSound(facts, world, settled)
        invariant AllAsked(inputs.customers, unseen) && forall u :: u in unseen ==> ClosesUnseen(inputs, pending, u)
        invariant ChargesFollowed(inputs, pending, i, planned, settled, answers)
        invariant ItemsDone(inputs, pending, i, planned, holdsAsked, settled, unseen) && HoldsSettled(answers, settled)
      {
        assert pending[i] in pending;
        ghost var before, asked, planned0, settled0, unseen0, answers0 := world, holdsAsked, planned, settled, unseen, answers;
        var outcome := PlanOne(inputs, pending[i]);
        LaterTransitive(old(world), before, world);
        SettledStaysSound(facts, before, world, settled);
        OneMoreAsk(inputs, pending, pending[i], asked, holdsAsked);
        if outcome.Threw? { return true, planned, settled, unseen; }
        KeepsShape(planned, outcome);
        OneMoreFollowed(inputs, pending, i, outcome, planned, settled, answers0, answers);
        planned, settled, unseen := planned + PlannedOf(outcome), settled + SettledOf(outcome), unseen + UnseenOf(outcome);
        OneMoreDone(inputs, pending, i, outcome, planned0, settled0, unseen0, asked, holdsAsked);
      }
    }

    // ----- writing, and settling -----

    /**
     The receipts of a mined report are committed, each asked for; what is answered as charged is settled, and a commit
     that fails leaves its subject for the next pass.
     */
    method CommitBatch(batch: seq<Planned>, before: set<Key>, ghost charged0: set<ChargeSubject>) returns (threw: bool, settled: set<Key>)
      requires Safe() && KeysFit(batch) && ReceiptsOf(EntriesOf(batch)) <= world.receipts && SettledSound(facts, world, before)
      requires ChargedSettled(charged0, charged, before)
      modifies this`world, this`commitsAsked, this`charged, this`commitAnswers, this`faults
      ensures Safe() && Later(old(world), world) && world.cursors == old(world).cursors
      ensures before <= settled && SettledSound(facts, world, settled)
      ensures old(commitsAsked) <= commitsAsked && faults == old(faults) + (if threw then 1 else 0)
      ensures ChargedSettled(charged0, charged, settled) && (!threw ==> CommitsAsked(batch, commitsAsked))
    {
      threw, settled := false, before;
      for j := 0 to |batch|
        invariant Safe() && Later(old(world), world) && world.cursors == old(world).cursors
        invariant before <= settled && SettledSound(facts, world, settled)
        invariant old(commitsAsked) <= commitsAsked && faults == old(faults)
        invariant forall k :: 0 <= k < j && Chargeable(batch[k]) ==> Charge(batch[k]) in commitsAsked
        invariant ChargedSettled(charged0, charged, settled)
      {
        var p := batch[j];
        assert p in batch;
        if !Chargeable(p) { continue; }
        assert EntriesOf(batch)[j] == p.entry;
        assert p.entry in EntriesOf(batch);
        var charge := Charge(p);
        ghost var was := world;
        var committed := CommitCharge(charge);
        LaterTransitive(old(world), was, world);
        SettledStaysSound(facts, was, world, settled);
        if committed.None? { return true, settled; }
        if committed == Some(Charged) { settled := settled + {p.key}; }
      }
    }

    /**
     Reports of bounded size, in order, until one fails to be written: its holds stay for the next pass. Unless one
     failed or a call threw, everything planned was sent and is on chain.
     */
    method WriteAll(planned: seq<Planned>, before: set<Key>, ghost charged0: set<ChargeSubject>)
        returns (threw: bool, settled: set<Key>, recorded: nat, ghost failed: bool)
      requires Valid() && JobsFollow(planned) && KeysFit(planned) && ChargesHeld(planned, held) && SettledSound(facts, world, before)
      requires ChargedSettled(charged0, charged, before)
      modifies this`world, this`reports, this`commitsAsked, this`charged, this`commitAnswers, this`faults, this`unwritten
      ensures unwritten == old(unwritten) + (if failed then 1 else 0)
      ensures Valid() && Later(old(world), world) && world.cursors == old(world).cursors
      ensures before <= settled && SettledSound(facts, world, settled)
      ensures recorded <= |planned| && OnChain(world, EntriesOf(planned[..recorded]))
      ensures faults == old(faults) + (if threw then 1 else 0)
      ensures !threw && !failed ==> recorded == |planned|
      ensures ChargedSettled(charged0, charged, settled) && (!threw ==> CommitsAsked(planned[..recorded], commitsAsked))
      ensures failed ==> |reports| > |old(reports)| && reports[|reports| - 1].batch <= planned[recorded..]
    {
      threw, settled, recorded, failed := false, before, 0, false;
      while recorded < |planned|
        invariant Valid() && Later(old(world), world) && world.cursors == old(world).cursors
        invariant before <= settled && SettledSound(facts, world, settled)
        invariant recorded <= |planned| && OnChain(world, EntriesOf(planned[..recorded]))
        invariant faults == old(faults) && unwritten == old(unwritten) && !threw && !failed && |reports| >= |old(reports)|
        invariant ChargedSettled(charged0, charged, settled) && CommitsAsked(planned[..recorded], commitsAsked)
        decreases |planned| - recorded
      {
        var end := if recorded + MAX_ENTRIES_PER_REPORT < |planned| then recorded + MAX_ENTRIES_PER_REPORT else |planned|;
        var batch := planned[recorded..end];
        BatchCoversItsJobs(world, planned, recorded, end);
        ghost var was := world;
        var written := WriteReport(batch);
        LaterTransitive(old(world), was, world);
        SettledStaysSound(facts, was, world, settled);
        if !written {
          failed := true;
          assert batch <= planned[recorded..];
          break;
        }
        was := world;
        threw, settled := CommitRecorded(planned, recorded, end, settled, charged0);
        LaterTransitive(old(world), was, world);
        recorded := end;
        if threw { return; }
      }
    }

    /** What follows a mined report. */
    method CommitRecorded(planned: seq<Planned>, recorded: nat, end: nat, before: set<Key>, ghost charged0: set<ChargeSubject>)
        returns (threw: bool, settled: set<Key>)
      requires recorded <= end <= |planned| && Valid() && KeysFit(planned) && SettledSound(facts, world, before)
      requires OnChain(world, EntriesOf(planned[..recorded]))
      requires OnChain(world, EntriesOf(planned[recorded..end]))
      requires ChargedSettled(charged0, charged, before) && CommitsAsked(planned[..recorded], commitsAsked)
      modifies this`world, this`commitsAsked, this`charged, this`commitAnswers, this`faults
      ensures Valid() && Later(old(world), world) && world.cursors == old(world).cursors
      ensures before <= settled && SettledSound(facts, world, settled) && faults == old(faults) + (if threw then 1 else 0)
      ensures OnChain(world, EntriesOf(planned[..end]))
      ensures ChargedSettled(charged0, charged, settled) && (!threw ==> CommitsAsked(planned[..end], commitsAsked))
    {
      ghost var asked := commitsAsked;
      threw, settled := CommitBatch(planned[recorded..end], before, charged0);
      OnChainPrefix(world, planned, recorded, end);
      if !threw { AskedForBoth(planned, recorded, end, asked, commitsAsked); }
    }

    /** Where each listing's cursor moves to. */
    method NextCursors(listings: seq<Listing>, saved: map<string, int>, settled: set<Key>) returns (cursors: map<string, int>)
      requires saved == world.cursors && CursorsSafe(facts, world) && ListingsReady(facts, world, listings) && SettledSound(facts, world, settled)
      ensures forall org :: org in saved ==> org in cursors && saved[org] <= cursors[org]
      ensures forall org :: org in cursors ==> NothingSkipped(facts, world, org, cursors[org])
      ensures OrgsDiffer(listings) ==> forall l :: l in listings ==> l.org in cursors && cursors[l.org] == Moved(l, settled)
    {
      cursors := saved;
      for i := 0 to |listings|
        invariant forall org :: org in saved ==> org in cursors && saved[org] <= cursors[org]
        invariant forall org :: org in cursors ==> NothingSkipped(facts, world, org, cursors[org])
        invariant OrgsDiffer(listings) ==> MovedTo(listings[..i], cursors, settled)
      {
        var listing := listings[i];
        assert listing in listings;
        MovedCursorSkipsNothing(facts, world, listing, settled);
        if OrgsDiffer(listings) { MovedSnoc(listings, i, cursors, settled); }
        cursors := cursors[listing.org := Moved(listing, settled)];
      }
      assert listings[..|listings|] == listings;
    }

    /** Each listing's cursor moves past what is done with; the file is written once, for all. */
    method MoveCursors(listings: seq<Listing>, saved: map<string, int>, settled: set<Key>) returns (ok: bool)
      requires Safe() && saved == world.cursors && ListingsReady(facts, world, listings) && SettledSound(facts, world, settled)
      modifies this`world, this`faults
      ensures faults == old(faults) + (if ok then 0 else 1)
      ensures Safe() && Later(old(world), world)
      ensures ok && OrgsDiffer(listings) ==> forall l :: l in listings ==> l.org in world.cursors && world.cursors[l.org] == Moved(l, settled)
    {
      if listings == [] { return true; }
      var cursors := NextCursors(listings, saved, settled);
      ok := SaveTransferCursors(cursors);
    }

    /**
     One pass over the receipts. Unless a call threw: every open request and every owed row of every listing was looked
     up; what could be answered was planned or its charge asked for, and nothing else; unless a report failed to be
     written, all of it is on chain, every receipt of it was asked to be committed, and whatever was answered as paid or
     over is settled; and each cursor moved to just where what is settled allows.
     */
    method RunReceipts(inputs: Inputs) returns (threw: bool, recorded: nat, unanswerable: seq<Unanswerable>, ghost trail: Trail)
      requires Valid() && Honest(facts, settings, inputs) && answers == map[] && charged == {} && holdsAsked == {}
      modifies this`world, this`held, this`reports, this`holdsAsked, this`answers, this`commitsAsked, this`charged, this`commitAnswers, this`faults, this`unwritten
      ensures Valid() && Later(old(world), world)
      ensures AllAsked(inputs.customers, unanswerable) && faults == old(faults) + (if threw then 1 else 0)
      ensures !threw ==> PassDone(facts, settings, inputs, old(world).cursors, trail, world, Heard())
      ensures !threw && settings.maxPerOrganization.None? ==> holdsAsked == {}
      ensures !threw ==> trail.unanswerable == unanswerable && trail.recorded == recorded && unwritten == old(unwritten) + (if trail.cut then 1 else 0)
    {
      recorded, unanswerable := 0, [];
      var pending, listings, turnedAway;
      threw, pending, listings, turnedAway := Gather(inputs);
      trail := Trail(pending, turnedAway, listings, [], {}, 0, false);
      if threw { return; }
      var cursors := world.cursors;
      ghost var start := world;
      var planned, settled, unseen;
      threw, planned, settled, unseen := PlanAll(inputs, pending);
      if threw { return; }
      ghost var planning := world;
      ListingsStayReady(facts, start, planning, listings);
      ghost var cut, planned0 := false, settled;
      threw, settled, recorded, cut := WriteAndMove(planned, settled, listings, cursors);
      LaterTransitive(start, planning, world);
      if threw { return; }
      FollowedStays(inputs, pending, |pending|, planned, planned0, settled, answers, answers);
      unanswerable := turnedAway + unseen;
      trail := Trail(pending, unanswerable, listings, planned, settled, recorded, cut);
      PassIsDone(facts, settings, inputs, cursors, turnedAway, unseen, trail, world, Heard());
      if settings.maxPerOrganization.None? { NobodyAsked(settings, inputs, cursors, trail, holdsAsked); }
    }

    /** What was planned is written and settled, and the cursors move accordingly. */
    method WriteAndMove(planned: seq<Planned>, before: set<Key>, listings: seq<Listing>, cursors: map<string, int>)
        returns (threw: bool, settled: set<Key>, recorded: nat, ghost cut: bool)
      requires Valid() && JobsFollow(planned) && KeysFit(planned) && ChargesHeld(planned, held) && SettledSound(facts, world, before)
      requires charged == {} && cursors == world.cursors && ListingsReady(facts, world, listings)
      modifies this`world, this`reports, this`commitsAsked, this`charged, this`commitAnswers, this`faults, this`unwritten
      ensures Valid() && Later(old(world), world)
      ensures faults == old(faults) + (if threw then 1 else 0) && (!threw ==> unwritten == old(unwritten) + (if cut then 1 else 0))
      ensures before <= settled && recorded <= |planned| && (!threw && !cut ==> recorded == |planned|)
      ensures !threw ==> OnChain(world, EntriesOf(planned[..recorded])) && CommitsAsked(planned[..recorded], commitsAsked)
      ensures !threw ==> SettledSound(facts, world, settled) && ChargedSettled({}, charged, settled)
      ensures !threw && OrgsDiffer(listings) ==> MovedTo(listings, world.cursors, settled)
    {
      ghost var start := world;
      threw, settled, recorded, cut := WriteAll(planned, before, {});
      if threw { return; }
      ListingsStayReady(facts, start, world, listings);
      ghost var written := world;
      var saved := MoveCursors(listings, cursors, settled);
      LaterTransitive(start, written, world);
      SettledStaysSound(facts, written, world, settled);
      threw := !saved;
    }

    /** What is asked for, and what each organization finished: everything this pass looks up or turns away. */
    method Gather(inputs: Inputs) returns (threw: bool, pending: seq<Pending>, listings: seq<Listing>, turnedAway: seq<Unanswerable>)
      requires Safe() && Honest(facts, settings, inputs)
      modifies this`faults
      ensures faults == old(faults) + (if threw then 1 else 0)
      ensures AllKnown(facts, inputs.customers, pending) && AllAsked(inputs.customers, turnedAway) && ListingsReady(facts, world, listings)
      ensures OneEach(pending) && (!threw ==> inputs.openRequests.Some? && forall u :: u in turnedAway ==> u.request in inputs.openRequests.value && TurnedAway(settings, inputs.customers, u.request))
      ensures !threw ==> LookedUp(settings, inputs, world.cursors, Trail(pending, turnedAway, listings, [], {}, 0, false))
    {
      threw, pending, listings, turnedAway := false, [], [], [];
      if inputs.openRequests.None? {
        Throws();
        threw := true;
        return;
      }
      pending, turnedAway := CollectOpen(inputs);
      if settings.maxPerOrganization.Some? {
        var saved := ReadTransferCursors();
        if saved.None? {
          threw := true;
          return;
        }
        var asked := pending;
        pending, listings := CollectListings(inputs, saved.value, asked);
        AllRouted(settings, inputs, asked, turnedAway, pending, turnedAway);
      }
    }

    // ----- closing what is never answered -----

    ghost predicate Answered(key: string)
      reads this
    {
      ForClosing(key) in commitAnswers
    }

    /** Charges of requests already cancelled, tried again, every one of them; those the website was unavailable for are kept. */
    method RetryCommits() returns (threw: bool)
      requires Valid()
      modifies this`world, this`uncommittedCloses, this`commitsAsked, this`charged, this`commitAnswers, this`faults
      ensures Valid() && Later(old(world), world) && uncommittedCloses.Keys <= old(uncommittedCloses).Keys
      ensures old(commitsAsked) <= commitsAsked && faults == old(faults) + (if threw then 1 else 0)
      ensures !threw ==> forall key :: key in old(uncommittedCloses) ==> ForClosing(key) in commitsAsked
      ensures forall key :: key in old(uncommittedCloses) && key !in uncommittedCloses ==> Answered(key) && !commitAnswers[ForClosing(key)].Unavailable?
      ensures !threw ==> forall key :: key in uncommittedCloses ==> Answered(key) && commitAnswers[ForClosing(key)].Unavailable?
      ensures world.cursors == old(world).cursors && forall r :: ForReceipt(r) in charged ==> ForReceipt(r) in old(charged)
    {
      var todo := uncommittedCloses.Keys;
      while todo != {}
        invariant Valid() && Later(old(world), world) && faults == old(faults)
        invariant todo <= uncommittedCloses.Keys <= old(uncommittedCloses).Keys && old(commitsAsked) <= commitsAsked
        invariant forall key :: key in old(uncommittedCloses) && key !in todo ==> ForClosing(key) in commitsAsked
        invariant forall key :: key in old(uncommittedCloses) && key !in todo ==>
          Answered(key) && (key in uncommittedCloses <==> commitAnswers[ForClosing(key)].Unavailable?)
        invariant world.cursors == old(world).cursors && forall r :: ForReceipt(r) in charged ==> ForReceipt(r) in old(charged)
      {
        var key :| key in todo;
        todo := todo - {key};
        ghost var was := world;
        var committed := CommitCharge(ForClosing(key));
        LaterTransitive(old(world), was, world);
        if committed.None? { return true; }
        if committed.value.Unavailable? { continue; }
        uncommittedCloses := uncommittedCloses - {key};
      }
      threw := false;
    }

    /**
     Closes each request once, only with its charge held, and commits the charge only once it is cancelled; a commit that
     does not go through is remembered.
     */
    method CloseUnanswerable(unanswerable: seq<Unanswerable>) returns (threw: bool, closed: nat, ghost keys: set<string>)
      requires Valid()
      modifies this`world, this`held, this`uncommittedCloses, this`holdsAsked, this`answers, this`commitsAsked, this`charged, this`commitAnswers, this`cancelsAsked, this`faults
      ensures Valid() && Later(old(world), world) && faults == old(faults) + (if threw then 1 else 0)
      ensures world.cursors == old(world).cursors && ClosingOnly(old(Heard()), Heard())
      ensures !threw ==> forall u :: u in unanswerable ==> KeyAsked(unanswerable, u.request.key, holdsAsked, answers, cancelsAsked)
      ensures !threw ==> ClosedAre(keys, closed, world, commitsAsked)
    {
      closed, keys := 0, {};
      threw := RetryCommits();
      if threw { return; }
      var seen := {};
      for i := 0 to |unanswerable|
        invariant Valid() && Later(old(world), world) && faults == old(faults)
        invariant keys <= seen && ClosedAre(keys, closed, world, commitsAsked)
        invariant world.cursors == old(world).cursors && ClosingOnly(old(Heard()), Heard())
        invariant forall k :: 0 <= k < i ==> unanswerable[k].request.key in seen
        invariant KeysAsked(unanswerable, seen, holdsAsked, answers, cancelsAsked)
      {
        var u := unanswerable[i];
        if u.request.key in seen { continue; }
        ghost var was, asked0, answers0, cancels0, commits0 := world, holdsAsked, answers, cancelsAsked, commitsAsked;
        var closes := CloseOne(u);
        LaterTransitive(old(world), was, world);
        if closes.None? { return true, closed, keys; }
        OneMoreClosing(unanswerable, seen, u, asked0, holdsAsked, answers0, answers, cancels0, cancelsAsked);
        OneMoreClosed(keys, closed, u.request.key, closes.value, was, world, commits0, commitsAsked);
        if closes.value { closed, keys := closed + 1, keys + {u.request.key}; }
        seen := seen + {u.request.key};
      }
    }

    /** A hold that is given leads to a cancel, and a cancel that is mined to a commit. */
    method CloseOne(u: Unanswerable) returns (closed: Option<bool>)
      requires Valid()
      modifies this`world, this`held, this`uncommittedCloses, this`holdsAsked, this`answers, this`commitsAsked, this`charged, this`commitAnswers, this`cancelsAsked, this`faults
      ensures Valid() && Later(old(world), world) && faults == old(faults) + (if closed.None? then 1 else 0)
      ensures world.cursors == old(world).cursors && ClosingOnly(old(Heard()), Heard())
      ensures holdsAsked == old(holdsAsked) + {Ask(ForClosing(u.request.key), u.organizationId)}
      ensures closed == Some(true) ==> u.request.key in world.cancelled && ForClosing(u.request.key) in held && ForClosing(u.request.key) in commitsAsked
      ensures closed == Some(true) ==> Paid(world, ForClosing(u.request.key)) || u.request.key in uncommittedCloses
      ensures closed.Some? ==> ForClosing(u.request.key) in answers
      ensures closed.Some? ==> cancelsAsked == old(cancelsAsked) + (if answers[ForClosing(u.request.key)].Held? then {u.request.key} else {})
      ensures OthersStay(old(answers), answers, ForClosing(u.request.key)) && old(cancelsAsked) <= cancelsAsked
      ensures closed != Some(true) ==> uncommittedCloses == old(uncommittedCloses)
    {
      var held0 := HoldClosing(u.request.key, u.organizationId);
      if held0 != Some(true) { return held0; }
      ghost var was, heard := world, Heard();
      closed := CancelAndCommit(u);
      LaterTransitive(old(world), was, world);
      ClosingOnlyTransitive(old(Heard()), heard, Heard());
    }

    method HoldClosing(key: string, organizationId: string) returns (ok: Option<bool>)
      requires Valid()
      modifies this`world, this`held, this`holdsAsked, this`answers, this`faults
      ensures Valid() && Later(old(world), world) && faults == old(faults) + (if ok.None? then 1 else 0)
      ensures world.cursors == old(world).cursors && ClosingOnly(old(Heard()), Heard())
      ensures holdsAsked == old(holdsAsked) + {Ask(ForClosing(key), organizationId)} && OthersStay(old(answers), answers, ForClosing(key))
      ensures ok.Some? ==> ForClosing(key) in answers && (ok.value <==> answers[ForClosing(key)].Held?)
      ensures ok == Some(true) ==> ForClosing(key) in held
    {
      var reserved := ReserveCharge(ForClosing(key), organizationId);
      ok := if reserved.None? then None else Some(reserved == Some(Held));
    }

    /** With the charge held: the request is cancelled, and once it is the charge committed. */
    method CancelAndCommit(u: Unanswerable) returns (closed: Option<bool>)
      requires Valid() && ForClosing(u.request.key) in held
      modifies this`world, this`uncommittedCloses, this`commitsAsked, this`charged, this`commitAnswers, this`cancelsAsked, this`faults
      ensures Valid() && Later(old(world), world) && faults == old(faults) + (if closed.None? then 1 else 0)
      ensures world.cursors == old(world).cursors && cancelsAsked == old(cancelsAsked) + {u.request.key}
      ensures ClosingOnly(old(Heard()), Heard())
      ensures closed == Some(true) ==> u.request.key in world.cancelled && ForClosing(u.request.key) in commitsAsked
      ensures closed == Some(true) ==> Paid(world, ForClosing(u.request.key)) || u.request.key in uncommittedCloses
      ensures closed != Some(true) ==> uncommittedCloses == old(uncommittedCloses)
    {
      var cancelled := CancelRequest(u.request.key);
      if !cancelled { return Some(false); }
      ghost var was := world;
      var committed := CommitCharge(ForClosing(u.request.key));
      LaterTransitive(old(world), was, world);
      if committed.None? { return None; }
      if committed != Some(Charged) { uncommittedCloses := uncommittedCloses[u.request.key := u.organizationId]; }
      closed := Some(true);
    }

    // ----- passes -----

    /** One pass; whatever throws ends it. Unless something did, it did everything `RunReceipts` does, and then closed what it has to. */
    method RunOnce(inputs: Inputs) returns (ghost trail: Trail)
      requires Valid() && Honest(facts, settings, inputs)
      modifies this
      ensures Valid() && Later(old(world), world) && old(faults) <= faults <= old(faults) + 1
      ensures faults == old(faults) ==>
        PassDone(facts, settings, inputs, old(world).cursors, trail, world, Heard()) && unwritten == old(unwritten) + (if trail.cut then 1 else 0)
      // Outside customers mode nobody pays, and nothing is closed.
      ensures faults == old(faults) && settings.maxPerOrganization.None? ==> holdsAsked == {} && cancelsAsked == {} && uncommittedCloses == old(uncommittedCloses)
      ensures faults == old(faults) && settings.maxPerOrganization.Some? ==>
        forall u :: u in trail.unanswerable ==> KeyAsked(trail.unanswerable, u.request.key, holdsAsked, answers, cancelsAsked)
    {
      Begin();
      var threw, recorded, unanswerable;
      threw, recorded, unanswerable, trail := RunReceipts(inputs);
      if threw || settings.maxPerOrganization.None? { return; }
      ghost var was := world;
      threw := CloseAfter(inputs, old(world).cursors, trail, unanswerable);
      LaterTransitive(old(world), was, world);
    }

    /** A pass begins with nothing held, asked for or heard. */
    ghost method Begin()
      requires Valid()
      modifies this`held, this`holdsAsked, this`answers, this`commitsAsked, this`charged, this`commitAnswers, this`cancelsAsked
      ensures Valid() && held == {} && Heard() == RelayRules.Heard({}, map[], {}, {}) && commitAnswers == map[] && cancelsAsked == {}
    {
      held, holdsAsked, answers, commitsAsked, charged, commitAnswers, cancelsAsked := {}, {}, map[], {}, {}, map[], {};
    }

    /** Closing what is never answered takes nothing back. */
    method CloseAfter(inputs: Inputs, ghost cursors: map<string, int>, ghost trail: Trail, unanswerable: seq<Unanswerable>) returns (threw: bool)
      requires Valid() && PassDone(facts, settings, inputs, cursors, trail, world, Heard()) && trail.unanswerable == unanswerable
      modifies this`world, this`held, this`uncommittedCloses, this`holdsAsked, this`answers, this`commitsAsked, this`charged, this`commitAnswers, this`cancelsAsked, this`faults
      ensures Valid() && Later(old(world), world) && faults == old(faults) + (if threw then 1 else 0)
      ensures PassDone(facts, settings, inputs, cursors, trail, world, Heard())
      ensures !threw ==> forall u :: u in trail.unanswerable ==> KeyAsked(trail.unanswerable, u.request.key, holdsAsked, answers, cancelsAsked)
    {
      ghost var was, heard := world, Heard();
      var closed;
      ghost var keys;
      threw, closed, keys := CloseUnanswerable(unanswerable);
      PassStaysDone(facts, settings, inputs, cursors, trail, was, world, heard, Heard());
    }

    /**
     Any number of passes, with a restart before any of them: what is committed has its receipt on chain or its request
     cancelled, credits spent are the committed subjects, every owed transfer a saved cursor has passed is paid for,
     released for good, or listed as what is no receipt, no cursor went back, and every customer receipt that was sent had its charge held in its pass.
     */
    method RunPasses(passes: seq<Inputs>)
      requires Valid() && forall inputs :: inputs in passes ==> Honest(facts, settings, inputs)
      modifies this
      ensures Valid() && Later(old(world), world)
    {
      for i := 0 to |passes|
        invariant Valid() && Later(old(world), world)
      {
        var restarts: bool := *;
        if restarts { uncommittedCloses := map[]; }
        ghost var was := world;
        ghost var trail := RunOnce(passes[i]);
        LaterTransitive(old(world), was, world);
      }
    }
  }
}
