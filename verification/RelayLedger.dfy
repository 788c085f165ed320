/**
 What outlives a pass of the relay (packages/cre/relay/relay.ts): the website's ledger, the
 contract, and the saved listing cursors; and what every step, the relay's or anybody
 else's, keeps about them.
 */
module RelayLedger {
  import opened Basics
  import opened StableSort
  import opened Customers
  import opened Receipts

  datatype World = World(
    ledger: map<ChargeSubject, Operation>,
    spent: nat,                        // credits taken
    receipts: set<Receipt>,            // on chain
    jobs: set<Entry>,                  // job results on chain
    cancelled: set<string>,            // requests cancelled on chain
    cursors: map<string, int>)         // saved listing cursors, by organization

  predicate Paid(w: World, c: ChargeSubject) { c in w.ledger && w.ledger[c].Committed? }

  /** Released for good: no commit settles it any more. */
  predicate LetGo(w: World, c: ChargeSubject) { c in w.ledger && !w.ledger[c].Committed? && !Commits(w.ledger[c]) }

  function PaidSubjects(w: World): set<ChargeSubject> {
    set c | c in w.ledger && w.ledger[c].Committed?
  }

  /** What a charge pays for has happened. */
  predicate Earned(w: World, c: ChargeSubject) {
    match c
    case ForReceipt(receipt) => receipt in w.receipts
    case ForClosing(key) => key in w.cancelled
  }

  /** Nothing is paid that did not happen, every payment takes one credit, and a job result comes with its two receipts. */
  ghost predicate Sound(w: World) {
    && (forall c :: Paid(w, c) ==> Earned(w, c))
    && w.spent == |PaidSubjects(w)|
    && (forall job :: job in w.jobs ==> job.JobEntry? && RoomReceipt(job.input) in w.receipts && RoomReceipt(job.output) in w.receipts)
  }

  /** What is never undone. */
  predicate Later(w: World, w': World) {
    && (forall c | c in w.ledger && Paid(w, c) :: Paid(w', c))
    && (forall c | c in w.ledger && LetGo(w, c) :: LetGo(w', c))
    && w.receipts <= w'.receipts && w.jobs <= w'.jobs && w.cancelled <= w'.cancelled
    && (forall org | org in w.cursors :: org in w'.cursors && w.cursors[org] <= w'.cursors[org])
  }

  lemma LaterTransitive(a: World, b: World, c: World)
    requires Later(a, b) && Later(b, c)
    ensures Later(a, c)
  {
  }

  /** What others may do meanwhile: hold and release charges, record receipts, cancel requests; only the relay commits. */
  predicate Elsewhere(w: World, w': World) {
    && Later(w, w')
    && (forall c | c in w'.ledger && Paid(w', c) :: Paid(w, c))
    && w'.spent == w.spent && w'.jobs == w.jobs && w'.cursors == w.cursors
  }

  lemma ElsewhereKeepsSound(w: World, w': World)
    requires Sound(w) && Elsewhere(w, w')
    ensures Sound(w')
  {
    assert PaidSubjects(w') == PaidSubjects(w) by {
      assert forall c :: c in PaidSubjects(w') <==> Paid(w', c);
      assert forall c :: c in PaidSubjects(w) <==> Paid(w, c);
    }
  }

  // ----- the effects of the relay's own calls -----

  function Hold(w: World, c: ChargeSubject): World {
    if Paid(w, c) || LetGo(w, c) then w else w.(ledger := w.ledger[c := Reserved])
  }

  function Commit(w: World, c: ChargeSubject): World {
    if c in w.ledger && Commits(w.ledger[c]) then w.(ledger := w.ledger[c := Committed], spent := w.spent + 1) else w
  }

  function ReceiptsOf(entries: seq<Entry>): set<Receipt> {
    set e | e in entries && ReceiptOf(e).Some? :: ReceiptOf(e).value
  }

  /** `onReport`: a report is recorded as a whole; what the contract already holds is skipped. */
  function Record(w: World, entries: seq<Entry>): World {
    w.(receipts := w.receipts + ReceiptsOf(entries), jobs := w.jobs + set e | e in entries && e.JobEntry?)
  }

  /** Every job result in a report has its receipts in the report, or on chain. */
  ghost predicate JobsCovered(w: World, entries: seq<Entry>) {
    forall e :: e in entries && e.JobEntry? ==>
      (RoomReceipt(e.input) in w.receipts + ReceiptsOf(entries)) && (RoomReceipt(e.output) in w.receipts + ReceiptsOf(entries))
  }

  lemma HoldKeepsSound(w: World, c: ChargeSubject)
    requires Sound(w)
    ensures Sound(Hold(w, c)) && Later(w, Hold(w, c))
    ensures Paid(Hold(w, c), c) || LetGo(Hold(w, c), c) || Commits(Hold(w, c).ledger[c])
  {
    var w' := Hold(w, c);
    assert PaidSubjects(w') == PaidSubjects(w);
    assert forall d :: Paid(w', d) <==> Paid(w, d);
  }

  /** A commit takes one credit exactly when it settles a hold, and it settles each subject once. */
  lemma CommitKeepsSound(w: World, c: ChargeSubject)
    requires Sound(w) && Earned(w, c)
    ensures Sound(Commit(w, c)) && Later(w, Commit(w, c))
    ensures Commit(Commit(w, c), c) == Commit(w, c)
    ensures Commit(w, c).spent == w.spent + (if !Paid(w, c) && Paid(Commit(w, c), c) then 1 else 0)
  {
    var w' := Commit(w, c);
    if w' != w {
      assert PaidSubjects(w') == PaidSubjects(w) + {c};
      assert c !in PaidSubjects(w);
      forall d | Paid(w', d) ensures Earned(w', d) { assert d == c || Paid(w, d); }
    }
  }

  lemma RecordKeepsSound(w: World, entries: seq<Entry>)
    requires Sound(w) && JobsCovered(w, entries)
    ensures Sound(Record(w, entries)) && Later(w, Record(w, entries))
  {
    assert PaidSubjects(Record(w, entries)) == PaidSubjects(w);
    assert forall c :: Paid(Record(w, entries), c) ==> Paid(w, c);
  }

  lemma CancelKeepsSound(w: World, key: string)
    requires Sound(w)
    ensures Sound(w.(cancelled := w.cancelled + {key})) && Later(w, w.(cancelled := w.cancelled + {key}))
  {
    var w' := w.(cancelled := w.cancelled + {key});
    assert PaidSubjects(w') == PaidSubjects(w);
    assert forall c :: Paid(w', c) ==> Paid(w, c);
  }

  // ----- listings and their cursors -----

  /** A finished transfer as its organization's listing shows it. */
  datatype Row = Row(id: string, createdAt: int, completedAt: int, observation: Observation)

  /** Every transfer an organization finishes at some time, and whether it owes a receipt for it. */
  datatype Facts = Facts(rows: string -> iset<Row>, owes: (string, Row) -> bool)

  datatype ListedRow = ListedRow(row: Row, owed: bool)
  datatype Listing = Listing(org: string, cursor: int, transfers: seq<ListedRow>)

  /** A finished transfer whose record is no receipt, and will not become one. */
  predicate NeverAReceipt(row: Row) {
    !row.observation.Absent? && !row.observation.Unfinished? && !row.observation.SawTransfer?
  }

  ghost predicate Unrecordable(facts: Facts, id: string) {
    exists org, row :: row in facts.rows(org) && row.id == id && NeverAReceipt(row)
  }

  /** Done with: its charge is paid or released for good, or its listed record can never make a receipt. */
  ghost predicate TransferSettled(facts: Facts, w: World, id: string) {
    var c := ForReceipt(TransferReceipt(id));
    Paid(w, c) || LetGo(w, c) || Unrecordable(facts, id)
  }

  ghost predicate Owed(facts: Facts, org: string, row: Row) { row in facts.rows(org) && facts.owes(org, row) }

  /** Every owed transfer finished at or before the cursor is settled. */
  ghost predicate NothingSkipped(facts: Facts, w: World, org: string, cursor: int) {
    forall row :: Owed(facts, org, row) && row.completedAt <= cursor ==> TransferSettled(facts, w, row.id)
  }

  ghost predicate CursorsSafe(facts: Facts, w: World) {
    forall org :: org in w.cursors ==> NothingSkipped(facts, w, org, w.cursors[org])
  }

  lemma SettledStays(facts: Facts, w: World, w': World, id: string)
    requires Later(w, w') && TransferSettled(facts, w, id)
    ensures TransferSettled(facts, w', id)
  {
  }

  lemma CursorsStaySafe(facts: Facts, w: World, w': World)
    requires Later(w, w') && CursorsSafe(facts, w) && w'.cursors == w.cursors
    ensures CursorsSafe(facts, w')
  {
    forall org, row | org in w'.cursors && Owed(facts, org, row) && row.completedAt <= w'.cursors[org] ensures TransferSettled(facts, w', row.id) {
      assert NothingSkipped(facts, w, org, w.cursors[org]);
      SettledStays(facts, w, w', row.id);
    }
  }

  /** The listing of a cursor holds what finished after it, and misses nothing up to its newest row. */
  ghost predicate CompleteAnswer(facts: Facts, org: string, cursor: int, answer: seq<Row>) {
    && (forall row :: row in answer ==> row in facts.rows(org) && row.completedAt > cursor)
    && (forall row: Row, newest: Row :: row in facts.rows(org) && cursor < row.completedAt <= newest.completedAt && newest in answer ==> row in answer)
  }

  function ByCompletion(): Order<Row> { (a: Row, b: Row) => a.completedAt < b.completedAt }

  /** No two equal completion times fall on both sides of the cut. */
  predicate ClearCut(sorted: seq<Row>, max: nat) {
    |sorted| <= max || max == 0 || sorted[max - 1].completedAt < sorted[max].completedAt
  }

  function Cut(answer: seq<Row>, max: nat): seq<Row> {
    var sorted := Sort(ByCompletion(), answer);
    if |sorted| <= max then sorted else sorted[..max]
  }

  function Marked(rows: seq<Row>, periods: seq<Period>): seq<ListedRow> {
    if rows == [] then [] else [ListedRow(rows[0], CreatedDuringPeriods(rows[0].createdAt, periods))] + Marked(rows[1..], periods)
  }

  lemma {:induction false} MarkedMeaning(rows: seq<Row>, periods: seq<Period>)
    ensures forall t :: t in Marked(rows, periods) ==> t.row in rows && t.owed == CreatedDuringPeriods(t.row.createdAt, periods)
    ensures forall row :: row in rows ==> ListedRow(row, CreatedDuringPeriods(row.createdAt, periods)) in Marked(rows, periods)
  {
    if rows != [] { MarkedMeaning(rows[1..], periods); }
  }

  /** The cut of an answer misses nothing up to its own newest row either. */
  lemma CutIsComplete(facts: Facts, org: string, cursor: int, answer: seq<Row>, max: nat)
    requires CompleteAnswer(facts, org, cursor, answer) && ClearCut(Sort(ByCompletion(), answer), max)
    ensures CompleteAnswer(facts, org, cursor, Cut(answer, max))
  {
    var sorted, cut := Sort(ByCompletion(), answer), Cut(answer, max);
    SortMeaning(ByCompletion(), answer);
    forall row ensures row in sorted <==> row in answer { SortKeeps(ByCompletion(), answer, row); }
    forall row: Row, newest: Row | row in facts.rows(org) && cursor < row.completedAt <= newest.completedAt && newest in cut ensures row in cut {
      assert newest in sorted;
      assert row in sorted;
      InTheCut(sorted, max, cut, row, newest);
    }
  }

  /** The cut holds rows of the answer, as many as allowed, and none of them finished after one that was cut off. */
  lemma CutIsTheOldest(answer: seq<Row>, max: nat)
    ensures |Cut(answer, max)| == (if |answer| <= max then |answer| else max)
    ensures multiset(Cut(answer, max)) <= multiset(answer)
    ensures forall kept: Row, gone: Row :: kept in Cut(answer, max) && gone in answer && gone !in Cut(answer, max) ==> kept.completedAt <= gone.completedAt
  {
    var sorted, cut := Sort(ByCompletion(), answer), Cut(answer, max);
    SortMeaning(ByCompletion(), answer);
    assert |sorted| == |multiset(sorted)| == |multiset(answer)| == |answer|;
    assert sorted == cut + sorted[|cut|..];
    forall kept: Row, gone: Row | kept in cut && gone in answer && gone !in cut ensures kept.completedAt <= gone.completedAt {
      assert gone in multiset(sorted);
      var i :| 0 <= i < |cut| && cut[i] == kept;
      var j :| 0 <= j < |sorted| && sorted[j] == gone;
      assert j >= |cut|;
      TimesGoUp(sorted, i, j);
    }
  }

  lemma InTheCut(sorted: seq<Row>, max: nat, cut: seq<Row>, row: Row, newest: Row)
    requires Sorted(ByCompletion(), sorted) && ClearCut(sorted, max) && cut == if |sorted| <= max then sorted else sorted[..max]
    requires row in sorted && newest in cut && row.completedAt <= newest.completedAt
    ensures row in cut
  {
    var i :| 0 <= i < |sorted| && sorted[i] == row;
    var j :| 0 <= j < |cut| && cut[j] == newest;
    var last := |cut| - 1;
    TimesGoUp(sorted, j, last);
    TimesGoUp(sorted, if last < i then last + 1 else i, i);
    assert i <= last;
    assert cut[i] == row;
  }

  lemma TimesGoUp(sorted: seq<Row>, i: nat, j: nat)
    requires Sorted(ByCompletion(), sorted) && i <= j < |sorted|
    ensures sorted[i].completedAt <= sorted[j].completedAt
  {
    assert i < j ==> !ByCompletion()(sorted[j], sorted[i]);
  }

  /** The registry's periods say what each transfer of the organization owes, and nothing finishes before it is created. */
  ghost predicate Agrees(facts: Facts, org: string, periods: seq<Period>) {
    forall row :: row in facts.rows(org) ==>
      row.createdAt <= row.completedAt && (facts.owes(org, row) <==> CreatedDuringPeriods(row.createdAt, periods))
  }

  lemma InitialCursorSkipsNothing(facts: Facts, w: World, org: string, periods: seq<Period>)
    requires Agrees(facts, org, periods) && periods != []
    ensures NothingSkipped(facts, w, org, InitialTransferCursor(periods))
  {
    forall row | Owed(facts, org, row) ensures row.completedAt > InitialTransferCursor(periods) {
      InitialCursorMissesNothing(periods, row.createdAt, row.completedAt);
    }
  }

  ghost predicate CompleteListing(facts: Facts, listing: Listing) {
    forall row, newest :: Owed(facts, listing.org, row) && newest in listing.transfers ==>
      (listing.cursor < row.completedAt <= newest.row.completedAt ==> ListedRow(row, true) in listing.transfers)
  }

  lemma MarkedIsComplete(facts: Facts, org: string, cursor: int, rows: seq<Row>, periods: seq<Period>)
    requires CompleteAnswer(facts, org, cursor, rows) && Agrees(facts, org, periods)
    ensures CompleteListing(facts, Listing(org, cursor, Marked(rows, periods)))
  {
    MarkedMeaning(rows, periods);
  }

  function ProgressOf(transfers: seq<ListedRow>, settled: set<Key>): seq<Progress> {
    if transfers == [] then []
    else
      [Progress(transfers[0].row.completedAt, !transfers[0].owed || ByTransfer(transfers[0].row.id) in settled)]
      + ProgressOf(transfers[1..], settled)
  }

  lemma {:induction false} ProgressOn(transfers: seq<ListedRow>, settled: set<Key>, t: ListedRow)
    requires t in transfers
    ensures Progress(t.row.completedAt, !t.owed || ByTransfer(t.row.id) in settled) in ProgressOf(transfers, settled)
  {
    if t != transfers[0] { ProgressOn(transfers[1..], settled, t); }
  }

  lemma {:induction false} ProgressFrom(transfers: seq<ListedRow>, settled: set<Key>, p: Progress) returns (t: ListedRow)
    requires p in ProgressOf(transfers, settled)
    ensures t in transfers && t.row.completedAt == p.completedAt && (p.done <==> !t.owed || ByTransfer(t.row.id) in settled)
  {
    if p == ProgressOf(transfers, settled)[0] { t := transfers[0]; } else { t := ProgressFrom(transfers[1..], settled, p); }
  }

  ghost predicate SettledSound(facts: Facts, w: World, settled: set<Key>) {
    forall id :: ByTransfer(id) in settled ==> TransferSettled(facts, w, id)
  }

  /** Moving a listing's cursor skips no owed transfer, and never goes back. */
  lemma MovedCursorSkipsNothing(facts: Facts, w: World, listing: Listing, settled: set<Key>)
    requires NothingSkipped(facts, w, listing.org, listing.cursor) && CompleteListing(facts, listing) && SettledSound(facts, w, settled)
    ensures var next := NextTransferCursor(listing.cursor, ProgressOf(listing.transfers, settled));
            next >= listing.cursor && NothingSkipped(facts, w, listing.org, next)
  {
    var progress := ProgressOf(listing.transfers, settled);
    var next := NextTransferCursor(listing.cursor, progress);
    NextCursorIsFurthest(listing.cursor, progress, next);
    forall row | Owed(facts, listing.org, row) && row.completedAt <= next ensures TransferSettled(facts, w, row.id) {
      if row.completedAt > listing.cursor { PassedRowIsSettled(facts, w, listing, settled, next, row); }
    }
  }

  /** Where a listing may move on to: not back, past no owed row that is unsettled, and not past its newest row. */
  ghost predicate MayMoveTo(listing: Listing, settled: set<Key>, next: int) {
    && next >= listing.cursor
    && (forall t :: t in listing.transfers && t.owed && ByTransfer(t.row.id) !in settled && t.row.completedAt > listing.cursor ==> next < t.row.completedAt)
    && (next == listing.cursor || exists t :: t in listing.transfers && next <= t.row.completedAt)
  }

  lemma MayMoveIffJustified(listing: Listing, settled: set<Key>, next: int)
    ensures MayMoveTo(listing, settled, next) <==> Justified(listing.cursor, ProgressOf(listing.transfers, settled), next)
  {
    var progress := ProgressOf(listing.transfers, settled);
    if Justified(listing.cursor, progress, next) {
      forall t | t in listing.transfers && t.owed && ByTransfer(t.row.id) !in settled && t.row.completedAt > listing.cursor ensures next < t.row.completedAt {
        ProgressOn(listing.transfers, settled, t);
      }
      if next != listing.cursor {
        var p :| p in progress && next <= p.completedAt;
        var t := ProgressFrom(listing.transfers, settled, p);
      }
    }
    if MayMoveTo(listing, settled, next) {
      forall p | p in progress && !p.done && p.completedAt > listing.cursor ensures next < p.completedAt {
        var t := ProgressFrom(listing.transfers, settled, p);
      }
      if next != listing.cursor {
        var t :| t in listing.transfers && next <= t.row.completedAt;
        ProgressOn(listing.transfers, settled, t);
      }
    }
  }

  /** The cursor of a listing moves as far as it may. */
  lemma MovesAsFarAsItMay(listing: Listing, settled: set<Key>, other: int)
    requires forall t :: t in listing.transfers ==> t.row.completedAt > listing.cursor
    ensures MayMoveTo(listing, settled, NextTransferCursor(listing.cursor, ProgressOf(listing.transfers, settled)))
    ensures MayMoveTo(listing, settled, other) ==> other <= NextTransferCursor(listing.cursor, ProgressOf(listing.transfers, settled))
  {
    var progress := ProgressOf(listing.transfers, settled);
    MayMoveIffJustified(listing, settled, NextTransferCursor(listing.cursor, progress));
    MayMoveIffJustified(listing, settled, other);
    NextCursorIsFurthest(listing.cursor, progress, other);
    forall p | p in progress && !p.done ensures p.completedAt > listing.cursor { var t := ProgressFrom(listing.transfers, settled, p); }
  }

  lemma PassedRowIsSettled(facts: Facts, w: World, listing: Listing, settled: set<Key>, next: int, row: Row)
    requires CompleteListing(facts, listing) && SettledSound(facts, w, settled)
    requires Justified(listing.cursor, ProgressOf(listing.transfers, settled), next)
    requires Owed(facts, listing.org, row) && listing.cursor < row.completedAt <= next
    ensures TransferSettled(facts, w, row.id)
  {
    var progress := ProgressOf(listing.transfers, settled);
    var p :| p in progress && next <= p.completedAt;
    var newest := ProgressFrom(listing.transfers, settled, p);
    assert ListedRow(row, true) in listing.transfers;
    ProgressOn(listing.transfers, settled, ListedRow(row, true));
  }
}
