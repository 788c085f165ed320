/** The pure rules of customers mode (packages/cre/relay/customers.ts). Times are milliseconds. */
module Customers {
  import opened Basics

  /** A time the "every transfer" switch was on. */
  datatype Period = Period(startedAt: int, endedAt: Option<int>)

  const TRAILING_LISTING_MS: int := 7 * 24 * 60 * 60 * 1000

  predicate Covers(period: Period, at: int) {
    at >= period.startedAt && (period.endedAt.None? || at < period.endedAt.value)
  }

  predicate CreatedDuringPeriods(createdAt: int, periods: seq<Period>) {
    exists k :: 0 <= k < |periods| && Covers(periods[k], createdAt)
  }

  /** The switch is on, or went off lately. */
  predicate ListsTransfers(periods: seq<Period>, now: int) {
    exists k :: 0 <= k < |periods| && (periods[k].endedAt.None? || now - periods[k].endedAt.value < TRAILING_LISTING_MS)
  }

  function Min(times: seq<int>): int
    requires times != []
  {
    if |times| == 1 then times[0] else var m := Min(times[1..]); if times[0] < m then times[0] else m
  }

  function Max(times: seq<int>): int
    requires times != []
  {
    if |times| == 1 then times[0] else var m := Max(times[1..]); if times[0] > m then times[0] else m
  }

  lemma {:induction false} MinMeaning(times: seq<int>)
    requires times != []
    ensures Min(times) in times && forall t :: t in times ==> Min(times) <= t
  {
    if |times| > 1 {
      MinMeaning(times[1..]);
      assert times == [times[0]] + times[1..];
    }
  }

  lemma {:induction false} MaxMeaning(times: seq<int>)
    requires times != []
    ensures Max(times) in times && forall t :: t in times ==> t <= Max(times)
  {
    if |times| > 1 {
      MaxMeaning(times[1..]);
      assert times == [times[0]] + times[1..];
    }
  }

  function Starts(periods: seq<Period>): seq<int> {
    if periods == [] then [] else [periods[0].startedAt] + Starts(periods[1..])
  }

  lemma {:induction false} StartsAt(periods: seq<Period>)
    ensures |Starts(periods)| == |periods| && forall k :: 0 <= k < |periods| ==> Starts(periods)[k] == periods[k].startedAt
  {
    if periods != [] { StartsAt(periods[1..]); }
  }

  /** Just before the first period. */
  function InitialTransferCursor(periods: seq<Period>): int
    requires periods != []
  {
    StartsAt(periods);
    Min(Starts(periods)) - 1
  }

  /** Nothing that finished at or before the initial cursor is owed, and no later cursor has that property for all transfers. */
  lemma InitialCursorMissesNothing(periods: seq<Period>, createdAt: int, completedAt: int)
    requires periods != [] && createdAt <= completedAt
    ensures completedAt <= InitialTransferCursor(periods) ==> !CreatedDuringPeriods(createdAt, periods)
    ensures (forall k :: 0 <= k < |periods| ==> periods[k].endedAt.None? || periods[k].endedAt.value > periods[k].startedAt) ==>
      CreatedDuringPeriods(InitialTransferCursor(periods) + 1, periods)
  {
    StartsAt(periods);
    MinMeaning(Starts(periods));
    var k :| 0 <= k < |periods| && Starts(periods)[k] == Min(Starts(periods));
    forall j | 0 <= j < |periods| ensures periods[j].startedAt > InitialTransferCursor(periods) {
      assert Starts(periods)[j] in Starts(periods);
    }
    if periods[k].endedAt.None? || periods[k].endedAt.value > periods[k].startedAt {
      assert Covers(periods[k], InitialTransferCursor(periods) + 1);
    }
  }

  /** A listed transfer, and whether it is done with. */
  datatype Progress = Progress(completedAt: int, done: bool)

  function Pending(listed: seq<Progress>): seq<int> {
    if listed == [] then [] else (if listed[0].done then [] else [listed[0].completedAt]) + Pending(listed[1..])
  }

  function Times(listed: seq<Progress>): seq<int> {
    if listed == [] then [] else [listed[0].completedAt] + Times(listed[1..])
  }

  lemma {:induction false} PendingMeaning(listed: seq<Progress>)
    ensures forall t :: t in Pending(listed) <==> exists p :: p in listed && !p.done && p.completedAt == t
    ensures Pending(listed) == [] ==> forall p :: p in listed ==> p.done
  {
    if listed != [] {
      PendingMeaning(listed[1..]);
      assert listed == [listed[0]] + listed[1..];
    }
  }

  lemma {:induction false} TimesMeaning(listed: seq<Progress>)
    ensures forall t :: t in Times(listed) <==> exists p :: p in listed && p.completedAt == t
    ensures listed != [] ==> Times(listed) != []
  {
    if listed != [] {
      TimesMeaning(listed[1..]);
      assert listed == [listed[0]] + listed[1..];
    }
  }

  function Larger(a: int, b: int): int { if a > b then a else b }

  /** nextTransferCursor: just before the oldest pending transfer, or at the newest when none is pending. */
  function NextTransferCursor(cursor: int, listed: seq<Progress>): int {
    if Pending(listed) != [] then Larger(cursor, Min(Pending(listed)) - 1)
    else if Times(listed) != [] then Larger(cursor, Max(Times(listed)))
    else cursor
  }

  /** A cursor that a listing justifies: it passes no pending transfer, and nothing newer than the newest one listed. */
  ghost predicate Justified(cursor: int, listed: seq<Progress>, next: int) {
    && next >= cursor
    && (forall p :: p in listed && !p.done && p.completedAt > cursor ==> next < p.completedAt)
    && (next == cursor || exists p :: p in listed && next <= p.completedAt)
  }

  /** The next cursor is justified, and the furthest such one unless something pending is at or behind the cursor. */
  lemma NextCursorIsFurthest(cursor: int, listed: seq<Progress>, other: int)
    ensures Justified(cursor, listed, NextTransferCursor(cursor, listed))
    ensures Justified(cursor, listed, other) && (forall p :: p in listed && !p.done ==> p.completedAt > cursor) ==>
      other <= NextTransferCursor(cursor, listed)
  {
    PendingMeaning(listed);
    TimesMeaning(listed);
    var next := NextTransferCursor(cursor, listed);
    if Pending(listed) != [] {
      MinMeaning(Pending(listed));
      var p :| p in listed && !p.done && p.completedAt == Min(Pending(listed));
      forall q | q in listed && !q.done && q.completedAt > cursor ensures next < q.completedAt { assert q.completedAt in Pending(listed); }
    } else if Times(listed) != [] {
      MaxMeaning(Times(listed));
      forall q | q in listed ensures q.completedAt <= Max(Times(listed)) { assert q.completedAt in Times(listed); }
    }
  }

  // ----- charges -----

  datatype ChargeOutcome = Held | Charged | Released | Refused(status: int) | Unavailable(status: int)

  /** The website's operation for a charge. */
  datatype Operation = Reserved | Committed | Canceled(expired: bool) | Failed(expired: bool) | OtherStatus

  /** What the website's answer means to the relay; None is a body without an operation. */
  function ProjectCharge(status: int, operation: Option<Operation>): ChargeOutcome {
    if status >= 500 || status == 0 then Unavailable(status)
    else if status != 200 then Refused(status)
    else
      match operation
      case Some(Reserved) => Held
      case Some(Committed) => Charged
      case Some(Canceled(expired)) => if expired then Held else Released
      case Some(Failed(expired)) => if expired then Held else Released
      case _ => Released
  }

  /** Whether a commit would still settle the operation: an expired hold counts. */
  predicate Commits(operation: Operation) {
    operation.Reserved? || (operation.Canceled? && operation.expired) || (operation.Failed? && operation.expired)
  }

  /**
   Held means exactly that a commit settles it, charged exactly that one did, and only an HTTP 200 says either. Released
   also stands for a 200 without a readable operation, which is no release.
   */
  lemma OutcomesMeanWhatTheySay(status: int, operation: Option<Operation>)
    ensures var outcome := ProjectCharge(status, operation);
            && (outcome.Held? <==> status == 200 && operation.Some? && Commits(operation.value))
            && (outcome.Charged? <==> status == 200 && operation == Some(Committed))
            && (outcome.Released? <==> status == 200 && (operation.None? || (!operation.value.Committed? && !Commits(operation.value))))
            && (outcome.Unavailable? || outcome.Refused? <==> status != 200)
  {
  }
}
