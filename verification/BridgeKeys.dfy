/** When a batch key of the Room bridge names one attestation, and what a batch asks for when it does not. */
module BridgeKeys {
  import opened Basics
  import opened StableSort
  import opened Bridge
  import opened BridgeBatches

  // ----- what may be asked -----

  /** What the operator lets Room members ask about (AttestationPolicy, packages/cre/bridge/webhook.ts). */
  datatype Policy = Policy(rooms: map<string, set<string>>, allowTransferAttestations: bool)

  const PUBLICATION_PREFIX: string := "btr_pub_"

  predicate IsBase32(c: char) { 'a' <= c <= 'z' || '2' <= c <= '7' }

  predicate IsPublicationId(id: string) {
    |id| == 34 && id[..8] == PUBLICATION_PREFIX && forall i :: 8 <= i < 34 ==> IsBase32(id[i])
  }

  predicate Configured(policy: Policy, room: string, channel: string) {
    room in policy.rooms && channel in policy.rooms[room]
  }

  /** `parseRoomRequest` makes an attestation of a message only then. */
  predicate Allowed(policy: Policy, a: Attestation) {
    match a
    case Transfer(_) => policy.allowTransferAttestations
    case Publication(room, channel, publication) => Configured(policy, room, channel) && IsPublicationId(publication)
  }

  lemma PublicationIdsHoldNoSlash(id: string)
    requires IsPublicationId(id)
    ensures Without('/', id)
  {
    forall i | 0 <= i < |id| ensures id[i] != '/' {
      assert i < 8 ==> id[i] == PUBLICATION_PREFIX[i];
    }
  }

  // ----- when two attestations share a key -----

  /** The part of a publication's key that its Room chooses. */
  function Path(room: string, channel: string): string { room + "/" + channel }

  ghost predicate SamePath(a: Attestation, b: Attestation) {
    a.Publication? && b.Publication? && a.publication == b.publication && Path(a.room, a.channel) == Path(b.room, b.channel)
  }

  lemma KindsDiffer(a: Attestation, b: Attestation)
    requires Describe(a) == Describe(b)
    ensures a.Transfer? <==> b.Transfer?
    ensures a.Transfer? ==> a == b
    ensures a.Publication? ==> Path(a.room, a.channel) + "/" + a.publication == Path(b.room, b.channel) + "/" + b.publication
  {
    assert Describe(a)[0] == (if a.Transfer? then 't' else 'p');
    assert Describe(b)[0] == (if b.Transfer? then 't' else 'p');
    if a.Transfer? {
      assert Describe(a)[9..] == a.transferId && Describe(b)[9..] == b.transferId;
    } else {
      assert Describe(a)[12..] == Path(a.room, a.channel) + "/" + a.publication;
      assert Describe(b)[12..] == Path(b.room, b.channel) + "/" + b.publication;
    }
  }

  lemma PathMakesKey(a: Attestation)
    requires a.Publication?
    ensures Describe(a) == "publication " + (Path(a.room, a.channel) + "/" + a.publication)
  {
  }

  /** Two attestations share a key exactly when they are one, or name one publication by Rooms and channels that join to one path. */
  lemma KeysAgreeIff(a: Attestation, b: Attestation)
    requires a.Publication? ==> Without('/', a.publication)
    requires b.Publication? ==> Without('/', b.publication)
    ensures Describe(a) == Describe(b) <==> a == b || SamePath(a, b)
  {
    if Describe(a) == Describe(b) {
      KindsDiffer(a, b);
      if a.Publication? {
        SplitAtLast('/', Path(a.room, a.channel), a.publication, Path(b.room, b.channel), b.publication);
      }
    } else if SamePath(a, b) {
      PathMakesKey(a);
      PathMakesKey(b);
    }
  }

  /** No two configured pairs of a Room and a channel join to one path, as an operator can check. */
  ghost predicate PathsDiffer(policy: Policy) {
    forall room, channel, room', channel' ::
      Configured(policy, room, channel) && Configured(policy, room', channel') && Path(room, channel) == Path(room', channel') ==>
        room == room' && channel == channel'
  }

  ghost predicate KeysDiffer(policy: Policy) {
    forall a, b :: Allowed(policy, a) && Allowed(policy, b) && Describe(a) == Describe(b) ==> a == b
  }

  function SomePublicationId(): string { PUBLICATION_PREFIX + "aaaaaaaaaaaaaaaaaaaaaaaaaa" }

  /** Two configured pairs with one path: the same publication of both has one key. */
  lemma PathsMeet(policy: Policy) returns (a: Attestation, b: Attestation)
    requires !PathsDiffer(policy)
    ensures a != b && Allowed(policy, a) && Allowed(policy, b) && Describe(a) == Describe(b)
  {
    var room, channel, room', channel' :|
      Configured(policy, room, channel) && Configured(policy, room', channel') && Path(room, channel) == Path(room', channel')
      && !(room == room' && channel == channel');
    a, b := Publication(room, channel, SomePublicationId()), Publication(room', channel', SomePublicationId());
    assert IsPublicationId(SomePublicationId()) && SamePath(a, b);
    PathMakesKey(a);
    PathMakesKey(b);
  }

  /** So keys name one attestation each, of those a policy allows, exactly when its paths differ. */
  lemma KeysDifferIff(policy: Policy)
    ensures KeysDiffer(policy) <==> PathsDiffer(policy)
  {
    if PathsDiffer(policy) {
      forall a, b | Allowed(policy, a) && Allowed(policy, b) && Describe(a) == Describe(b) ensures a == b {
        if a.Publication? { PublicationIdsHoldNoSlash(a.publication); }
        if b.Publication? { PublicationIdsHoldNoSlash(b.publication); }
        KeysAgreeIff(a, b);
      }
    } else {
      var a, b := PathsMeet(policy);
    }
  }

  /** Paths differ when no configured Room id holds a slash, and then also when only one is configured. */
  lemma PlainRoomsDiffer(policy: Policy)
    requires (forall room :: room in policy.rooms ==> Without('/', room)) || (forall room, room' :: room in policy.rooms && room' in policy.rooms ==> room == room')
    ensures PathsDiffer(policy)
  {
    forall room, channel, room', channel' |
      Configured(policy, room, channel) && Configured(policy, room', channel') && Path(room, channel) == Path(room', channel')
      ensures room == room' && channel == channel'
    {
      if room == room' {
        SeparatorAt('/', room, channel, 0);
        SeparatorAt('/', room', channel', 0);
      } else {
        SplitAtFirst('/', room, channel, room', channel');
      }
    }
  }

  // ----- what a batch asks for -----

  function KeyAt(batch: Batch, i: nat): string
    requires i < |batch.members|
  {
    Describe(batch.members[i].attestation)
  }

  /** Nobody after this member has its key. */
  ghost predicate LastOfKey(batch: Batch, i: nat) {
    i < |batch.members| && forall j :: i < j < |batch.members| ==> KeyAt(batch, j) != KeyAt(batch, i)
  }

  /** The last member of a key decides what the batch asks for under it. */
  ghost predicate LastDecides(batch: Batch) {
    forall i: nat :: LastOfKey(batch, i) ==> KeyAt(batch, i) in batch.attest && batch.attest[KeyAt(batch, i)] == batch.members[i].attestation
  }

  lemma {:induction false} LastMemberDecides(due: seq<Request>, publishOnchain: bool)
    ensures LastDecides(Choose(due, publishOnchain))
  {
    if due != [] {
      var init, last := due[..|due| - 1], due[|due| - 1];
      LastMemberDecides(init, publishOnchain);
      var before, batch := Choose(init, publishOnchain), Choose(due, publishOnchain);
      if batch != before {
        var n := |before.members|;
        assert batch.members[n] == last && batch.members[..n] == before.members;
        forall i: nat | LastOfKey(batch, i)
          ensures KeyAt(batch, i) in batch.attest && batch.attest[KeyAt(batch, i)] == batch.members[i].attestation
        {
          if i < n {
            assert KeyAt(batch, n) != KeyAt(batch, i) && KeyAt(batch, i) == KeyAt(before, i);
            assert forall j :: i < j < n ==> KeyAt(batch, j) == KeyAt(before, j);
            assert LastOfKey(before, i);
          }
        }
      }
    }
  }

  /** A later member with the same key asks about something else, and nobody after it has the key. */
  ghost predicate Overridden(batch: Batch, i: nat)
    requires i < |batch.members|
  {
    exists j :: i < j && LastOfKey(batch, j) && KeyAt(batch, j) == KeyAt(batch, i) && batch.members[j].attestation != batch.members[i].attestation
  }

  ghost predicate AskedFor(batch: Batch, i: nat)
    requires i < |batch.members|
  {
    KeyAt(batch, i) in batch.attest && batch.attest[KeyAt(batch, i)] == batch.members[i].attestation
  }

  lemma {:induction false} SomeoneIsLast(batch: Batch, i: nat) returns (last: nat)
    requires i < |batch.members|
    ensures i <= last && LastOfKey(batch, last) && KeyAt(batch, last) == KeyAt(batch, i)
    decreases |batch.members| - i
  {
    if LastOfKey(batch, i) {
      last := i;
    } else {
      var j :| i < j < |batch.members| && KeyAt(batch, j) == KeyAt(batch, i);
      last := SomeoneIsLast(batch, j);
    }
  }

  /** A member's own attestation is asked for exactly unless a later member with another attestation took its key. */
  lemma AskedForIffNotOverridden(due: seq<Request>, publishOnchain: bool, i: nat)
    requires i < |Choose(due, publishOnchain).members|
    ensures var batch := Choose(due, publishOnchain);
            AskedFor(batch, i) <==> !Overridden(batch, i)
  {
    var batch := Choose(due, publishOnchain);
    LastMemberDecides(due, publishOnchain);
    var last := SomeoneIsLast(batch, i);
  }

  ghost predicate AllAllowed(policy: Policy, due: seq<Request>) {
    forall r :: r in due ==> Allowed(policy, r.attestation)
  }

  ghost predicate AllAskedFor(batch: Batch) {
    forall i: nat :: i < |batch.members| ==> AskedFor(batch, i)
  }

  /** Every batch of requests the policy allows asks for each member's own attestation exactly when the policy's paths differ. */
  lemma MembersAreAskedForIff(policy: Policy, publishOnchain: bool)
    ensures PathsDiffer(policy) <==>
      forall due :: AllAllowed(policy, due) ==> AllAskedFor(Choose(due, publishOnchain))
  {
    KeysDifferIff(policy);
    if PathsDiffer(policy) {
      forall due | AllAllowed(policy, due) ensures AllAskedFor(Choose(due, publishOnchain)) {
        var batch := Choose(due, publishOnchain);
        ChooseMeaning(due, publishOnchain);
        forall i: nat | i < |batch.members| ensures AskedFor(batch, i) {
          var r := batch.members[i];
          assert r in batch.members && r in due;
          assert AskedBy(batch, Describe(r.attestation));
          var other :| other in batch.members && other.attestation == batch.attest[Describe(r.attestation)];
          assert other in due && Describe(other.attestation) == Describe(r.attestation);
        }
      }
    } else {
      var a, b := PathsMeet(policy);
      var x, y := Fresh("x", a, publishOnchain), Fresh("y", b, publishOnchain);
      LaterOneIsAskedFor(x, y);
      assert AllAllowed(policy, [x, y]) && !AskedFor(Choose([x, y], publishOnchain), 0);
    }
  }

  function Fresh(id: string, a: Attestation, publishOnchain: bool): Request {
    Request(id, "", 0, a, publishOnchain, 0, None, None, None)
  }

  // ----- a run in which a request is given up without having been asked about -----

  /** Two requests of a kind whose different attestations share a key. */
  ghost predicate Confused(x: Request, y: Request) {
    && x.attestation != y.attestation && Describe(x.attestation) == Describe(y.attestation)
    && x.publishOnchain == y.publishOnchain
  }

  /** Both become members, and the batch asks for the later one's attestation only. */
  lemma LaterOneIsAskedFor(x: Request, y: Request)
    requires Confused(x, y)
    ensures Choose([x, y], x.publishOnchain) == Batch(map[Describe(y.attestation) := y.attestation], [x, y])
  {
    assert [x, y][..1] == [x] && [x][..0] == [];
    assert Choose([], x.publishOnchain) == Batch(map[], []);
    assert Choose([x], x.publishOnchain) == Batch(map[Describe(x.attestation) := x.attestation], [x]);
    assert map[Describe(x.attestation) := x.attestation][Describe(y.attestation) := y.attestation] == map[Describe(y.attestation) := y.attestation];
  }

  lemma BothAreDue(c: Answers, x: Request, y: Request, now: int)
    requires c.Cre? && now >= 0 && x.receivedAt == y.receivedAt && Due(c, now, x) && Due(c, now, y)
    ensures DueRequests(c, 0, [x, y], now) == [x, y]
  {
    assert [x, y][1..] == [y] && [y][1..] == [];
    assert Sort(ByReceivedAt(), [y]) == [y];
    assert Sort(ByReceivedAt(), [x, y]) == [x, y];
    var unreplied := (r: Request) => r.reply.None?;
    assert Filter([y], unreplied) == [y];
    assert Filter([x, y], unreplied) == [x] + Filter([x, y][1..], unreplied);
    var due := r => Due(c, now, r);
    assert Filter([y], due) == [y];
    assert Filter([x, y], due) == [x] + Filter([x, y][1..], due);
  }

  lemma EachOfTwo(x: Request, y: Request, f: Request -> Request)
    ensures Each([x, y], f) == [f(x), f(y)]
  {
    assert [x, y][1..] == [y] && [y][1..] == [];
    assert Each([y], f) == [f(y)];
  }

  lemma PumpOfTwo(c: Answers, x: Request, y: Request, now: int)
    requires c.Cre? && !Expired(now, x) && !Expired(now, y)
    ensures GiveUpEach(c, now, DropExpired(now, [x, y])) == [GiveUp(c, now, x), GiveUp(c, now, y)]
  {
    assert [x, y][1..] == [y] && [y][1..] == [];
    assert DropExpired(now, [y]) == [y];
    assert DropExpired(now, [x, y]) == [x] + DropExpired(now, [x, y][1..]);
    EachOfTwo(x, y, r => GiveUp(c, now, r));
  }

  lemma {:induction false} OneMore(c: Answers, foreign: Foreign, s: State, trace: seq<Event>, event: Event)
    ensures Execute(c, foreign, s, trace + [event]) == Step(c, foreign, Execute(c, foreign, s, trace), event)
    decreases |trace|
  {
    if trace == [] {
      assert [event][1..] == [];
    } else {
      assert (trace + [event])[1..] == trace[1..] + [event];
      OneMore(c, foreign, Step(c, foreign, s, trace[0]), trace[1..], event);
    }
  }

  /** Two requests as delivered at one time. */
  ghost predicate BothFresh(x: Request, y: Request, now: int) {
    && x.id != y.id && x.receivedAt == now && y.receivedAt == now && x.attempts == 0 && y.attempts == 0
    && x.reply.None? && y.reply.None? && x.forwardedAt.None? && y.forwardedAt.None?
  }

  lemma BothAreDelivered(x: Asked, y: Asked, now: int)
    requires x.id != y.id
    ensures DoDeliver(DoDeliver(Init([], []), x, now), y, now) == Init([NewRequest(x, now), NewRequest(y, now)], [])
    ensures BothFresh(NewRequest(x, now), NewRequest(y, now), now)
  {
    var a := NewRequest(x, now);
    assert [] + [a] == [a] && [a] + [NewRequest(y, now)] == [a, NewRequest(y, now)];
    assert Find([a], y.id) == Find([a][1..], y.id);
  }

  lemma BothAreForwarded(c: Answers, x: Request, y: Request, now: int)
    requires c.Cre? && c.maxAttempts == 1 && now >= 0 && BothFresh(x, y, now) && Confused(x, y)
    ensures var s := Init([x, y], []);
            && DoPumpCre(c, s, now) == s.(nextRunAt := now + c.paceSeconds, flight := Some(Flight(now, [x.id, y.id])), forwards := [now])
            && Choose(DueRequests(c, 0, [x, y], now), x.publishOnchain) == Batch(map[Describe(y.attestation) := y.attestation], [x, y])
            && Ids([x, y]) == [x.id, y.id]
  {
    PumpOfTwo(c, x, y, now);
    BothAreDue(c, x, y, now);
    LaterOneIsAskedFor(x, y);
    assert [x, y][0] == x && [x, y][1..] == [y] && [y][1..] == [];
    assert Ids([y]) == [y.id];
    assert Ids([x, y]) == [x.id] + Ids([y]);
    var s := Init([x, y], []);
    assert s.forwards + [now] == [now];
    assert GiveUpEach(c, now, DropExpired(now, s.requests)) == [x, y];
    var due := DueRequests(c, s.nextRunAt, [x, y], now);
    assert |due| == 2 && due[0].publishOnchain == x.publishOnchain;
    assert Ids(Choose(due, due[0].publishOnchain).members) == [x.id, y.id];
  }

  lemma FirstIsGivenUp(c: Answers, s: State, x: Request, y: Request, now: int)
    requires c.Cre? && c.maxAttempts == 1 && 0 <= c.retrySeconds <= RETENTION_SECONDS && BothFresh(x, y, now)
    requires s.requests == [x, y] && s.flight == Some(Flight(now, [x.id, y.id]))
    ensures var requests := DoPumpCre(c, DoForwardReturned(s), now + c.retrySeconds).requests;
            requests != [] && requests[0].id == x.id && requests[0].reply == Some(Unanswered(x.attestation, NoFinishedReceipt))
  {
    var f := r => Forwarded(s.flight.value.now, s.flight.value.batch, r);
    EachOfTwo(x, y, f);
    assert DoForwardReturned(s).requests == [f(x), f(y)];
    PumpOfTwo(c, f(x), f(y), now + c.retrySeconds);
  }

  lemma Unfold(c: Answers, foreign: Foreign, s: State, trace: seq<Event>)
    requires |trace| == 5
    ensures var s2 := Step(c, foreign, Step(c, foreign, s, trace[0]), trace[1]);
            var s3 := Step(c, foreign, s2, trace[2]);
            && Execute(c, foreign, s, trace[..2]) == s2 && Execute(c, foreign, s, trace[..3]) == s3
            && Execute(c, foreign, s, trace) == Step(c, foreign, Step(c, foreign, s3, trace[3]), trace[4])
  {
    forall n | 0 <= n < 5 ensures Execute(c, foreign, s, trace[..n + 1]) == Step(c, foreign, Execute(c, foreign, s, trace[..n]), trace[n]) {
      assert trace[..n + 1] == trace[..n] + [trace[n]];
      OneMore(c, foreign, s, trace[..n], trace[n]);
    }
    assert trace[..0] == [] && trace[..0 + 1] == trace[..1] && trace[..1 + 1] == trace[..2] && trace[..2 + 1] == trace[..3];
    assert trace[..3 + 1] == trace[..4] && trace[..4 + 1] == trace;
  }

  /** Two deliveries, the pump that forwards for both, its return, and the pump after the answer was due. */
  function Confusion(c: Answers, x: Asked, y: Asked, now: int): seq<Event>
    requires c.Cre?
  {
    [Deliver(x, now), Deliver(y, now), PumpCre(now), ForwardReturned, PumpCre(now + c.retrySeconds)]
  }

  lemma ConfusionRun(c: Answers, foreign: Foreign, x: Asked, y: Asked, now: int)
    requires c.Cre? && x.id != y.id
    ensures var trace, s := Confusion(c, x, y, now), Init([NewRequest(x, now), NewRequest(y, now)], []);
            && Execute(c, foreign, Init([], []), trace[..2]) == s
            && Execute(c, foreign, Init([], []), trace[..3]) == DoPumpCre(c, s, now)
            && Execute(c, foreign, Init([], []), trace) == DoPumpCre(c, DoForwardReturned(DoPumpCre(c, s, now)), now + c.retrySeconds)
  {
    Unfold(c, foreign, Init([], []), Confusion(c, x, y, now));
    BothAreDelivered(x, y, now);
  }

  /**
   A batch asks about the later of two confused requests only, yet counts the attempt of both; where one attempt is all
   there is, the earlier one is answered as having no receipt although nobody asked.
   */
  lemma ConfusedRequestIsGivenUp(c: Answers, foreign: Foreign, x: Asked, y: Asked, now: int)
    requires c.Cre? && c.maxAttempts == 1 && 0 <= c.retrySeconds <= RETENTION_SECONDS && now >= 0 && x.id != y.id
    requires Confused(NewRequest(x, now), NewRequest(y, now))
    ensures var start := Execute(c, foreign, Init([], []), Confusion(c, x, y, now)[..2]);
            var batch := Choose(DueRequests(c, start.nextRunAt, start.requests, now), x.publishOnchain);
            var sent := Execute(c, foreign, Init([], []), Confusion(c, x, y, now)[..3]);
            && batch.attest == map[Describe(y.attestation) := y.attestation]
            && sent.flight == Some(Flight(now, [x.id, y.id])) && Ids(batch.members) == [x.id, y.id]
    ensures var end := Execute(c, foreign, Init([], []), Confusion(c, x, y, now));
            Find(end.requests, x.id).Some? && Find(end.requests, x.id).value.reply == Some(Unanswered(x.attestation, NoFinishedReceipt))
  {
    var a, b := NewRequest(x, now), NewRequest(y, now);
    ConfusionRun(c, foreign, x, y, now);
    BothAreDelivered(x, y, now);
    BothAreForwarded(c, a, b, now);
    FirstIsGivenUp(c, DoPumpCre(c, Init([a, b], []), now), a, b, now);
  }

  /** A policy that allows two attestations with one key, as any does that lists these Rooms and channels. */
  lemma SlashesConfuseKeys(policy: Policy, publication: string)
    requires Configured(policy, "a/b", "c") && Configured(policy, "a", "b/c") && IsPublicationId(publication)
    ensures var a, b := Publication("a/b", "c", publication), Publication("a", "b/c", publication);
            Allowed(policy, a) && Allowed(policy, b) && a != b && Describe(a) == Describe(b)
  {
    var a, b := Publication("a/b", "c", publication), Publication("a", "b/c", publication);
    assert a.room != b.room;
  }
}
