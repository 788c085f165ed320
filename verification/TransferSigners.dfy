/**
 Ownership of a transfer's recovery and integrity signers (sdks/go/integrity.go),
 and the release a fenced owner performs on signers and lease together
 (sdks/go/provider_transfer.go). A stop function runs after `signerMu` is
 unlocked, so leaving the map and being stopped are two events.
 */
module TransferSigners {
  import opened Basics
  import L = RecoveryLeases

  /** A `*transferSigners`; `id` is its pointer identity. */
  datatype Signers = Signers(id: nat)

  datatype State = State(
    current: map<string, Signers>,
    submissions: map<string, string>,   // audit id -> transfer id
    registered: set<Signers>,
    stopping: set<Signers>,             // left the map, stop not called yet
    stopped: multiset<Signers>)

  datatype Event =
    | Register(tid: string, signers: Signers)
    | Stop(tid: string, expected: Option<Signers>)
    | CallStop(signers: Signers)
    | Submit(audit: string, tid: string)

  function Init(): State { State(map[], map[], {}, {}, multiset{}) }

  /** registerTransferSigners; call sites build a new set of signers for every registration. */
  function DoRegister(s: State, tid: string, signers: Signers): State {
    if signers in s.registered then s
    else
      s.(current := s.current[tid := signers],
         registered := s.registered + {signers},
         stopping := s.stopping + (if tid in s.current then {s.current[tid]} else {}))
  }

  /** stopTransferSigners */
  function DoStop(s: State, tid: string, expected: Option<Signers>): State {
    if expected.Some? && !(tid in s.current && s.current[tid] == expected.value) then s
    else
      s.(current := s.current - {tid},
         submissions := map a | a in s.submissions && s.submissions[a] != tid :: s.submissions[a],
         stopping := s.stopping + (if tid in s.current then {s.current[tid]} else {}))
  }

  function Step(s: State, event: Event): State {
    match event
    case Register(tid, signers) => DoRegister(s, tid, signers)
    case Stop(tid, expected) => DoStop(s, tid, expected)
    case CallStop(signers) =>
      if signers !in s.stopping then s
      else s.(stopping := s.stopping - {signers}, stopped := s.stopped + multiset{signers})
    case Submit(audit, tid) => s.(submissions := s.submissions[audit := tid])
  }

  function Execute(s: State, trace: seq<Event>): State
    decreases |trace|
  {
    if trace == [] then s else Execute(Step(s, trace[0]), trace[1..])
  }

  ghost predicate Holds(s: State, signers: Signers) {
    exists t :: t in s.current && s.current[t] == signers
  }

  ghost predicate Inv(s: State) {
    && (forall t :: t in s.current ==> s.current[t] in s.registered)
    && (forall t, u :: t in s.current && u in s.current && s.current[t] == s.current[u] ==> t == u)
    && s.stopping <= s.registered
    && (forall g :: g in s.stopped ==> g in s.registered)
    && (forall g :: g in s.registered ==>
          s.stopped[g] + (if g in s.stopping then 1 else 0) + (if Holds(s, g) then 1 else 0) == 1)
  }

  /** Whoever held the transfer leaves; everyone else stays. */
  lemma OnlyTheHolderLeaves(s: State, s': State, tid: string, signers: Signers)
    requires Inv(s) && signers in s.registered
    requires forall t :: t != tid ==> (t in s'.current <==> t in s.current)
    requires forall t :: t != tid && t in s.current ==> s'.current[t] == s.current[t]
    requires tid in s'.current ==> s'.current[tid] != signers
    ensures Holds(s', signers) <==> Holds(s, signers) && !(tid in s.current && s.current[tid] == signers)
  {
    if Holds(s, signers) {
      var t :| t in s.current && s.current[t] == signers;
      if t != tid { assert t in s'.current && s'.current[t] == signers; }
    }
  }

  lemma RegisterInv(s: State, tid: string, signers: Signers)
    requires Inv(s)
    ensures Inv(DoRegister(s, tid, signers))
  {
    var s' := DoRegister(s, tid, signers);
    if signers !in s.registered {
      assert tid in s'.current && s'.current[tid] == signers;
      forall g | g in s.registered
        ensures Holds(s', g) <==> Holds(s, g) && !(tid in s.current && s.current[tid] == g)
      {
        OnlyTheHolderLeaves(s, s', tid, g);
      }
    }
  }

  lemma StopInv(s: State, tid: string, expected: Option<Signers>)
    requires Inv(s)
    ensures Inv(DoStop(s, tid, expected))
  {
    var s' := DoStop(s, tid, expected);
    if s' != s {
      forall g | g in s.registered
        ensures Holds(s', g) <==> Holds(s, g) && !(tid in s.current && s.current[tid] == g)
      {
        OnlyTheHolderLeaves(s, s', tid, g);
      }
    }
  }

  lemma StepInv(s: State, event: Event)
    requires Inv(s)
    ensures Inv(Step(s, event))
  {
    match event
    case Register(tid, signers) => RegisterInv(s, tid, signers);
    case Stop(tid, expected) => StopInv(s, tid, expected);
    case CallStop(signers) =>
      forall g | g in s.registered ensures Holds(Step(s, event), g) <==> Holds(s, g) { }
    case Submit(audit, tid) =>
      forall g | g in s.registered ensures Holds(Step(s, event), g) <==> Holds(s, g) { }
  }

  lemma {:induction false} ExecuteInv(s: State, trace: seq<Event>)
    requires Inv(s)
    ensures Inv(Execute(s, trace))
    decreases |trace|
  {
    if trace != [] {
      StepInv(s, trace[0]);
      ExecuteInv(Step(s, trace[0]), trace[1..]);
    }
  }

  /** Signers are never stopped while current, and exactly once when they leave (pending stop included). */
  lemma StoppedOnceWhenTheyLeave(trace: seq<Event>, signers: Signers)
    ensures var s := Execute(Init(), trace);
            && (Holds(s, signers) ==> s.stopped[signers] == 0 && signers !in s.stopping)
            && (signers in s.registered && !Holds(s, signers) ==>
                  s.stopped[signers] + (if signers in s.stopping then 1 else 0) == 1)
            && (signers !in s.registered ==> s.stopped[signers] == 0)
  {
    ExecuteInv(Init(), trace);
    var s := Execute(Init(), trace);
    if Holds(s, signers) {
      var t :| t in s.current && s.current[t] == signers;
      assert s.current[t] in s.registered;
    }
  }

  /**
   `releaseOwned` of an owner that was replaced: neither the replacement's signers and lease, nor its loop, its
   shard's monitor, its pending epoch or its audit submissions change.
   */
  lemma FencedOwnerReleaseChangesNothing(s: State, leases: L.State, tid: string, signers: Signers, lease: L.Lease)
    requires !(tid in s.current && s.current[tid] == signers)
    requires !L.IsCurrent(leases.leases, lease)
    ensures Step(s, Stop(tid, Some(signers))) == s
    ensures L.Step(leases, L.ReleaseOwned(lease)) == leases
  {
    L.StaleReleaseChangesNothing(leases, lease);
  }

  class Client {
    var recoverySigners: map<string, Signers>
    var integritySubmissions: map<string, string>
    ghost var registered: set<Signers>
    ghost var stopping: set<Signers>
    ghost var stopped: multiset<Signers>

    ghost function Now(): State
      reads this
    {
      State(recoverySigners, integritySubmissions, registered, stopping, stopped)
    }

    method RegisterTransferSigners(tid: string, signers: Signers) returns (previous: Option<Signers>)
      requires signers !in registered
      modifies this
      ensures Now() == Step(old(Now()), Register(tid, signers))
      ensures previous == if tid in old(recoverySigners) then Some(old(recoverySigners)[tid]) else None
    {
      previous := if tid in recoverySigners then Some(recoverySigners[tid]) else None;
      recoverySigners := recoverySigners[tid := signers];
      registered := registered + {signers};
      if previous.Some? { stopping := stopping + {previous.value}; }
    }

    method StopTransferSigners(tid: string, expected: Option<Signers>)
      modifies this
      ensures Now() == Step(old(Now()), Stop(tid, expected))
    {
      if expected.Some? && !(tid in recoverySigners && recoverySigners[tid] == expected.value) { return; }
      var current := if tid in recoverySigners then Some(recoverySigners[tid]) else None;
      recoverySigners := recoverySigners - {tid};
      var todo := integritySubmissions.Keys;
      while todo != {}
        invariant todo <= old(integritySubmissions).Keys
        invariant forall a :: a in integritySubmissions <==>
          a in old(integritySubmissions) && (a in todo || old(integritySubmissions)[a] != tid)
        invariant forall a :: a in integritySubmissions ==> integritySubmissions[a] == old(integritySubmissions)[a]
        invariant recoverySigners == old(recoverySigners) - {tid}
        invariant registered == old(registered) && stopping == old(stopping) && stopped == old(stopped)
      {
        var a :| a in todo;
        todo := todo - {a};
        if integritySubmissions[a] == tid {
          integritySubmissions := integritySubmissions - {a};
        }
      }
      if current.Some? { stopping := stopping + {current.value}; }
    }
  }
}
