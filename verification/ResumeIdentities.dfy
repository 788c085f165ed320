/**
 Resuming a provider transfer: saved multipart identities are accepted exactly when they
 are one for each multipart group of the plan
 (`restoreProviderMultipartIdentities`, sdks/go/provider_transfer.go).
 */
module ResumeIdentities {
  import opened Basics
  import opened Uploads
  import opened UploadTheorems
  import opened UploadSession

  datatype Source = Source(sourceId: string, size: int, chunkCount: int)
  datatype DestinationPlan = DestinationPlan(destinationId: string, finalObjectKeys: map<string, string>)
  datatype Pair = Pair(source: Source, target: DestinationPlan)

  datatype Group = Group(destination: Destination, objectKey: string, source: Source, destinationId: string)

  /** ProviderMultipartGroupIdentity without its expiry. */
  datatype Identity = Identity(
    transferId: string, groupId: string, sourceId: string, destinationId: string, objectKey: string, uploadId: string,
    expectedObjectSize: int, expectedPartCount: int)

  datatype Error = DestinationInvalid | ObjectInvalid | Incomplete | IdentityInvalid
  datatype Result<+T> = Ok(value: T) | Err(error: Error)

  /** multipartGroupStateKey: ids are joined as they are, so two coordinates may share a key. */
  function StateKey(transferId: string, destinationId: string, sourceId: string, objectKey: string): string {
    transferId + ":" + destinationId + ":" + sourceId + ":" + objectKey
  }

  predicate DirectPut(destination: Destination) { destination.Hippius? || destination.HuggingFace? }

  /** unicode.IsSpace */
  predicate IsSpace(c: char) {
    || ('\t' <= c <= '\r') || c == ' ' || c == '\U{85}' || c == '\U{A0}' || c == '\U{1680}' || ('\U{2000}' <= c <= '\U{200A}')
    || c == '\U{2028}' || c == '\U{2029}' || c == '\U{202F}' || c == '\U{205F}' || c == '\U{3000}'
  }

  predicate Blank(s: string) { forall i :: 0 <= i < |s| ==> IsSpace(s[i]) }

  /** The pairs of a plan, sources outermost. */
  function PairsOf(source: Source, targets: seq<DestinationPlan>): seq<Pair> {
    if targets == [] then [] else PairsOf(source, targets[..|targets| - 1]) + [Pair(source, targets[|targets| - 1])]
  }

  function Pairs(sources: seq<Source>, targets: seq<DestinationPlan>): seq<Pair> {
    if sources == [] then [] else Pairs(sources[..|sources| - 1], targets) + PairsOf(sources[|sources| - 1], targets)
  }

  function PairError(destinations: map<string, Destination>, pair: Pair): Option<Error> {
    if pair.target.destinationId !in destinations then Some(DestinationInvalid)
    else if DirectPut(destinations[pair.target.destinationId]) then None
    else if pair.source.sourceId !in pair.target.finalObjectKeys || pair.target.finalObjectKeys[pair.source.sourceId] == "" then
      Some(ObjectInvalid)
    else None
  }

  /** A pair whose destination takes multipart uploads. */
  predicate Multipart(destinations: map<string, Destination>, pair: Pair) {
    PairError(destinations, pair).None? && !DirectPut(destinations[pair.target.destinationId])
  }

  function GroupOf(destinations: map<string, Destination>, pair: Pair): Group
    requires Multipart(destinations, pair)
  {
    Group(destinations[pair.target.destinationId], pair.target.finalObjectKeys[pair.source.sourceId], pair.source, pair.target.destinationId)
  }

  function KeyOf(transferId: string, group: Group): string {
    StateKey(transferId, group.destinationId, group.source.sourceId, group.objectKey)
  }

  /** The groups the plan expects, by state key; or the error of the first pair that has one. */
  function ExpectedGroups(transferId: string, destinations: map<string, Destination>, pairs: seq<Pair>): Result<map<string, Group>> {
    if pairs == [] then Ok(map[])
    else
      var before, last := ExpectedGroups(transferId, destinations, pairs[..|pairs| - 1]), pairs[|pairs| - 1];
      if before.Err? then before
      else if PairError(destinations, last).Some? then Err(PairError(destinations, last).value)
      else if !Multipart(destinations, last) then before
      else Ok(before.value[KeyOf(transferId, GroupOf(destinations, last)) := GroupOf(destinations, last)])
  }

  lemma ExpectedSnoc(transferId: string, destinations: map<string, Destination>, pairs: seq<Pair>, last: Pair)
    ensures ExpectedGroups(transferId, destinations, pairs + [last]) ==
      var before := ExpectedGroups(transferId, destinations, pairs);
      if before.Err? then before
      else if PairError(destinations, last).Some? then Err(PairError(destinations, last).value)
      else if !Multipart(destinations, last) then before
      else Ok(before.value[KeyOf(transferId, GroupOf(destinations, last)) := GroupOf(destinations, last)])
  {
    assert (pairs + [last])[..|pairs|] == pairs;
  }

  lemma {:induction false} ErrorsStick(transferId: string, destinations: map<string, Destination>, pairs: seq<Pair>, more: seq<Pair>)
    requires ExpectedGroups(transferId, destinations, pairs).Err?
    ensures ExpectedGroups(transferId, destinations, pairs + more) == ExpectedGroups(transferId, destinations, pairs)
    decreases |more|
  {
    if more == [] {
      assert pairs + more == pairs;
    } else {
      assert (pairs + more)[..|pairs + more| - 1] == pairs + more[..|more| - 1];
      ErrorsStick(transferId, destinations, pairs, more[..|more| - 1]);
    }
  }

  /** Looking at one more pair of a plan. */
  lemma NextPair(transferId: string, destinations: map<string, Destination>, before: seq<Pair>, source: Source, targets: seq<DestinationPlan>, t: nat)
    requires t < |targets|
    ensures before + PairsOf(source, targets[..t + 1]) == (before + PairsOf(source, targets[..t])) + [Pair(source, targets[t])]
    ensures ExpectedGroups(transferId, destinations, before + PairsOf(source, targets[..t + 1])) ==
      var seen, last := ExpectedGroups(transferId, destinations, before + PairsOf(source, targets[..t])), Pair(source, targets[t]);
      if seen.Err? then seen
      else if PairError(destinations, last).Some? then Err(PairError(destinations, last).value)
      else if !Multipart(destinations, last) then seen
      else Ok(seen.value[KeyOf(transferId, GroupOf(destinations, last)) := GroupOf(destinations, last)])
  {
    assert targets[..t + 1][..t] == targets[..t];
    assert before + PairsOf(source, targets[..t + 1]) == (before + PairsOf(source, targets[..t])) + [Pair(source, targets[t])];
    ExpectedSnoc(transferId, destinations, before + PairsOf(source, targets[..t]), Pair(source, targets[t]));
  }

  ghost predicate Wants(transferId: string, destinations: map<string, Destination>, pairs: seq<Pair>, key: string, group: Group) {
    exists k :: 0 <= k < |pairs| && IsGroup(transferId, destinations, pairs[k], key, group)
  }

  ghost predicate IsGroup(transferId: string, destinations: map<string, Destination>, pair: Pair, key: string, group: Group) {
    Multipart(destinations, pair) && group == GroupOf(destinations, pair) && key == KeyOf(transferId, group)
  }

  /** An error means some pair has it; otherwise the keys are those of the multipart pairs, each with such a pair's group. */
  lemma {:induction false} ExpectedMeaning(transferId: string, destinations: map<string, Destination>, pairs: seq<Pair>)
    ensures var e := ExpectedGroups(transferId, destinations, pairs);
            && (e.Ok? <==> forall k :: 0 <= k < |pairs| ==> PairError(destinations, pairs[k]).None?)
            && (e.Err? ==> exists k :: 0 <= k < |pairs| && PairError(destinations, pairs[k]) == Some(e.error)
                                       && forall j :: 0 <= j < k ==> PairError(destinations, pairs[j]).None?)
            && (e.Ok? ==> forall key :: key in e.value ==> Wants(transferId, destinations, pairs, key, e.value[key]))
            && (e.Ok? ==> forall k :: 0 <= k < |pairs| && Multipart(destinations, pairs[k]) ==>
                  KeyOf(transferId, GroupOf(destinations, pairs[k])) in e.value)
  {
    if pairs != [] {
      var init, last := pairs[..|pairs| - 1], pairs[|pairs| - 1];
      ExpectedMeaning(transferId, destinations, init);
      var before, e := ExpectedGroups(transferId, destinations, init), ExpectedGroups(transferId, destinations, pairs);
      if before.Err? {
        var k :| 0 <= k < |init| && PairError(destinations, init[k]) == Some(before.error)
                 && forall j :: 0 <= j < k ==> PairError(destinations, init[j]).None?;
        assert pairs[k] == init[k];
        assert forall j :: 0 <= j < k ==> pairs[j] == init[j];
      } else if e.Ok? {
        forall key | key in e.value ensures Wants(transferId, destinations, pairs, key, e.value[key]) {
          if key in before.value && e.value[key] == before.value[key] {
            var k :| 0 <= k < |init| && IsGroup(transferId, destinations, init[k], key, e.value[key]);
            assert IsGroup(transferId, destinations, pairs[k], key, e.value[key]);
          } else {
            assert IsGroup(transferId, destinations, pairs[|pairs| - 1], key, e.value[key]);
          }
        }
        forall k | 0 <= k < |pairs| && Multipart(destinations, pairs[k])
          ensures KeyOf(transferId, GroupOf(destinations, pairs[k])) in e.value
        {
          if k < |init| { assert init[k] == pairs[k]; }
        }
      } else {
        assert forall j :: 0 <= j < |init| ==> PairError(destinations, init[j]).None?;
        assert forall j :: 0 <= j < |init| ==> pairs[j] == init[j];
      }
    }
  }

  /** The saved identity is the one of an expected group. */
  predicate Matches(transferId: string, expected: map<string, Group>, identity: Identity) {
    && identity.groupId in expected && identity.transferId == transferId
    && var group := expected[identity.groupId];
    && identity.sourceId == group.source.sourceId && identity.destinationId == group.destinationId && identity.objectKey == group.objectKey
    && identity.expectedObjectSize == group.source.size && identity.expectedPartCount == group.source.chunkCount
    && !Blank(identity.uploadId)
  }

  ghost predicate Distinct(identities: seq<Identity>) {
    forall i, j :: 0 <= i < j < |identities| ==> identities[i].groupId != identities[j].groupId
  }

  ghost predicate Acceptable(transferId: string, expected: map<string, Group>, known: set<string>, identities: seq<Identity>) {
    && Distinct(identities)
    && forall i :: 0 <= i < |identities| ==> Matches(transferId, expected, identities[i]) && identities[i].groupId !in known
  }

  function RestoredUpload(expected: map<string, Group>, identity: Identity): Upload
    requires identity.groupId in expected
  {
    Upload(expected[identity.groupId].destination, expected[identity.groupId].objectKey, identity.uploadId)
  }

  /** The registry after a restore: what it held, and one upload per identity. */
  ghost predicate Restored(expected: map<string, Group>, was: map<string, Upload>, identities: seq<Identity>, now: map<string, Upload>) {
    && (forall i :: 0 <= i < |identities| ==>
          && identities[i].groupId in expected && identities[i].groupId in now
          && now[identities[i].groupId] == RestoredUpload(expected, identities[i]))
    && (forall g :: g in was ==> g in now)
    && (forall g :: g in now ==> Names(identities, g) || (g in was && now[g] == was[g]))
  }

  ghost predicate Names(identities: seq<Identity>, group: string) {
    exists i :: 0 <= i < |identities| && identities[i].groupId == group
  }

  method Expect(transferId: string, sources: seq<Source>, targets: seq<DestinationPlan>, destinations: map<string, Destination>)
      returns (expected: Result<map<string, Group>>)
    ensures expected == ExpectedGroups(transferId, destinations, Pairs(sources, targets))
  {
    var groups := map[];
    for s := 0 to |sources|
      invariant ExpectedGroups(transferId, destinations, Pairs(sources[..s], targets)) == Ok(groups)
    {
      assert sources[..s + 1][..s] == sources[..s];
      ghost var before := Pairs(sources[..s], targets);
      assert before + [] == before && targets[..0] == [];
      for t := 0 to |targets|
        invariant ExpectedGroups(transferId, destinations, before + PairsOf(sources[s], targets[..t])) == Ok(groups)
      {
        var pair := Pair(sources[s], targets[t]);
        NextPair(transferId, destinations, before, sources[s], targets, t);
        var error := PairError(destinations, pair);
        if error.Some? {
          RestIsIrrelevant(transferId, sources, targets, destinations, s, t);
          return Err(error.value);
        }
        if Multipart(destinations, pair) {
          groups := groups[KeyOf(transferId, GroupOf(destinations, pair)) := GroupOf(destinations, pair)];
        }
      }
      assert targets[..|targets|] == targets;
    }
    assert sources[..|sources|] == sources;
    return Ok(groups);
  }

  /** The pairs looked at so far begin the pairs of the plan. */
  lemma RestIsIrrelevant(transferId: string, sources: seq<Source>, targets: seq<DestinationPlan>, destinations: map<string, Destination>, s: nat, t: nat)
    requires s < |sources| && t < |targets|
    requires ExpectedGroups(transferId, destinations, Pairs(sources[..s], targets) + PairsOf(sources[s], targets[..t + 1])).Err?
    ensures ExpectedGroups(transferId, destinations, Pairs(sources, targets)) ==
            ExpectedGroups(transferId, destinations, Pairs(sources[..s], targets) + PairsOf(sources[s], targets[..t + 1]))
  {
    var before, first := Pairs(sources[..s], targets), PairsOf(sources[s], targets[..t + 1]);
    var rest1 := PairsOfPrefix(sources[s], targets, t + 1);
    var rest2 := PairsPrefix(sources, targets, s + 1);
    PairsSnoc(sources, targets, s);
    Reassociate(before, first, rest1, rest2);
    ErrorsStick(transferId, destinations, before + first, rest1 + rest2);
  }

  lemma PairsSnoc(sources: seq<Source>, targets: seq<DestinationPlan>, s: nat)
    requires s < |sources|
    ensures Pairs(sources[..s + 1], targets) == Pairs(sources[..s], targets) + PairsOf(sources[s], targets)
  {
    assert sources[..s + 1][..s] == sources[..s];
  }

  lemma Reassociate<T>(a: seq<T>, b: seq<T>, c: seq<T>, d: seq<T>)
    ensures (a + (b + c)) + d == (a + b) + (c + d)
  {
  }

  lemma {:induction false} PairsOfPrefix(source: Source, targets: seq<DestinationPlan>, t: nat) returns (rest: seq<Pair>)
    requires t <= |targets|
    ensures PairsOf(source, targets) == PairsOf(source, targets[..t]) + rest
    decreases |targets|
  {
    if t == |targets| {
      assert targets[..t] == targets;
      rest := [];
    } else {
      assert targets[..|targets| - 1][..t] == targets[..t];
      rest := PairsOfPrefix(source, targets[..|targets| - 1], t);
      rest := rest + [Pair(source, targets[|targets| - 1])];
    }
  }

  lemma {:induction false} PairsPrefix(sources: seq<Source>, targets: seq<DestinationPlan>, s: nat) returns (rest: seq<Pair>)
    requires s <= |sources|
    ensures Pairs(sources, targets) == Pairs(sources[..s], targets) + rest
    decreases |sources|
  {
    if s == |sources| {
      assert sources[..s] == sources;
      rest := [];
    } else {
      assert sources[..|sources| - 1][..s] == sources[..s];
      rest := PairsPrefix(sources[..|sources| - 1], targets, s);
      rest := rest + PairsOf(sources[|sources| - 1], targets);
    }
  }

  /** A restore succeeds exactly when the identities are acceptable and as many as the expected groups. */
  method RestoreProviderMultipartIdentities(
      transferId: string, sources: seq<Source>, targets: seq<DestinationPlan>, destinations: map<string, Destination>,
      identities: seq<Identity>, uploads: MultipartUploadRegistry) returns (error: Option<Error>)
    modifies uploads
    ensures var expected := ExpectedGroups(transferId, destinations, Pairs(sources, targets));
            && (error.None? <==>
                  expected.Ok? && |expected.value| == |identities|
                  && Acceptable(transferId, expected.value, old(uploads.states).Keys, identities))
            && (expected.Err? ==> error == Some(expected.error))
            && (expected.Ok? && |expected.value| != |identities| ==> error == Some(Incomplete))
            && (expected.Ok? && |expected.value| == |identities| && error.Some? ==> error == Some(IdentityInvalid))
            && (error.Some? && error != Some(IdentityInvalid) ==> uploads.states == old(uploads.states))
            && (error.None? ==> Restored(expected.value, old(uploads.states), identities, uploads.states))
  {
    var groups := Expect(transferId, sources, targets, destinations);
    if groups.Err? {
      ExpectedMeaning(transferId, destinations, Pairs(sources, targets));
      return Some(groups.error);
    }
    var expected := groups.value;
    if |expected| != |identities| { return Some(Incomplete); }
    for i := 0 to |identities|
      invariant Acceptable(transferId, expected, old(uploads.states).Keys, identities[..i])
      invariant Restored(expected, old(uploads.states), identities[..i], uploads.states)
    {
      var identity := identities[i];
      var duplicate := uploads.Get(identity.groupId);
      if duplicate.Some? || !Matches(transferId, expected, identity) {
        DuplicateIsNotAcceptable(transferId, expected, old(uploads.states), identities, i, uploads.states);
        return Some(IdentityInvalid);
      }
      ghost var before := uploads.states;
      uploads.Set(identity.groupId, RestoredUpload(expected, identity));
      AcceptableSnoc(transferId, expected, old(uploads.states), identities, i, before);
      RestoredSnoc(expected, old(uploads.states), identities, i, before, uploads.states);
    }
    assert identities[..|identities|] == identities;
    return None;
  }

  lemma DuplicateIsNotAcceptable(transferId: string, expected: map<string, Group>, was: map<string, Upload>, identities: seq<Identity>, i: nat, now: map<string, Upload>)
    requires i < |identities| && Restored(expected, was, identities[..i], now)
    requires identities[i].groupId in now || !Matches(transferId, expected, identities[i])
    ensures !Acceptable(transferId, expected, was.Keys, identities)
  {
    if identities[i].groupId in now && Names(identities[..i], identities[i].groupId) {
      var j :| 0 <= j < i && identities[..i][j].groupId == identities[i].groupId;
      assert identities[j].groupId == identities[i].groupId;
    }
  }

  lemma AcceptableSnoc(transferId: string, expected: map<string, Group>, was: map<string, Upload>, identities: seq<Identity>, i: nat, before: map<string, Upload>)
    requires i < |identities| && Acceptable(transferId, expected, was.Keys, identities[..i]) && Matches(transferId, expected, identities[i])
    requires Restored(expected, was, identities[..i], before) && identities[i].groupId !in before
    ensures Acceptable(transferId, expected, was.Keys, identities[..i + 1])
  {
    var longer := identities[..i + 1];
    assert longer == identities[..i] + [identities[i]];
    assert identities[i].groupId !in was;
  }

  lemma RestoredSnoc(expected: map<string, Group>, was: map<string, Upload>, identities: seq<Identity>, i: nat, before: map<string, Upload>, now: map<string, Upload>)
    requires i < |identities| && identities[i].groupId in expected
    requires Restored(expected, was, identities[..i], before) && identities[i].groupId !in before
    requires now == before[identities[i].groupId := RestoredUpload(expected, identities[i])]
    ensures Restored(expected, was, identities[..i + 1], now)
  {
    var longer := identities[..i + 1];
    assert longer == identities[..i] + [identities[i]];
    forall g | g in now ensures Names(longer, g) || (g in was && now[g] == was[g]) {
      if g == identities[i].groupId {
        assert longer[i].groupId == g;
      } else if Names(identities[..i], g) {
        var j :| 0 <= j < i && identities[..i][j].groupId == g;
        assert longer[j].groupId == g;
      }
    }
  }

  function GroupIds(identities: seq<Identity>): set<string> { set identity | identity in identities :: identity.groupId }

  lemma {:induction false} GroupIdsCount(identities: seq<Identity>)
    requires Distinct(identities)
    ensures |GroupIds(identities)| == |identities|
  {
    if identities != [] {
      var init, last := identities[..|identities| - 1], identities[|identities| - 1];
      assert Distinct(init);
      GroupIdsCount(init);
      assert identities == init + [last];
      assert GroupIds(identities) == GroupIds(init) + {last.groupId};
      assert last.groupId !in GroupIds(init);
    } else {
      assert GroupIds(identities) == {};
    }
  }

  lemma SubsetOfSameSize<T>(a: set<T>, b: set<T>)
    requires a <= b && |a| == |b|
    ensures a == b
  {
    assert b == a + (b - a);
    assert |b| == |a| + |b - a|;
  }

  /** Accepted identities are a bijection with the plan's groups, and a registry restored from nothing holds all of them. */
  lemma RestoredCoversPlan(transferId: string, expected: map<string, Group>, identities: seq<Identity>, now: map<string, Upload>)
    requires |expected| == |identities| && Acceptable(transferId, expected, {}, identities) && Restored(expected, map[], identities, now)
    ensures forall g :: g in expected <==> Names(identities, g)
    ensures now.Keys == expected.Keys
    ensures forall g :: g in now ==> !Blank(now[g].uploadId) && now[g] == Upload(expected[g].destination, expected[g].objectKey, now[g].uploadId)
  {
    GroupIdsCount(identities);
    var ids := GroupIds(identities);
    assert |expected.Keys| == |expected|;
    SubsetOfSameSize(ids, expected.Keys);
    forall g ensures g in expected <==> Names(identities, g) {
      if g in expected {
        assert g in ids;
        var i :| 0 <= i < |identities| && identities[i].groupId == g;
      }
    }
    forall g | g in now
      ensures g in expected && !Blank(now[g].uploadId) && now[g] == Upload(expected[g].destination, expected[g].objectKey, now[g].uploadId)
    {
      var i :| 0 <= i < |identities| && identities[i].groupId == g;
      assert now[identities[i].groupId] == RestoredUpload(expected, identities[i]);
    }
  }

  // ----- the jobs of a stream -----

  function JobAt(transferId: string, destinations: map<string, Destination>, pair: Pair): Job
    requires Multipart(destinations, pair)
  {
    Job(KeyOf(transferId, GroupOf(destinations, pair)), GroupOf(destinations, pair).destination, GroupOf(destinations, pair).objectKey)
  }

  /** One job for every multipart pair, in order, even when two share a state key. */
  function JobsFor(transferId: string, destinations: map<string, Destination>, pairs: seq<Pair>): seq<Job> {
    if pairs == [] then []
    else
      var last := pairs[|pairs| - 1];
      JobsFor(transferId, destinations, pairs[..|pairs| - 1]) + (if Multipart(destinations, last) then [JobAt(transferId, destinations, last)] else [])
  }

  lemma JobsSnoc(transferId: string, destinations: map<string, Destination>, pairs: seq<Pair>, last: Pair)
    ensures JobsFor(transferId, destinations, pairs + [last]) ==
      JobsFor(transferId, destinations, pairs) + (if Multipart(destinations, last) then [JobAt(transferId, destinations, last)] else [])
  {
    assert (pairs + [last])[..|pairs|] == pairs;
  }

  /** The jobs `startMultipartGroupManifest` queues; None when a destination or an object key is missing. */
  method QueueJobs(transferId: string, sources: seq<Source>, targets: seq<DestinationPlan>, destinations: map<string, Destination>)
      returns (jobs: Option<seq<Job>>)
    ensures jobs == if ExpectedGroups(transferId, destinations, Pairs(sources, targets)).Ok?
                    then Some(JobsFor(transferId, destinations, Pairs(sources, targets))) else None
  {
    var queued: seq<Job> := [];
    for s := 0 to |sources|
      invariant ExpectedGroups(transferId, destinations, Pairs(sources[..s], targets)).Ok?
      invariant queued == JobsFor(transferId, destinations, Pairs(sources[..s], targets))
    {
      PairsSnoc(sources, targets, s);
      ghost var before := Pairs(sources[..s], targets);
      assert before + [] == before && targets[..0] == [];
      for t := 0 to |targets|
        invariant ExpectedGroups(transferId, destinations, before + PairsOf(sources[s], targets[..t])).Ok?
        invariant queued == JobsFor(transferId, destinations, before + PairsOf(sources[s], targets[..t]))
      {
        var pair := Pair(sources[s], targets[t]);
        NextPair(transferId, destinations, before, sources[s], targets, t);
        JobsSnoc(transferId, destinations, before + PairsOf(sources[s], targets[..t]), pair);
        if PairError(destinations, pair).Some? {
          RestIsIrrelevant(transferId, sources, targets, destinations, s, t);
          return None;
        }
        if Multipart(destinations, pair) { queued := queued + [JobAt(transferId, destinations, pair)]; }
      }
      assert targets[..|targets|] == targets;
    }
    assert sources[..|sources|] == sources;
    return Some(queued);
  }

  ghost predicate HasKey(transferId: string, destinations: map<string, Destination>, pairs: seq<Pair>, job: Job) {
    exists k :: 0 <= k < |pairs| && Multipart(destinations, pairs[k]) && JobAt(transferId, destinations, pairs[k]) == job
  }

  lemma HasKeySnoc(transferId: string, destinations: map<string, Destination>, pairs: seq<Pair>, last: Pair, job: Job)
    ensures HasKey(transferId, destinations, pairs + [last], job) <==>
      HasKey(transferId, destinations, pairs, job) || (Multipart(destinations, last) && JobAt(transferId, destinations, last) == job)
  {
    var all := pairs + [last];
    if HasKey(transferId, destinations, pairs, job) {
      var k :| 0 <= k < |pairs| && Multipart(destinations, pairs[k]) && JobAt(transferId, destinations, pairs[k]) == job;
      assert all[k] == pairs[k];
    }
    if Multipart(destinations, last) && JobAt(transferId, destinations, last) == job { assert all[|pairs|] == last; }
  }

  lemma {:induction false} JobsMeaning(transferId: string, destinations: map<string, Destination>, pairs: seq<Pair>)
    ensures forall job :: job in JobsFor(transferId, destinations, pairs) <==> HasKey(transferId, destinations, pairs, job)
  {
    if pairs != [] {
      var init, last := pairs[..|pairs| - 1], pairs[|pairs| - 1];
      assert pairs == init + [last];
      JobsMeaning(transferId, destinations, init);
      forall job ensures job in JobsFor(transferId, destinations, pairs) <==> HasKey(transferId, destinations, pairs, job) {
        HasKeySnoc(transferId, destinations, init, last, job);
      }
    }
  }

  /** No two multipart pairs of the plan share a state key. */
  ghost predicate KeysDiffer(transferId: string, destinations: map<string, Destination>, pairs: seq<Pair>) {
    forall a, b :: 0 <= a < b < |pairs| && Multipart(destinations, pairs[a]) && Multipart(destinations, pairs[b]) ==>
      JobAt(transferId, destinations, pairs[a]).group != JobAt(transferId, destinations, pairs[b]).group
  }

  lemma OwnGroupsSnoc(jobs: seq<Job>, job: Job)
    ensures OwnGroups(jobs + [job]) <==> OwnGroups(jobs) && forall j :: j in jobs ==> j.group != job.group
  {
    var all := jobs + [job];
    if OwnGroups(all) {
      forall i, j | 0 <= i < j < |jobs| ensures jobs[i].group != jobs[j].group { assert all[i] == jobs[i] && all[j] == jobs[j]; }
      forall j | j in jobs ensures j.group != job.group {
        var i :| 0 <= i < |jobs| && jobs[i] == j;
        assert all[i] == j && all[|jobs|] == job;
      }
    }
  }

  /** Each worker has its own group exactly when no two multipart pairs share a state key. */
  lemma {:induction false} OwnGroupsIffKeysDiffer(transferId: string, destinations: map<string, Destination>, pairs: seq<Pair>)
    ensures OwnGroups(JobsFor(transferId, destinations, pairs)) <==> KeysDiffer(transferId, destinations, pairs)
  {
    if pairs != [] {
      var init, last := pairs[..|pairs| - 1], pairs[|pairs| - 1];
      assert pairs == init + [last];
      OwnGroupsIffKeysDiffer(transferId, destinations, init);
      JobsMeaning(transferId, destinations, init);
      KeysDifferSnoc(transferId, destinations, init, last);
      assert JobsFor(transferId, destinations, init) + [] == JobsFor(transferId, destinations, init);
      if Multipart(destinations, last) { OwnGroupsSnoc(JobsFor(transferId, destinations, init), JobAt(transferId, destinations, last)); }
    }
  }

  /** The identity is of a pair's multipart group: its ids, its object, its size and its part count, with an upload id. */
  ghost predicate Identifies(transferId: string, destinations: map<string, Destination>, pair: Pair, identity: Identity) {
    && pair.target.destinationId in destinations
    && !destinations[pair.target.destinationId].Hippius? && !destinations[pair.target.destinationId].HuggingFace?
    && pair.source.sourceId in pair.target.finalObjectKeys && identity.objectKey == pair.target.finalObjectKeys[pair.source.sourceId] != ""
    && identity.transferId == transferId
    && identity.sourceId == pair.source.sourceId && identity.destinationId == pair.target.destinationId
    && identity.expectedObjectSize == pair.source.size && identity.expectedPartCount == pair.source.chunkCount
    && identity.groupId == transferId + ":" + identity.destinationId + ":" + identity.sourceId + ":" + identity.objectKey
    && exists i :: 0 <= i < |identity.uploadId| && !IsSpace(identity.uploadId[i])
  }

  /** What is accepted is an identity of some pair of the plan; where no two pairs share a key, each of those is. */
  lemma MatchesMeaning(transferId: string, destinations: map<string, Destination>, pairs: seq<Pair>, identity: Identity)
    requires ExpectedGroups(transferId, destinations, pairs).Ok?
    ensures var expected := ExpectedGroups(transferId, destinations, pairs).value;
            && (Matches(transferId, expected, identity) ==> exists k :: 0 <= k < |pairs| && Identifies(transferId, destinations, pairs[k], identity))
            && (KeysDiffer(transferId, destinations, pairs) ==>
                  (Matches(transferId, expected, identity) <==> exists k :: 0 <= k < |pairs| && Identifies(transferId, destinations, pairs[k], identity)))
  {
    var expected := ExpectedGroups(transferId, destinations, pairs).value;
    ExpectedMeaning(transferId, destinations, pairs);
    if Matches(transferId, expected, identity) {
      assert Wants(transferId, destinations, pairs, identity.groupId, expected[identity.groupId]);
      var k :| 0 <= k < |pairs| && IsGroup(transferId, destinations, pairs[k], identity.groupId, expected[identity.groupId]);
      assert Identifies(transferId, destinations, pairs[k], identity);
    }
    if k :| 0 <= k < |pairs| && Identifies(transferId, destinations, pairs[k], identity) {
      IdentifiedIsMultipart(transferId, destinations, pairs[k], identity);
      assert Wants(transferId, destinations, pairs, identity.groupId, expected[identity.groupId]);
      var j :| 0 <= j < |pairs| && IsGroup(transferId, destinations, pairs[j], identity.groupId, expected[identity.groupId]);
      if KeysDiffer(transferId, destinations, pairs) { assert j == k; }
    }
  }

  lemma IdentifiedIsMultipart(transferId: string, destinations: map<string, Destination>, pair: Pair, identity: Identity)
    requires Identifies(transferId, destinations, pair, identity)
    ensures Multipart(destinations, pair) && identity.groupId == KeyOf(transferId, GroupOf(destinations, pair))
  {
  }

  lemma KeysDifferSnoc(transferId: string, destinations: map<string, Destination>, pairs: seq<Pair>, last: Pair)
    ensures KeysDiffer(transferId, destinations, pairs + [last]) <==>
      && KeysDiffer(transferId, destinations, pairs)
      && (Multipart(destinations, last) ==>
            forall job :: HasKey(transferId, destinations, pairs, job) ==> job.group != JobAt(transferId, destinations, last).group)
  {
    var all := pairs + [last];
    assert all[|pairs|] == last && forall a :: 0 <= a < |pairs| ==> all[a] == pairs[a];
    if KeysDiffer(transferId, destinations, all) {
      forall a, b | 0 <= a < b < |pairs| && Multipart(destinations, pairs[a]) && Multipart(destinations, pairs[b])
        ensures JobAt(transferId, destinations, pairs[a]).group != JobAt(transferId, destinations, pairs[b]).group
      {
        assert Multipart(destinations, all[a]) && Multipart(destinations, all[b]);
      }
      forall job | Multipart(destinations, last) && HasKey(transferId, destinations, pairs, job)
        ensures job.group != JobAt(transferId, destinations, last).group
      {
        var k :| 0 <= k < |pairs| && Multipart(destinations, pairs[k]) && JobAt(transferId, destinations, pairs[k]) == job;
        assert Multipart(destinations, all[k]) && Multipart(destinations, all[|pairs|]);
      }
    } else {
      var a, b :| 0 <= a < b < |all| && Multipart(destinations, all[a]) && Multipart(destinations, all[b])
                  && JobAt(transferId, destinations, all[a]).group == JobAt(transferId, destinations, all[b]).group;
      if b == |pairs| { assert HasKey(transferId, destinations, pairs, JobAt(transferId, destinations, pairs[a])); }
    }
  }

  // ----- when do state keys differ? -----

  lemma {:induction false} PairsOfAt(source: Source, targets: seq<DestinationPlan>)
    ensures |PairsOf(source, targets)| == |targets|
    ensures forall t :: 0 <= t < |targets| ==> PairsOf(source, targets)[t] == Pair(source, targets[t])
  {
    if targets != [] { PairsOfAt(source, targets[..|targets| - 1]); }
  }

  ghost predicate DifferentIds(sources: seq<Source>, targets: seq<DestinationPlan>) {
    && (forall i, j :: 0 <= i < j < |sources| ==> sources[i].sourceId != sources[j].sourceId)
    && (forall i, j :: 0 <= i < j < |targets| ==> targets[i].destinationId != targets[j].destinationId)
  }

  /** The pairs of a plan are made of its sources and targets, each pair once. */
  lemma {:induction false} PairsMeaning(sources: seq<Source>, targets: seq<DestinationPlan>)
    requires DifferentIds(sources, targets)
    ensures forall p :: p in Pairs(sources, targets) ==> p.source in sources && p.target in targets
    ensures forall a, b :: 0 <= a < b < |Pairs(sources, targets)| ==>
      Pairs(sources, targets)[a].source.sourceId != Pairs(sources, targets)[b].source.sourceId
      || Pairs(sources, targets)[a].target.destinationId != Pairs(sources, targets)[b].target.destinationId
  {
    if sources != [] {
      var init, last := sources[..|sources| - 1], sources[|sources| - 1];
      assert sources == init + [last];
      PairsMeaning(init, targets);
      PairsOfAt(last, targets);
      var before, after := Pairs(init, targets), PairsOf(last, targets);
      assert forall a :: 0 <= a < |before| ==> before[a] in before;
      assert forall p :: p in before ==> p.source.sourceId != last.sourceId;
    }
  }

  ghost predicate PlainIds(sources: seq<Source>, targets: seq<DestinationPlan>) {
    && (forall s :: s in sources ==> Without(':', s.sourceId))
    && (forall t :: t in targets ==> Without(':', t.destinationId))
  }

  lemma SameKeySameIds(transferId: string, d: string, s: string, k: string, d': string, s': string, k': string)
    requires Without(':', d) && Without(':', s) && Without(':', d') && Without(':', s')
    requires StateKey(transferId, d, s, k) == StateKey(transferId, d', s', k')
    ensures d == d' && s == s' && k == k'
  {
    var rest, rest' := d + [':'] + (s + [':'] + k), d' + [':'] + (s' + [':'] + k');
    assert StateKey(transferId, d, s, k) == transferId + [':'] + rest;
    assert StateKey(transferId, d', s', k') == transferId + [':'] + rest';
    SeparatorAt(':', transferId, rest, 0);
    SeparatorAt(':', transferId, rest', 0);
    SplitAtFirst(':', d, s + [':'] + k, d', s' + [':'] + k');
    SplitAtFirst(':', s, k, s', k');
  }

  /** Ids that differ and hold no colon keep all keys apart, whatever the object keys are. */
  lemma PlainIdsKeepKeysApart(transferId: string, destinations: map<string, Destination>, sources: seq<Source>, targets: seq<DestinationPlan>)
    requires DifferentIds(sources, targets) && PlainIds(sources, targets)
    ensures KeysDiffer(transferId, destinations, Pairs(sources, targets))
  {
    var pairs := Pairs(sources, targets);
    PairsMeaning(sources, targets);
    forall a, b | 0 <= a < b < |pairs| && Multipart(destinations, pairs[a]) && Multipart(destinations, pairs[b])
      ensures JobAt(transferId, destinations, pairs[a]).group != JobAt(transferId, destinations, pairs[b]).group
    {
      assert pairs[a] in pairs && pairs[b] in pairs;
      if JobAt(transferId, destinations, pairs[a]).group == JobAt(transferId, destinations, pairs[b]).group {
        var ga, gb := GroupOf(destinations, pairs[a]), GroupOf(destinations, pairs[b]);
        SameKeySameIds(transferId, ga.destinationId, ga.source.sourceId, ga.objectKey, gb.destinationId, gb.source.sourceId, gb.objectKey);
      }
    }
  }

  /** Then no run of such a transfer loses sight of an upload. */
  lemma PlainIdsConserveUploads(
      transferId: string, destinations: map<string, Destination>, sources: seq<Source>, targets: seq<DestinationPlan>,
      restored: map<string, Upload>, trace: seq<Event>, h: Handle, k: Handle)
    requires DifferentIds(sources, targets) && PlainIds(sources, targets)
    requires RestoredFrom(JobsFor(transferId, destinations, Pairs(sources, targets)), restored)
    ensures Conserves(JobsFor(transferId, destinations, Pairs(sources, targets)), restored, trace, h, k)
  {
    PlainIdsKeepKeysApart(transferId, destinations, sources, targets);
    OwnGroupsIffKeysDiffer(transferId, destinations, Pairs(sources, targets));
    UploadsAreConserved(JobsFor(transferId, destinations, Pairs(sources, targets)), restored, trace, h, k);
  }

  /** With colons in them, two coordinates may have one key, */
  lemma ColonsConfuseKeys(transferId: string, objectKey: string)
    ensures StateKey(transferId, "a", "b:c", objectKey) == StateKey(transferId, "a:b", "c", objectKey)
  {
    assert "a" + ":" + "b:c" == "a:b" + ":" + "c";
    assert StateKey(transferId, "a", "b:c", objectKey) == transferId + ":" + ("a" + ":" + "b:c") + ":" + objectKey;
    assert StateKey(transferId, "a:b", "c", objectKey) == transferId + ":" + ("a:b" + ":" + "c") + ":" + objectKey;
  }

  lemma FourPairs(first: Source, second: Source, a: DestinationPlan, b: DestinationPlan)
    ensures Pairs([first, second], [a, b]) == [Pair(first, a), Pair(first, b), Pair(second, a), Pair(second, b)]
  {
    PairsOfAt(first, [a, b]);
    PairsOfAt(second, [a, b]);
    assert [first, second][..1] == [first] && [first][..0] == [];
    assert Pairs([first], [a, b]) == Pairs([], [a, b]) + PairsOf(first, [a, b]);
  }

  /** so that a plan with different ids gives two workers one group. */
  lemma ColonsShareAGroup(transferId: string, destinations: map<string, Destination>)
    requires "a" in destinations && "a:b" in destinations && destinations["a"].S3Compatible? && destinations["a:b"].S3Compatible?
    ensures var sources := [Source("b:c", 1, 1), Source("c", 1, 1)];
            var targets := [DestinationPlan("a", map["b:c" := "k", "c" := "x"]), DestinationPlan("a:b", map["b:c" := "x", "c" := "k"])];
            && ExpectedGroups(transferId, destinations, Pairs(sources, targets)).Ok?
            && !OwnGroups(JobsFor(transferId, destinations, Pairs(sources, targets)))
  {
    var first, second := Source("b:c", 1, 1), Source("c", 1, 1);
    var a, ab := DestinationPlan("a", map["b:c" := "k", "c" := "x"]), DestinationPlan("a:b", map["b:c" := "x", "c" := "k"]);
    var pairs := Pairs([first, second], [a, ab]);
    FourPairs(first, second, a, ab);
    ExpectedMeaning(transferId, destinations, pairs);
    ColonsConfuseKeys(transferId, "k");
    OwnGroupsIffKeysDiffer(transferId, destinations, pairs);
    assert Multipart(destinations, pairs[0]) && Multipart(destinations, pairs[3]);
    assert JobAt(transferId, destinations, pairs[0]).group == JobAt(transferId, destinations, pairs[3]).group;
  }

  // ----- resumed transfers -----

  /** The groups of the jobs are those a restore expects, even when jobs share them. */
  lemma JobsAreExpected(transferId: string, destinations: map<string, Destination>, pairs: seq<Pair>, job: Job)
    requires ExpectedGroups(transferId, destinations, pairs).Ok? && job in JobsFor(transferId, destinations, pairs)
    ensures job.group in ExpectedGroups(transferId, destinations, pairs).value
  {
    JobsMeaning(transferId, destinations, pairs);
    ExpectedMeaning(transferId, destinations, pairs);
    assert HasKey(transferId, destinations, pairs, job);
    var k :| 0 <= k < |pairs| && Multipart(destinations, pairs[k]) && JobAt(transferId, destinations, pairs[k]) == job;
  }

  /** What a restore leaves behind is restored from the plan's jobs, as the conservation theorem asks. */
  lemma RestoredFromJobs(
      transferId: string, destinations: map<string, Destination>, pairs: seq<Pair>, identities: seq<Identity>, now: map<string, Upload>)
    requires ExpectedGroups(transferId, destinations, pairs).Ok?
    requires var expected := ExpectedGroups(transferId, destinations, pairs).value;
             |expected| == |identities| && Acceptable(transferId, expected, {}, identities) && Restored(expected, map[], identities, now)
    ensures RestoredFrom(JobsFor(transferId, destinations, pairs), now)
  {
    var expected, jobs := ExpectedGroups(transferId, destinations, pairs).value, JobsFor(transferId, destinations, pairs);
    RestoredCoversPlan(transferId, expected, identities, now);
    ExpectedMeaning(transferId, destinations, pairs);
    JobsMeaning(transferId, destinations, pairs);
    forall g | g in now ensures now[g].uploadId != "" && RestoredJob(jobs, g, now[g]) {
      var group := expected[g];
      assert Wants(transferId, destinations, pairs, g, group);
      var k :| 0 <= k < |pairs| && IsGroup(transferId, destinations, pairs[k], g, group);
      assert HasKey(transferId, destinations, pairs, JobAt(transferId, destinations, pairs[k]));
      assert JobAt(transferId, destinations, pairs[k]) in jobs;
      var j :| 0 <= j < |jobs| && jobs[j] == JobAt(transferId, destinations, pairs[k]);
      assert jobs[j] == Job(g, now[g].destination, now[g].objectKey);
    }
  }

  /**
   After a successful restore, no run before disposal creates anything: every job streams, and every group is shown and
   published, under its saved id, even when ids collide.
   */
  lemma ResumedTransferCreatesNothing(
      transferId: string, destinations: map<string, Destination>, pairs: seq<Pair>,
      identities: seq<Identity>, now: map<string, Upload>, trace: seq<Event>, identity: Identity, h: Handle)
    requires ExpectedGroups(transferId, destinations, pairs).Ok?
    requires var expected := ExpectedGroups(transferId, destinations, pairs).value;
             |expected| == |identities| && Acceptable(transferId, expected, {}, identities) && Restored(expected, map[], identities, now)
    requires forall k :: 0 <= k < |trace| ==> !trace[k].Dispose?
    requires identity in identities && h.group == identity.groupId
    ensures var s0 := Init(JobsFor(transferId, destinations, pairs), now);
            var s := Execute(s0, trace);
            && (h in s.returned ==> h.uploadId == identity.uploadId) && s.returned == s0.returned
            && (Shown(s, h) || h in s.published ==> h.uploadId == identity.uploadId)
            && identity.groupId in s.uploads && s.uploads[identity.groupId].uploadId == identity.uploadId
  {
    var expected, jobs := ExpectedGroups(transferId, destinations, pairs).value, JobsFor(transferId, destinations, pairs);
    RestoredCoversPlan(transferId, expected, identities, now);
    forall j | 0 <= j < |jobs| ensures jobs[j].group in now {
      JobsAreExpected(transferId, destinations, pairs, jobs[j]);
    }
    ResumeCreatesNothing(jobs, now, trace);
    var i :| 0 <= i < |identities| && identities[i] == identity;
    assert now[identity.groupId] == RestoredUpload(expected, identity);
  }
}
