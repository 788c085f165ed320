/** The quorum check on a DON-signed report (packages/cre/bridge/report.ts). */
module ReportSignatures {
  import opened Basics

  newtype byte = x: int | 0 <= x < 256

  type Address = string

  datatype SignedReport = SignedReport(rawReport: seq<byte>, context: seq<byte>, signatures: seq<seq<byte>>)

  /** A DON's fault tolerance and its signers. */
  datatype SignerSet = SignerSet(f: nat, signers: set<Address>)

  /** Who signed the digest of a raw report and its context; None when recovery throws. */
  type Recovery = (seq<byte>, seq<byte>, seq<byte>) -> Option<Address>

  const SIGNATURE_BYTES: nat := 65

  /** Ethereum's 27 and 28 are the recovery ids 0 and 1. */
  function Normalized(signature: seq<byte>): seq<byte>
    requires |signature| == SIGNATURE_BYTES
  {
    if signature[64] >= 27 then signature[64 := signature[64] - 27] else signature
  }

  /** The member of the set that one signature shows. */
  function Signer(report: SignedReport, signers: SignerSet, recover: Recovery, signature: seq<byte>): Option<Address> {
    if |signature| != SIGNATURE_BYTES then None
    else
      match recover(report.rawReport, report.context, Normalized(signature))
      case Some(signer) => if signer in signers.signers then Some(signer) else None
      case None => None
  }

  /** Two signatures that differ at most in writing the recovery id with Ethereum's offset of 27. */
  ghost predicate SameSignature(a: seq<byte>, b: seq<byte>) {
    && |a| == |b| == 65 && a[..64] == b[..64]
    && (a[64] as int == b[64] as int || (b[64] < 27 && a[64] as int == b[64] as int + 27) || (a[64] < 27 && b[64] as int == a[64] as int + 27))
  }

  /** Either way of writing it shows the same signer. */
  lemma ConventionIsIrrelevant(report: SignedReport, signers: SignerSet, recover: Recovery, a: seq<byte>, b: seq<byte>)
    requires SameSignature(a, b)
    ensures Signer(report, signers, recover, a) == Signer(report, signers, recover, b)
  {
    assert a == a[..64] + [a[64]] && b == b[..64] + [b[64]];
    assert Normalized(a) == Normalized(b);
  }

  /** What a signature shows: the address recovered from its first 64 bytes and its recovery id, when that is a member. */
  lemma SignerMeaning(report: SignedReport, signers: SignerSet, recover: Recovery, signature: seq<byte>, a: Address)
    requires |signature| == 65 && signature[64] < 27
    ensures Signer(report, signers, recover, signature) == Some(a) <==>
            recover(report.rawReport, report.context, signature) == Some(a) && a in signers.signers
  {
  }

  ghost predicate Signed(report: SignedReport, signers: SignerSet, recover: Recovery, signer: Address) {
    exists k :: 0 <= k < |report.signatures| && Signer(report, signers, recover, report.signatures[k]) == Some(signer)
  }

  /** The distinct members of the set that signed, in the order of their first signatures. */
  function Seen(report: SignedReport, signers: SignerSet, recover: Recovery, n: nat): seq<Address>
    requires n <= |report.signatures|
  {
    if n == 0 then []
    else
      var before := Seen(report, signers, recover, n - 1);
      match Signer(report, signers, recover, report.signatures[n - 1])
      case Some(signer) => if signer in before then before else before + [signer]
      case None => before
  }

  ghost predicate Distinct(s: seq<Address>) {
    forall i, j :: 0 <= i < j < |s| ==> s[i] != s[j]
  }

  lemma {:induction false} SeenMeaning(report: SignedReport, signers: SignerSet, recover: Recovery, n: nat)
    requires n <= |report.signatures|
    ensures Distinct(Seen(report, signers, recover, n))
    ensures forall a :: a in Seen(report, signers, recover, n) <==>
      exists k :: 0 <= k < n && Signer(report, signers, recover, report.signatures[k]) == Some(a)
  {
    if n > 0 { SeenMeaning(report, signers, recover, n - 1); }
  }

  lemma {:induction false} SeenGrows(report: SignedReport, signers: SignerSet, recover: Recovery, m: nat, n: nat)
    requires m <= n <= |report.signatures|
    ensures Seen(report, signers, recover, m) <= Seen(report, signers, recover, n)
    decreases n - m
  {
    if m < n { SeenGrows(report, signers, recover, m, n - 1); }
  }

  /** f+1 distinct members of the set signed the report. */
  ghost predicate Quorum(report: SignedReport, signers: SignerSet, recover: Recovery, accepted: seq<Address>) {
    && |accepted| == signers.f + 1 && Distinct(accepted)
    && forall a :: a in accepted ==> a in signers.signers && Signed(report, signers, recover, a)
  }

  lemma SeenIsQuorum(report: SignedReport, signers: SignerSet, recover: Recovery, n: nat)
    requires n <= |report.signatures| && |Seen(report, signers, recover, n)| == signers.f + 1
    ensures Quorum(report, signers, recover, Seen(report, signers, recover, n))
  {
    SeenMeaning(report, signers, recover, n);
  }

  lemma {:induction false} SetOf(s: seq<Address>)
    requires Distinct(s)
    ensures |set a | a in s| == |s|
  {
    if s != [] {
      var init, last := s[..|s| - 1], s[|s| - 1];
      SetOf(init);
      assert (set a | a in s) == (set a | a in init) + {last};
    } else {
      assert (set a | a in s) == {};
    }
  }

  /** A quorum exists exactly when at least f+1 members were seen over all signatures. */
  lemma QuorumIff(report: SignedReport, signers: SignerSet, recover: Recovery)
    ensures (exists accepted :: Quorum(report, signers, recover, accepted)) <==>
            |Seen(report, signers, recover, |report.signatures|)| > signers.f
  {
    var seen := Seen(report, signers, recover, |report.signatures|);
    SeenMeaning(report, signers, recover, |report.signatures|);
    if |seen| > signers.f {
      var accepted := seen[..signers.f + 1];
      forall a | a in accepted ensures a in signers.signers && Signed(report, signers, recover, a) { assert a in seen; }
      assert Quorum(report, signers, recover, accepted);
    }
    if accepted :| Quorum(report, signers, recover, accepted) {
      assert forall a :: a in accepted ==> a in seen;
      SetOf(accepted);
      SetOf(seen);
      assert (set a | a in accepted) <= (set a | a in seen);
      SubsetSize(set a | a in accepted, set a | a in seen);
    }
  }

  lemma SubsetSize(a: set<Address>, b: set<Address>)
    requires a <= b
    ensures |a| <= |b|
  {
    assert b == a + (b - a);
  }

  /**
   Accepts exactly when f+1 distinct signers of the set can be found, and then returns f+1 of them: those whose
   signatures come first. None is the source's exception.
   */
  method VerifyReportSignatures(report: SignedReport, signers: SignerSet, recover: Recovery) returns (result: Option<seq<Address>>)
    ensures result.Some? <==> exists accepted :: Quorum(report, signers, recover, accepted)
    ensures result.Some? ==>
      Quorum(report, signers, recover, result.value) && result.value <= Seen(report, signers, recover, |report.signatures|)
  {
    var required := signers.f + 1;
    var accepted: seq<Address> := [];
    var n := 0;
    while n < |report.signatures| && |accepted| != required
      invariant 0 <= n <= |report.signatures|
      invariant accepted == Seen(report, signers, recover, n) && |accepted| <= required
    {
      var signer := Signer(report, signers, recover, report.signatures[n]);
      if signer.Some? && signer.value !in accepted { accepted := accepted + [signer.value]; }
      n := n + 1;
    }
    SeenGrows(report, signers, recover, n, |report.signatures|);
    QuorumIff(report, signers, recover);
    if |accepted| < required { return None; }
    SeenIsQuorum(report, signers, recover, n);
    return Some(accepted);
  }
}
