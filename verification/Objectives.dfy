/** Signed objective approvals and independent validation receipts.

    A signature is an oracle bit on the envelope; a digest is the value it was computed from. */
module Objectives {
  import opened Results
  import opened Candidates

  // --------------------------------------------------------------- field checks

  predicate IsSpace(c: char) {
    c == ' ' || '\t' <= c <= '\r'
  }

  function StripLeft(s: string): string {
    if s != [] && IsSpace(s[0]) then StripLeft(s[1..]) else s
  }

  function StripRight(s: string): string {
    if s != [] && IsSpace(s[|s| - 1]) then StripRight(s[..|s| - 1]) else s
  }

  predicate IsText(value: string, maximum: nat) {
    && 0 < |StripRight(StripLeft(value))| <= maximum
    && forall c | c in value :: c >= ' ' || c == '\n' || c == '\t'
  }

  predicate IsSha(value: string, length: nat) {
    |value| == length && forall c | c in value :: '0' <= c <= '9' || 'a' <= c <= 'f'
  }

  predicate Distinct<T(==)>(items: seq<T>) {
    forall i, j | 0 <= i < j < |items| :: items[i] != items[j]
  }

  predicate IsStrings(items: seq<string>, maximum: nat) {
    && 0 < |items| <= maximum
    && (forall s | s in items :: IsText(s, 4096))
    && Distinct(items)
  }

  function Elements<T(!new)>(items: seq<T>): (r: set<T>)
    ensures forall x :: x in r <==> x in items
  {
    set x | x in items
  }

  // --------------------------------------------------------------- observations

  datatype Status = StatusPassed | StatusFailed | StatusBlocked | StatusNotRun

  datatype Check = Check(
    name: string,
    status: Status,
    exitCode: Option<int>,
    candidate: Binding,
    testsRun: Option<int>,
    passed: Option<int>,
    failed: Option<int>,
    errors: Option<int>,
    skipped: Option<int>,
    skipIds: seq<string>)

  predicate IsCheckName(name: string) {
    && 1 <= |name| <= 64
    && 'a' <= name[0] <= 'z'
    && forall c | c in name :: 'a' <= c <= 'z' || '0' <= c <= '9' || c == '-'
  }

  predicate Counted(n: Option<int>) {
    n.Some? && 0 <= n.value <= 1000000
  }

  predicate HasCounts(c: Check) {
    c.testsRun.Some? || c.passed.Some? || c.failed.Some? || c.errors.Some? || c.skipped.Some?
  }

  predicate ConsistentCounts(c: Check) {
    && Counted(c.testsRun) && Counted(c.passed) && Counted(c.failed) && Counted(c.errors) && Counted(c.skipped)
    && c.testsRun.value == c.passed.value + c.failed.value + c.errors.value + c.skipped.value
    && (c.status == StatusPassed ==>
          c.passed.value > 0 && c.failed.value == 0 && c.errors.value == 0 && c.skipped.value == |c.skipIds|)
    && (c.status == StatusPassed || c.status == StatusFailed)
  }

  /** `Check.validate`. */
  predicate ValidCheck(c: Check) {
    && IsCheckName(c.name)
    && (if c.status == StatusPassed || c.status == StatusFailed
        then c.exitCode.Some? && 0 <= c.exitCode.value <= 255 && (c.exitCode.value == 0 <==> c.status == StatusPassed)
        else c.exitCode.None?)
    && |c.skipIds| <= 64 && Distinct(c.skipIds)
    && (if HasCounts(c) then ConsistentCounts(c) else c.skipIds == [])
  }

  const COUNTED_CHECKS: set<string> := {"python-suite", "controller-tests", "red-package-boundary"}

  function Names(checks: seq<Check>): set<string> {
    set c | c in checks :: c.name
  }

  predicate DistinctNames(checks: seq<Check>) {
    forall i, j | 0 <= i < j < |checks| :: checks[i].name != checks[j].name
  }

  // ------------------------------------------------------- envelopes and approvals

  datatype TrustKey = TrustKey(owner: string, role: string)

  datatype Envelope<+P> = Envelope(keyId: string, payload: P, signatureValid: bool)

  predicate EnvelopeVerified<P>(e: Envelope<P>, keys: map<string, TrustKey>, role: string) {
    IsText(e.keyId, 128) && e.keyId in keys && keys[e.keyId].role == role && e.signatureValid
  }

  datatype Limits = Limits(
    maxBatches: nat,
    maxRepairsPerBatch: nat,
    maxAttempts: nat,
    maxWallSeconds: nat,
    maxTokens: nat,
    maxCostMicrousd: nat)

  datatype Approval = Approval(
    objectiveId: string,
    owner: string,
    digest: string,
    task: Task,
    approvedAt: int,
    expiresAt: int,
    limits: Limits,
    releaseAuthorized: bool,
    releaseTag: string)

  // -------------------------------------------------------------------- receipts

  const PLATFORMS: set<string> := {"ubuntu-py311", "ubuntu-py314", "windows-py311", "windows-py314"}
  const MAX_TIME := 0x20_0000_0000_0000 - 1
  const RUN_URL := "https://github.com/kostekdolata/NightRecon/actions/runs/"

  predicate TrustedRunUrl(url: string) {
    && |RUN_URL| < |url| && url[..|RUN_URL|] == RUN_URL
    && '1' <= url[|RUN_URL|] <= '9'
    && forall c | c in url[|RUN_URL|..] :: '0' <= c <= '9'
  }

  datatype ReceiptClaim = ReceiptClaim(
    approvalDigest: string,
    policyDigest: string,
    candidate: Binding,
    parentSha: string,
    batch: int,
    validator: string,
    worker: string,
    issuedAt: int,
    expiresAt: int,
    platforms: seq<string>,
    checks: seq<Check>,
    runUrls: seq<string>)

  datatype Receipt = Receipt(
    candidate: Binding,
    parentSha: string,
    batch: int,
    validator: string,
    checks: seq<Check>,
    runUrls: seq<string>,
    envelope: Envelope<ReceiptClaim>)

  /** `ExecutedFailure` is the one refusal that permits a repair. */
  datatype Verdict = Verified(receipt: Receipt) | ExecutedFailure | Refused

  predicate HeaderVerified(e: Envelope<ReceiptClaim>, approval: Approval, candidate: Candidate, policy: Policy,
                           keys: map<string, TrustKey>, parentSha: string, batch: int, now: int) {
    && EnvelopeVerified(e, keys, "validator")
    && e.payload.approvalDigest == approval.digest && e.payload.policyDigest == policy.digest
    && candidate.taskId == approval.task.id && candidate.ScopeValid()
    && e.payload.candidate == candidate.digest
    && IsSha(e.payload.parentSha, 40) && e.payload.parentSha == parentSha
    && e.payload.batch == batch
    && e.payload.validator == keys[e.keyId].owner && e.payload.worker != keys[e.keyId].owner
    && 0 <= e.payload.issuedAt <= MAX_TIME && 1 <= e.payload.expiresAt <= MAX_TIME
    && approval.approvedAt <= e.payload.issuedAt <= now < e.payload.expiresAt <= approval.expiresAt
    && IsStrings(e.payload.platforms, 4) && Elements(e.payload.platforms) == PLATFORMS
    && |e.payload.checks| <= 128
  }

  predicate Observed(c: Check, candidate: Binding, policy: Policy) {
    ValidCheck(c) && Elements(c.skipIds) <= policy.allowedSkipIds && c.candidate == candidate
  }

  predicate PassingEvidence(c: Check, candidate: Binding, policy: Policy) {
    Observed(c, candidate, policy) && c.status == StatusPassed && (c.name in COUNTED_CHECKS ==> c.testsRun.Some?)
  }

  predicate TailVerified(claim: ReceiptClaim, policy: Policy) {
    && DistinctNames(claim.checks)
    && policy.requiredChecks <= Names(claim.checks)
    && IsStrings(claim.runUrls, 128)
    && forall u | u in claim.runUrls :: TrustedRunUrl(u)
  }

  /** A receipt stands exactly when all of this holds. */
  predicate ReceiptStands(e: Envelope<ReceiptClaim>, approval: Approval, candidate: Candidate, policy: Policy,
                          keys: map<string, TrustKey>, parentSha: string, batch: int, now: int) {
    && HeaderVerified(e, approval, candidate, policy, keys, parentSha, batch, now)
    && (forall c | c in e.payload.checks :: PassingEvidence(c, candidate.digest, policy))
    && TailVerified(e.payload, policy)
  }

  /** A genuinely executed failure: everything before the first failed check is in order. */
  predicate FailureStands(e: Envelope<ReceiptClaim>, approval: Approval, candidate: Candidate, policy: Policy,
                          keys: map<string, TrustKey>, parentSha: string, batch: int, now: int) {
    && HeaderVerified(e, approval, candidate, policy, keys, parentSha, batch, now)
    && exists i | 0 <= i < |e.payload.checks| ::
         && e.payload.checks[i].status == StatusFailed
         && Observed(e.payload.checks[i], candidate.digest, policy)
         && forall j | 0 <= j < i :: PassingEvidence(e.payload.checks[j], candidate.digest, policy)
  }

  /** `verify_receipt`. The three verdicts are told apart exactly. */
  method VerifyReceipt(e: Envelope<ReceiptClaim>, approval: Approval, candidate: Candidate, policy: Policy,
                       keys: map<string, TrustKey>, parentSha: string, batch: int, now: int)
    returns (v: Verdict)
    ensures v.Verified? <==> ReceiptStands(e, approval, candidate, policy, keys, parentSha, batch, now)
    ensures v.ExecutedFailure? <==> FailureStands(e, approval, candidate, policy, keys, parentSha, batch, now)
    ensures v.Verified? ==>
      v.receipt == Receipt(candidate.digest, parentSha, batch, e.payload.validator, e.payload.checks,
          e.payload.runUrls, e)
  {
    if !HeaderVerified(e, approval, candidate, policy, keys, parentSha, batch, now) {
      return Refused;
    }
    var claim := e.payload;
    var i := 0;
    while i < |claim.checks|
      invariant 0 <= i <= |claim.checks|
      invariant forall j | 0 <= j < i :: PassingEvidence(claim.checks[j], candidate.digest, policy)
    {
      var c := claim.checks[i];
      assert c in e.payload.checks;
      if !Observed(c, candidate.digest, policy) {
        return Refused;
      }
      if c.status == StatusFailed {
        return ExecutedFailure;
      }
      if c.status != StatusPassed || (c.name in COUNTED_CHECKS && c.testsRun.None?) {
        return Refused;
      }
      i := i + 1;
    }
    if !TailVerified(claim, policy) {
      return Refused;
    }
    return Verified(Receipt(candidate.digest, parentSha, batch, claim.validator, claim.checks, claim.runUrls, e));
  }

  // ---------------------------------------------------------------------- acceptance

  /** What the validator signs about the whole objective at its published head. */
  datatype AcceptanceClaim = AcceptanceClaim(
    approvalDigest: string,
    candidate: Binding,
    headSha: string,
    criteria: seq<string>,
    passed: bool)

  predicate AcceptanceStands(e: Envelope<AcceptanceClaim>, approval: Approval, keys: map<string, TrustKey>,
                             candidate: Binding, head: string) {
    && EnvelopeVerified(e, keys, "validator")
    && e.payload.approvalDigest == approval.digest && e.payload.candidate == candidate
    && e.payload.headSha == head && e.payload.passed
    && IsStrings(e.payload.criteria, 20) && Elements(e.payload.criteria) == approval.task.acceptanceCriteria
  }

  /** A receipt or an executed failure speaks about a candidate through its digest alone. */
  lemma DigestDecides(e: Envelope<ReceiptClaim>, approval: Approval, a: Candidate, b: Candidate, policy: Policy,
                      keys: map<string, TrustKey>, parentSha: string, batch: int, now: int)
    requires a.digest == b.digest && a.taskId == b.taskId && a.ScopeValid() == b.ScopeValid()
    ensures ReceiptStands(e, approval, a, policy, keys, parentSha, batch, now) ==
      ReceiptStands(e, approval, b, policy, keys, parentSha, batch, now)
    ensures FailureStands(e, approval, a, policy, keys, parentSha, batch, now) ==
      FailureStands(e, approval, b, policy, keys, parentSha, batch, now)
  {
    assert HeaderVerified(e, approval, a, policy, keys, parentSha, batch, now) ==
      HeaderVerified(e, approval, b, policy, keys, parentSha, batch, now);
  }
}
