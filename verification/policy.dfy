/** The policy engine: a pure evaluation of a request against a loaded rule set,
    running four independent checks and collecting every violation. */
module Policy {
  import opened Wrappers
  import Text

  /** A certificate request; every field may be absent, as in the source's dictionary. */
  datatype Request = Request(
    commonName: Option<string>,
    algorithm: Option<string>,
    keySize: Option<int>,
    validityDays: Option<int>)

  /** The loaded policy document. `forbidden` is None when the document has no such key. */
  datatype RuleSet = RuleSet(
    allowed: seq<string>,
    forbidden: Option<seq<string>>,
    minKeySizes: map<string, int>,
    maxValidity: int)
  {
    /** The forbidden list, empty when the document has none. */
    function ForbiddenList(): seq<string> {
      forbidden.GetOr([])
    }
  }

  /** Why a request is refused; each carries the values its message reports. */
  datatype Violation =
    | AlgorithmNotAllowed(algorithm: string, allowed: seq<string>)
    | KeyTooSmall(algorithm: string, minimum: int, actual: int)
    | ValidityTooLong(days: int, maximum: int)
    | AlgorithmForbidden(algorithm: string)

  /** Advice that does not block the request. */
  datatype Warning = MinimumKeySize(minimum: int)

  datatype Verdict = Verdict(approved: bool, violations: seq<Violation>, warnings: seq<Warning>)

  /** The request's defaults: algorithm "rsa" (then lower-cased), key size 0, validity 365 days. */
  function AlgorithmOf(req: Request): string {
    Text.AsciiLower(req.algorithm.GetOr("rsa"))
  }

  function KeySizeOf(req: Request): int {
    req.keySize.GetOr(0)
  }

  function ValidityOf(req: Request): int {
    req.validityDays.GetOr(365)
  }

  /** Check 1: the algorithm must be in the allowed list. */
  function AllowedCheck(rules: RuleSet, algorithm: string): seq<Violation> {
    if algorithm !in rules.allowed then [AlgorithmNotAllowed(algorithm, rules.allowed)] else []
  }

  /** Check 2, when the algorithm has a minimum: below it is a violation, exactly at it a warning. */
  function KeySizeCheck(rules: RuleSet, algorithm: string, size: int): (seq<Violation>, seq<Warning>) {
    if algorithm in rules.minKeySizes then
      var minimum := rules.minKeySizes[algorithm];
      if size < minimum then ([KeyTooSmall(algorithm, minimum, size)], [])
      else if size == minimum then ([], [MinimumKeySize(minimum)])
      else ([], [])
    else ([], [])
  }

  /** Check 3: the validity must not exceed the maximum. */
  function ValidityCheck(rules: RuleSet, days: int): seq<Violation> {
    if days > rules.maxValidity then [ValidityTooLong(days, rules.maxValidity)] else []
  }

  /** Check 4: the algorithm must not be in the forbidden list. */
  function ForbiddenCheck(rules: RuleSet, algorithm: string): seq<Violation> {
    if algorithm in rules.ForbiddenList() then [AlgorithmForbidden(algorithm)] else []
  }

  /** `validate_request`: all four checks run; approval means no violation at all. */
  function ValidateRequest(rules: RuleSet, req: Request): (v: Verdict)
    ensures v.approved <==> |v.violations| == 0
    ensures |v.violations| <= 4
    ensures |v.warnings| <= 1
  {
    var algorithm := AlgorithmOf(req);
    var (sizeViolations, warnings) := KeySizeCheck(rules, algorithm, KeySizeOf(req));
    var violations := AllowedCheck(rules, algorithm)
                      + sizeViolations
                      + ValidityCheck(rules, ValidityOf(req))
                      + ForbiddenCheck(rules, algorithm);
    Verdict(|violations| == 0, violations, warnings)
  }

  /** The position of each check in the evaluation order. */
  function Rank(v: Violation): nat {
    match v
    case AlgorithmNotAllowed(_, _) => 0
    case KeyTooSmall(_, _, _) => 1
    case ValidityTooLong(_, _) => 2
    case AlgorithmForbidden(_) => 3
  }

  /** Violations appear in check order (allowed, key size, validity, forbidden),
      so each check contributes at most one. */
  lemma {:induction false} ViolationsInCheckOrder(rules: RuleSet, req: Request)
    ensures var vs := ValidateRequest(rules, req).violations;
            forall i, j :: 0 <= i < j < |vs| ==> Rank(vs[i]) < Rank(vs[j])
  {
    var algorithm := AlgorithmOf(req);
    var a := AllowedCheck(rules, algorithm);
    var k := KeySizeCheck(rules, algorithm, KeySizeOf(req)).0;
    var d := ValidityCheck(rules, ValidityOf(req));
    var f := ForbiddenCheck(rules, algorithm);
    var vs := ValidateRequest(rules, req).violations;
    assert vs == a + k + d + f;
    forall i | 0 <= i < |vs|
      ensures Rank(vs[i]) == (if i < |a| then 0
                              else if i < |a| + |k| then 1
                              else if i < |a| + |k| + |d| then 2
                              else 3)
    {
    }
  }

  /** Each violation is present exactly when its check fails, and nothing else is reported. */
  lemma ViolationsCharacterized(rules: RuleSet, req: Request)
    ensures var v := ValidateRequest(rules, req);
            var alg := AlgorithmOf(req);
            && (AlgorithmNotAllowed(alg, rules.allowed) in v.violations <==> alg !in rules.allowed)
            && ((exists x :: x in v.violations && x.KeyTooSmall?)
                <==> alg in rules.minKeySizes && KeySizeOf(req) < rules.minKeySizes[alg])
            && (ValidityTooLong(ValidityOf(req), rules.maxValidity) in v.violations
                <==> ValidityOf(req) > rules.maxValidity)
            && (AlgorithmForbidden(alg) in v.violations <==> alg in rules.ForbiddenList())
            && (forall x :: x in v.violations ==> (|| x == AlgorithmNotAllowed(alg, rules.allowed)
                                                  || (alg in rules.minKeySizes
                                                      && x == KeyTooSmall(alg, rules.minKeySizes[alg], KeySizeOf(req)))
                                                  || x == ValidityTooLong(ValidityOf(req), rules.maxValidity)
                                                  || x == AlgorithmForbidden(alg)))
  {
    var v := ValidateRequest(rules, req);
    var alg := AlgorithmOf(req);
    var k := KeySizeCheck(rules, alg, KeySizeOf(req)).0;
    assert v.violations == AllowedCheck(rules, alg) + k + ValidityCheck(rules, ValidityOf(req))
                           + ForbiddenCheck(rules, alg);
    if alg in rules.minKeySizes && KeySizeOf(req) < rules.minKeySizes[alg] {
      assert k[0].KeyTooSmall? && k[0] in v.violations;
    }
  }

  /** Warnings: exactly one, when the key size equals the algorithm's minimum; none otherwise.
      Warnings never affect approval. */
  lemma WarningsCharacterized(rules: RuleSet, req: Request)
    ensures var v := ValidateRequest(rules, req);
            var alg := AlgorithmOf(req);
            v.warnings == (if alg in rules.minKeySizes && KeySizeOf(req) == rules.minKeySizes[alg]
                           then [MinimumKeySize(rules.minKeySizes[alg])] else [])
  {
  }

  /** An algorithm in the forbidden list is never approved, whatever the other fields are. */
  lemma ForbiddenNeverApproved(rules: RuleSet, req: Request)
    requires AlgorithmOf(req) in rules.ForbiddenList()
    ensures !ValidateRequest(rules, req).approved
    ensures AlgorithmForbidden(AlgorithmOf(req)) in ValidateRequest(rules, req).violations
  {
  }

  /** An algorithm both outside the allowed list and forbidden yields two distinct
      violations, the first and the last. */
  lemma NotAllowedAndForbidden(rules: RuleSet, req: Request)
    requires AlgorithmOf(req) !in rules.allowed
    requires AlgorithmOf(req) in rules.ForbiddenList()
    ensures var vs := ValidateRequest(rules, req).violations;
            && |vs| >= 2
            && vs[0] == AlgorithmNotAllowed(AlgorithmOf(req), rules.allowed)
            && vs[|vs| - 1] == AlgorithmForbidden(AlgorithmOf(req))
  {
  }

  /** The key size check: below the minimum is a violation; at the minimum exactly one
      warning and no key-size violation; above it, nothing. */
  lemma KeySizeBoundary(rules: RuleSet, req: Request)
    requires AlgorithmOf(req) in rules.minKeySizes
    ensures var v := ValidateRequest(rules, req);
            var alg := AlgorithmOf(req);
            var minimum := rules.minKeySizes[alg];
            && (KeySizeOf(req) < minimum ==> KeyTooSmall(alg, minimum, KeySizeOf(req)) in v.violations
                                             && v.warnings == [])
            && (KeySizeOf(req) == minimum ==> (forall x :: x in v.violations ==> !x.KeyTooSmall?)
                                              && v.warnings == [MinimumKeySize(minimum)])
            && (KeySizeOf(req) > minimum ==> (forall x :: x in v.violations ==> !x.KeyTooSmall?)
                                             && v.warnings == [])
  {
  }

  /** The validity check: strictly above the maximum is exactly one violation; at the maximum,
      none. A missing validity counts as 365 days and a missing key size as 0. */
  lemma ValidityBoundary(rules: RuleSet, req: Request)
    ensures var vs := ValidateRequest(rules, req).violations;
            && (ValidityOf(req) > rules.maxValidity
                ==> multiset(vs)[ValidityTooLong(ValidityOf(req), rules.maxValidity)] == 1)
            && (ValidityOf(req) <= rules.maxValidity ==> forall x :: x in vs ==> !x.ValidityTooLong?)
    ensures req.validityDays.None? ==> ValidityOf(req) == 365
    ensures req.keySize.None? ==> KeySizeOf(req) == 0
  {
  }

  /** Only the lower-cased algorithm matters: requests whose algorithms differ only in
      letter case get the same verdict, and a missing algorithm is evaluated as "rsa". */
  lemma AlgorithmCaseInsensitive(rules: RuleSet, req: Request, other: Request)
    requires req.algorithm.Some? && other.algorithm.Some?
    requires Text.AsciiLower(req.algorithm.value) == Text.AsciiLower(other.algorithm.value)
    requires req.keySize == other.keySize && req.validityDays == other.validityDays
    ensures ValidateRequest(rules, req) == ValidateRequest(rules, other)
    ensures ValidateRequest(rules, req.(algorithm := None))
            == ValidateRequest(rules, req.(algorithm := Some("rsa")))
  {
  }
}
