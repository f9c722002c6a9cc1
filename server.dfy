/** Model of the decision logic of `server.js`: `normalizeResult`, which
    turns the validator's output (and the optional multi-API assessment)
    into the final verdict, and `getReason`, which names why an address is
    rejected. */
module Server {
  import opened Text

  /** `result.validators.smtp`, when present. */
  datatype SmtpValidator = SmtpValidator(valid: Option<bool>, reason: Option<string>)

  /** The fields of the validator's result that the decision reads. Flags
      the code compares with `=== true` are booleans; `valid` may be
      absent; an empty string is falsy; `securityScore` may be absent. */
  datatype ValidatorResult = ValidatorResult(
    valid: Option<bool>, reason: string,
    disposable: bool, typo: bool, role: bool, breached: bool, breachCount: int,
    mxRecord: string, mxDomain: string, spf: bool, acceptAll: bool,
    securityScore: Option<int>, smtp: Option<SmtpValidator>)

  /** The multi-API assessment, once its score is computed. */
  datatype Enhanced = Enhanced(confidenceScore: int, disifyDisposable: bool)

  predicate IsLikelyValid(e: Enhanced) { e.confidenceScore >= 50 }

  predicate IsDefinitelyInvalid(e: Enhanced) { e.confidenceScore < 30 }

  datatype Status = Unknown | Valid | Invalid

  /** The part of the normalised output the decision determines. */
  datatype Normalized = Normalized(status: Status, valid: bool, reason: string, securityScore: int,
                                   disposable: bool, breached: bool)

  predicate HasMx(r: ValidatorResult) { r.mxRecord != [] && r.mxDomain != [] }

  /** `result.security_score || 0`. */
  function ScoreOrZero(r: ValidatorResult): int
  {
    match r.securityScore
    case None => 0
    case Some(s) => s
  }

  /** The SMTP probe definitively reported a missing mailbox: its `valid` is
      anything but `true` and its reason is 'mailbox_not_found'. */
  predicate SmtpRejects(r: ValidatorResult)
  {
    r.smtp.Some? && r.smtp.value.valid != Some(true) && r.smtp.value.reason == Some("mailbox_not_found")
  }

  /** The enhanced path accepts exactly: a score of 50 or more with MX
      records, or a score from 35 to 49 with MX records and a domain that
      is not disposable. */
  predicate EnhancedAccepts(score: int, mx: bool, disposable: bool)
  {
    (score >= 50 && mx) || (35 <= score < 50 && mx && !disposable)
  }

  /** The basic path accepts exactly an address that is not marked invalid,
      not disposable, has no typo, has MX records and was not found in more
      than three breaches. */
  predicate BasicAccepts(r: ValidatorResult)
  {
    r.valid != Some(false) && !r.disposable && !r.typo && HasMx(r) && !(r.breached && r.breachCount > 3)
  }

  /** `normalizeResult`: the if-chain that sets the verdict, then the output
      record. */
  method NormalizeResult(result: ValidatorResult, enhanced: Option<Enhanced>) returns (n: Normalized)
    ensures n.status != Unknown && (n.valid <==> n.status == Valid)
    ensures SmtpRejects(result) ==> n.status == Invalid
    ensures !SmtpRejects(result) && enhanced.Some? ==>
              (n.valid <==> EnhancedAccepts(enhanced.value.confidenceScore, HasMx(result), result.disposable))
    ensures !SmtpRejects(result) && enhanced.None? ==> (n.valid <==> BasicAccepts(result))
    ensures n.reason == if result.reason != [] then result.reason else if n.valid then "accepted_email" else "rejected_email"
    ensures n.securityScore == if enhanced.Some? then enhanced.value.confidenceScore else ScoreOrZero(result)
    ensures n.disposable == (result.disposable || (enhanced.Some? && enhanced.value.disifyDisposable))
    ensures n.breached == (result.breached || (enhanced.Some? && enhanced.value.disifyDisposable))
  {
    var resultStatus := Unknown;
    var finalValid := false;
    var hasMXRecord := HasMx(result);
    var isDisposable := result.disposable;
    var hasTypo := result.typo;
    var score := if enhanced.Some? then enhanced.value.confidenceScore else ScoreOrZero(result);
    var isBreached := result.breached;
    var smtpValid := result.smtp.Some? && result.smtp.value.valid == Some(true);
    var smtpReason := if result.smtp.Some? then result.smtp.value.reason else None;

    if !smtpValid && smtpReason == Some("mailbox_not_found") {
      resultStatus, finalValid := Invalid, false;
    } else if enhanced.Some? {
      var e := enhanced.value;
      if IsDefinitelyInvalid(e) {
        resultStatus, finalValid := Invalid, false;
      } else if IsLikelyValid(e) && hasMXRecord && !isDisposable {
        resultStatus, finalValid := Valid, true;
      } else if score >= 50 && hasMXRecord {
        resultStatus, finalValid := Valid, true;
      } else if score < 35 {
        resultStatus, finalValid := Invalid, false;
      } else {
        if hasMXRecord && !isDisposable {
          resultStatus, finalValid := Valid, true;
        } else {
          resultStatus, finalValid := Invalid, false;
        }
      }
    } else {
      if result.valid == Some(false) {
        resultStatus, finalValid := Invalid, false;
      } else if isDisposable {
        resultStatus, finalValid := Invalid, false;
      } else if hasTypo {
        resultStatus, finalValid := Invalid, false;
      } else if !hasMXRecord {
        resultStatus, finalValid := Invalid, false;
      } else if isBreached && result.breachCount > 3 {
        resultStatus, finalValid := Invalid, false;
      } else if hasMXRecord && result.spf {
        resultStatus, finalValid := Valid, true;
      } else if hasMXRecord {
        resultStatus, finalValid := Valid, true;
      } else {
        resultStatus, finalValid := Invalid, false;
      }
    }

    var reason := if result.reason != [] then result.reason else if finalValid then "accepted_email" else "rejected_email";
    var disify := enhanced.Some? && enhanced.value.disifyDisposable;
    n := Normalized(resultStatus, finalValid, reason, score, isDisposable || disify, isBreached || disify);
  }

  /** In the enhanced path a disposable domain with MX records and a score of
      50 or more is accepted: the third branch takes what the second
      refused. */
  lemma DisposableWithHighScoreAccepted(score: int)
    requires score >= 50
    ensures EnhancedAccepts(score, true, true)
  {
  }

  /** In the enhanced path nothing below 35 is accepted, and without MX
      records nothing is. */
  lemma EnhancedRejects(score: int, mx: bool, disposable: bool)
    ensures score < 35 ==> !EnhancedAccepts(score, mx, disposable)
    ensures !mx ==> !EnhancedAccepts(score, mx, disposable)
  {
  }

  /** SPF only changes the wording in the basic path, never the verdict. */
  lemma SpfDoesNotDecide(r: ValidatorResult)
    ensures BasicAccepts(r) == BasicAccepts(r.(spf := !r.spf))
  {
  }

  datatype ReasonCode =
    | DisposableEmail | TypoDetected | NoMxRecords | MultipleBreaches | RoleEmail
    | CatchallDomain | NoSpf | LowConfidence | UnverifiableWithoutSmtp

  /** The string `getReason` returns for each code. */
  function ReasonText(c: ReasonCode): string
  {
    match c
    case DisposableEmail => "disposable_email"
    case TypoDetected => "typo_detected"
    case NoMxRecords => "no_mx_records"
    case MultipleBreaches => "multiple_breaches"
    case RoleEmail => "role_email"
    case CatchallDomain => "catchall_domain"
    case NoSpf => "no_spf"
    case LowConfidence => "low_confidence"
    case UnverifiableWithoutSmtp => "unverifiable_without_smtp"
  }

  /** Whether each reason applies; an absent score compares false with 65. */
  predicate Applies(r: ValidatorResult, c: ReasonCode)
  {
    match c
    case DisposableEmail => r.disposable
    case TypoDetected => r.typo
    case NoMxRecords => r.mxRecord == []
    case MultipleBreaches => r.breached && r.breachCount > 3
    case RoleEmail => r.role
    case CatchallDomain => r.acceptAll
    case NoSpf => !r.spf
    case LowConfidence => r.securityScore.Some? && r.securityScore.value < 65
    case UnverifiableWithoutSmtp => true
  }

  /** The reasons in the order `getReason` tries them. */
  const ReasonOrder: seq<ReasonCode> := [DisposableEmail, TypoDetected, NoMxRecords, MultipleBreaches, RoleEmail,
                                         CatchallDomain, NoSpf, LowConfidence, UnverifiableWithoutSmtp]

  /** `getReason`: the first reason, in the fixed order, that applies. */
  function GetReason(r: ValidatorResult): (c: ReasonCode)
    ensures Applies(r, c)
    ensures exists k :: 0 <= k < |ReasonOrder| && ReasonOrder[k] == c && forall j :: 0 <= j < k ==> !Applies(r, ReasonOrder[j])
  {
    if r.disposable then
      assert ReasonOrder[0] == DisposableEmail;
      DisposableEmail
    else if r.typo then
      assert ReasonOrder[1] == TypoDetected;
      TypoDetected
    else if r.mxRecord == [] then
      assert ReasonOrder[2] == NoMxRecords;
      NoMxRecords
    else if r.breached && r.breachCount > 3 then
      assert ReasonOrder[3] == MultipleBreaches;
      MultipleBreaches
    else if r.role then
      assert ReasonOrder[4] == RoleEmail;
      RoleEmail
    else if r.acceptAll then
      assert ReasonOrder[5] == CatchallDomain;
      CatchallDomain
    else if !r.spf then
      assert ReasonOrder[6] == NoSpf;
      NoSpf
    else if r.securityScore.Some? && r.securityScore.value < 65 then
      assert ReasonOrder[7] == LowConfidence;
      LowConfidence
    else
      assert ReasonOrder[8] == UnverifiableWithoutSmtp;
      UnverifiableWithoutSmtp
  }

  /** Without a security score the reason is never 'low_confidence': the
      comparison with an absent score is false. */
  lemma AbsentScoreIsNotLow(r: ValidatorResult)
    requires r.securityScore.None?
    ensures GetReason(r) != LowConfidence
  {
  }

  /** When the basic path rejects an address whose base verdict was not
      `false`, `getReason` names one of the rejecting tests, unless the MX
      host is known but its domain is not: `getReason` looks at the host
      only. */
  lemma BasicRejectionReasons(r: ValidatorResult)
    requires r.valid != Some(false) && !BasicAccepts(r)
    ensures GetReason(r) in {DisposableEmail, TypoDetected, NoMxRecords, MultipleBreaches} || (r.mxRecord != [] && r.mxDomain == [])
  {
  }

  /** That exception is real: such an address is rejected for lack of MX
      records, yet `getReason` reports a later reason. */
  lemma MissingMxDomainMisreported()
    ensures var r := ValidatorResult(None, [], false, false, false, false, 0, "mx.example", [], true, false, Some(90), None);
      !BasicAccepts(r) && GetReason(r) == UnverifiableWithoutSmtp
  {
  }
}
