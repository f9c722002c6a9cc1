/** Model of `dist/emailPatternValidation/emailPatternValidation.js`:
    format checks on the local part, the domain and the whole address,
    collected as issues (which make the address invalid) and warnings
    (which only lower the score). */
module PatternValidation {
  import opened Text

  /** The issues the validator can report; `IssueText` is the message the
      source pushes for each. */
  datatype Issue = LongLocal | DotEdge | DoubleDot | LongDomain | BadDomainChars | EmptyLabel | HyphenEdge | BadFormat

  /** The warnings, likewise. */
  datatype Warning = OnlyNumbers | Keyword | ManySpecial | SingleLetter | ManyLabels

  function IssueText(i: Issue): string
  {
    match i
    case LongLocal => "Local part exceeds 64 characters"
    case DotEdge => "Local part starts or ends with a dot"
    case DoubleDot => "Local part contains consecutive dots"
    case LongDomain => "Domain exceeds 255 characters"
    case BadDomainChars => "Domain contains invalid characters"
    case EmptyLabel => "Domain contains empty parts"
    case HyphenEdge => "Domain parts start or end with hyphen"
    case BadFormat => "Email does not match standard format"
  }

  function WarningText(w: Warning): string
  {
    match w
    case OnlyNumbers => "Local part contains only numbers - potentially suspicious"
    case Keyword => "Local part contains suspicious keyword"
    case ManySpecial => "Local part contains many special characters"
    case SingleLetter => "Domain contains single-letter parts"
    case ManyLabels => "Domain has many subdomains"
  }

  datatype PatternResult = PatternResult(valid: bool, score: int, issues: seq<Issue>, warnings: seq<Warning>)

  const SuspiciousKeywords: seq<string> := ["admin", "root", "test", "temp", "fake", "spam", "noreply", "no-reply", "bounce"]
  const KnownGoodDomains: seq<string> := ["gmail.com", "yahoo.com", "outlook.com", "hotmail.com", "aol.com"]

  // ---------------------------------------------------------------------
  // The parts and the character classes the checks use
  // ---------------------------------------------------------------------

  /** The first '@'-separated segment. */
  function Local(email: string): string
  {
    Split(email, '@')[0]
  }

  /** The second segment; an absent one is falsy like the empty string. */
  function Domain(email: string): string
  {
    var parts := Split(email, '@');
    if |parts| >= 2 then parts[1] else []
  }

  /** `\s` in a JavaScript regular expression. */
  predicate IsSpace(c: char)
  {
    c == ' ' || c == '\t' || c == '\n' || c == '\r' || c == '\U{B}' || c == '\U{C}' ||
    c == '\U{A0}' || c == '\U{1680}' || ('\U{2000}' <= c <= '\U{200A}') || c == '\U{2028}' ||
    c == '\U{2029}' || c == '\U{202F}' || c == '\U{205F}' || c == '\U{3000}' || c == '\U{FEFF}'
  }

  predicate IsLowerAlnum(c: char) { IsLowerAlpha(c) || IsDigit(c) }

  predicate AllLowerAlnum(s: string) { forall i :: 0 <= i < |s| ==> IsLowerAlnum(s[i]) }

  /** A character of `[!#$%&'*+\-/=?^_`{|}~]`. */
  predicate IsSpecial(c: char)
  {
    c in "!#$%&'*+-/=?^_`{|}~"
  }

  function SpecialCount(s: string): (n: nat)
    ensures n <= |s|
    decreases |s|
  {
    if s == [] then 0 else (if IsSpecial(s[0]) then 1 else 0) + SpecialCount(s[1..])
  }

  /** `/^[a-z0-9]+\.[a-z0-9]+$/`: two lower-case alphanumeric runs joined by
      one dot. */
  predicate FirstDotLast(local: string)
  {
    var halves := Split(local, '.');
    |halves| == 2 && halves[0] != [] && halves[1] != [] && AllLowerAlnum(halves[0]) && AllLowerAlnum(halves[1])
  }

  /** `/^[a-z0-9_-]+$/`. */
  predicate SimpleLocal(local: string)
  {
    local != [] && forall i :: 0 <= i < |local| ==> IsLowerAlnum(local[i]) || local[i] == '_' || local[i] == '-'
  }

  /** `/^[a-z0-9.-]+$/` applied to the lower-cased domain. */
  predicate DomainCharsOk(domain: string)
  {
    var d := ToLower(domain);
    d != [] && forall i :: 0 <= i < |d| ==> IsLowerAlnum(d[i]) || d[i] == '.' || d[i] == '-'
  }

  predicate HasKeyword(local: string)
  {
    exists k :: 0 <= k < |SuspiciousKeywords| && Contains(ToLower(local), SuspiciousKeywords[k])
  }

  predicate SomeEmptyLabel(labels: seq<string>) { exists k :: 0 <= k < |labels| && labels[k] == [] }

  predicate SomeHyphenEdge(labels: seq<string>)
  {
    exists k :: 0 <= k < |labels| && (StartsWith(labels[k], "-") || EndsWith(labels[k], "-"))
  }

  predicate SomeSingleLetter(labels: seq<string>) { exists k :: 0 <= k < |labels| && |labels[k]| == 1 }

  /** `/^[^\s@]+@[^\s@]+\.[^\s@]+$/`: no white space, exactly one '@' with
      text before it, and after it a dot with text on both sides. */
  predicate MatchesFormat(email: string)
  {
    var parts := Split(email, '@');
    (forall i :: 0 <= i < |email| ==> !IsSpace(email[i])) &&
    |parts| == 2 && parts[0] != [] &&
    exists j :: 0 < j < |parts[1]| - 1 && parts[1][j] == '.'
  }

  // ---------------------------------------------------------------------
  // The conditions each block tests
  // ---------------------------------------------------------------------

  /** The tests of the local-part block, in source order. */
  datatype LocalChecks = LocalChecks(
    tooLong: bool, dotEdge: bool, doubleDot: bool,              // issues
    onlyNumbers: bool, keyword: bool, manySpecial: bool,       // warnings
    firstDotLast: bool, simple: bool)                          // bonuses

  function LocalChecksOf(local: string): LocalChecks
  {
    LocalChecks(
      |local| > 64, StartsWith(local, ".") || EndsWith(local, "."), Contains(local, ".."),
      AllDigits(local), HasKeyword(local), SpecialCount(local) > 3,
      FirstDotLast(local), SimpleLocal(local))
  }

  /** The tests of the domain block, in source order. */
  datatype DomainChecks = DomainChecks(
    tooLong: bool, badChars: bool, emptyLabel: bool, hyphenEdge: bool,  // issues
    singleLetter: bool, manyLabels: bool,                              // warnings
    knownGood: bool)                                                   // bonus

  function DomainChecksOf(domain: string): DomainChecks
  {
    var labels := Split(domain, '.');
    DomainChecks(
      |domain| > 255, !DomainCharsOk(domain), SomeEmptyLabel(labels), SomeHyphenEdge(labels),
      SomeSingleLetter(labels), |labels| > 4,
      ToLower(domain) in KnownGoodDomains)
  }

  function Points(cond: bool, n: int): int { if cond then n else 0 }

  /** The score moves of the local-part block. */
  function LocalDelta(local: string, f: LocalChecks): int
  {
    if local == [] then 0
    else (Points(f.tooLong, -20) + Points(f.dotEdge, -15) + Points(f.doubleDot, -15)
      + Points(f.onlyNumbers, -5) + Points(f.keyword, -10) + Points(f.manySpecial, -5)
      + Points(f.firstDotLast, 5) + Points(f.simple, 3))
  }

  /** The score moves of the domain block. */
  function DomainDelta(domain: string, f: DomainChecks): int
  {
    if domain == [] then 0
    else (Points(f.tooLong, -20) + Points(f.badChars, -20) + Points(f.emptyLabel, -15) + Points(f.hyphenEdge, -15)
      + Points(f.singleLetter, -5) + Points(f.manyLabels, -5) + Points(f.knownGood, 5))
  }

  /** The issues the local-part block reports for the tests `f`. */
  predicate LocalIssue(local: string, f: LocalChecks, m: Issue)
  {
    local != [] &&
    match m
    case LongLocal => f.tooLong
    case DotEdge => f.dotEdge
    case DoubleDot => f.doubleDot
    case _ => false
  }

  predicate LocalWarning(local: string, f: LocalChecks, m: Warning)
  {
    local != [] &&
    match m
    case OnlyNumbers => f.onlyNumbers
    case Keyword => f.keyword
    case ManySpecial => f.manySpecial
    case _ => false
  }

  /** The issues the domain block reports for the tests `f`. */
  predicate DomainIssue(domain: string, f: DomainChecks, m: Issue)
  {
    domain != [] &&
    match m
    case LongDomain => f.tooLong
    case BadDomainChars => f.badChars
    case EmptyLabel => f.emptyLabel
    case HyphenEdge => f.hyphenEdge
    case _ => false
  }

  predicate DomainWarning(domain: string, f: DomainChecks, m: Warning)
  {
    domain != [] &&
    match m
    case SingleLetter => f.singleLetter
    case ManyLabels => f.manyLabels
    case _ => false
  }

  /** The condition under which the source reports issue `m`, given the
      two parts, their tests and the outcome of the format test. */
  predicate IssueIn(local: string, domain: string, lf: LocalChecks, df: DomainChecks, format: bool, m: Issue)
  {
    LocalIssue(local, lf, m) || DomainIssue(domain, df, m) || (m == BadFormat && !format)
  }

  predicate WarningIn(local: string, domain: string, lf: LocalChecks, df: DomainChecks, m: Warning)
  {
    LocalWarning(local, lf, m) || DomainWarning(domain, df, m)
  }

  /** No issue test of a present part holds and the format matches. */
  predicate NoIssueIn(local: string, domain: string, lf: LocalChecks, df: DomainChecks, format: bool)
  {
    (local == [] || (!lf.tooLong && !lf.dotEdge && !lf.doubleDot)) &&
    (domain == [] || (!df.tooLong && !df.badChars && !df.emptyLabel && !df.hyphenEdge)) &&
    format
  }

  /** The same conditions for an address. */
  predicate IssueHolds(email: string, m: Issue)
  {
    IssueIn(Local(email), Domain(email), LocalChecksOf(Local(email)), DomainChecksOf(Domain(email)), MatchesFormat(email), m)
  }

  predicate WarningHolds(email: string, m: Warning)
  {
    WarningIn(Local(email), Domain(email), LocalChecksOf(Local(email)), DomainChecksOf(Domain(email)), m)
  }

  function Score(email: string): int
  {
    Clamp(100 + LocalDelta(Local(email), LocalChecksOf(Local(email))) + DomainDelta(Domain(email), DomainChecksOf(Domain(email)))
          + Points(!MatchesFormat(email), -20))
  }

  predicate NoIssue(email: string)
  {
    NoIssueIn(Local(email), Domain(email), LocalChecksOf(Local(email)), DomainChecksOf(Domain(email)), MatchesFormat(email))
  }

  // ---------------------------------------------------------------------
  // validateEmailPattern
  // ---------------------------------------------------------------------

  /** The local-part block: what it pushes for the tests `f` of `local`, and
      how much it moves the score. Nothing is tested for an empty local
      part. */
  method CheckLocalPart(local: string, f: LocalChecks) returns (issues: seq<Issue>, warnings: seq<Warning>, delta: int)
    ensures delta == LocalDelta(local, f)
    ensures forall m :: m in issues <==> LocalIssue(local, f, m)
    ensures forall m :: m in warnings <==> LocalWarning(local, f, m)
  {
    issues, warnings, delta := [], [], 0;
    if local != [] {
      if f.tooLong {
        issues := issues + [LongLocal];
        delta := delta - 20;
      }
      if f.dotEdge {
        issues := issues + [DotEdge];
        delta := delta - 15;
      }
      if f.doubleDot {
        issues := issues + [DoubleDot];
        delta := delta - 15;
      }
      if f.onlyNumbers {
        warnings := warnings + [OnlyNumbers];
        delta := delta - 5;
      }
      if f.keyword {
        warnings := warnings + [Keyword];
        delta := delta - 10;
      }
      if f.manySpecial {
        warnings := warnings + [ManySpecial];
        delta := delta - 5;
      }
      if f.firstDotLast {
        delta := delta + 5;
      }
      if f.simple {
        delta := delta + 3;
      }
    }
  }

  /** The domain block, likewise; nothing is tested for an absent or empty
      domain. */
  method CheckDomain(domain: string, f: DomainChecks) returns (issues: seq<Issue>, warnings: seq<Warning>, delta: int)
    ensures delta == DomainDelta(domain, f)
    ensures forall m :: m in issues <==> DomainIssue(domain, f, m)
    ensures forall m :: m in warnings <==> DomainWarning(domain, f, m)
  {
    issues, warnings, delta := [], [], 0;
    if domain != [] {
      if f.tooLong {
        issues := issues + [LongDomain];
        delta := delta - 20;
      }
      if f.badChars {
        issues := issues + [BadDomainChars];
        delta := delta - 20;
      }
      if f.emptyLabel {
        issues := issues + [EmptyLabel];
        delta := delta - 15;
      }
      if f.hyphenEdge {
        issues := issues + [HyphenEdge];
        delta := delta - 15;
      }
      if f.singleLetter {
        warnings := warnings + [SingleLetter];
        delta := delta - 5;
      }
      if f.manyLabels {
        warnings := warnings + [ManyLabels];
        delta := delta - 5;
      }
      if f.knownGood {
        delta := delta + 5;
      }
    }
  }

  /** The rest of `validateEmailPattern` once the parts are split off and
      tested: run the two blocks, add the format issue, clamp the score. */
  method Collect(local: string, domain: string, lf: LocalChecks, df: DomainChecks, format: bool) returns (r: PatternResult)
    ensures r.valid <==> r.issues == []
    ensures 0 <= r.score <= 100
    ensures r.score == Clamp(100 + LocalDelta(local, lf) + DomainDelta(domain, df) + Points(!format, -20))
    ensures forall m :: m in r.issues <==> IssueIn(local, domain, lf, df, format, m)
    ensures forall m :: m in r.warnings <==> WarningIn(local, domain, lf, df, m)
  {
    var score := 100;
    var localIssues, localWarnings, localDelta := CheckLocalPart(local, lf);
    var domainIssues, domainWarnings, domainDelta := CheckDomain(domain, df);
    score := score + localDelta + domainDelta;
    var issues := localIssues + domainIssues;
    var warnings := localWarnings + domainWarnings;
    if !format {
      issues := issues + [BadFormat];
      score := score - 20;
    }
    score := Clamp(score);
    r := PatternResult(|issues| == 0, score, issues, warnings);
  }

  /** `validateEmailPattern`. The result reports exactly the issues and
      warnings whose tests hold, is valid exactly when it reports no issue,
      and its score is the clamped sum of the moves. */
  method ValidateEmailPattern(email: string) returns (r: PatternResult)
    ensures r.valid <==> r.issues == []
    ensures 0 <= r.score <= 100
    ensures r.score == Score(email)
    ensures forall m :: m in r.issues <==> IssueHolds(email, m)
    ensures forall m :: m in r.warnings <==> WarningHolds(email, m)
  {
    var localPart := Local(email);
    var domain := Domain(email);
    r := Collect(localPart, domain, LocalChecksOf(localPart), DomainChecksOf(domain), MatchesFormat(email));
  }

  /** Warnings never affect validity: an address is valid (it has no
      issue) exactly when no issue test of a present part holds and the
      format matches. */
  lemma {:induction false} NoIssueInIff(local: string, domain: string, lf: LocalChecks, df: DomainChecks, format: bool)
    ensures (forall m :: !IssueIn(local, domain, lf, df, format, m)) <==> NoIssueIn(local, domain, lf, df, format)
  {
    if !NoIssueIn(local, domain, lf, df, format) {
      if local != [] && lf.tooLong {
        assert IssueIn(local, domain, lf, df, format, LongLocal);
      } else if local != [] && lf.dotEdge {
        assert IssueIn(local, domain, lf, df, format, DotEdge);
      } else if local != [] && lf.doubleDot {
        assert IssueIn(local, domain, lf, df, format, DoubleDot);
      } else if domain != [] && df.tooLong {
        assert IssueIn(local, domain, lf, df, format, LongDomain);
      } else if domain != [] && df.badChars {
        assert IssueIn(local, domain, lf, df, format, BadDomainChars);
      } else if domain != [] && df.emptyLabel {
        assert IssueIn(local, domain, lf, df, format, EmptyLabel);
      } else if domain != [] && df.hyphenEdge {
        assert IssueIn(local, domain, lf, df, format, HyphenEdge);
      } else {
        assert IssueIn(local, domain, lf, df, format, BadFormat);
      }
    }
  }

  lemma ValidIffNoIssue(email: string)
    ensures (forall m :: !IssueHolds(email, m)) <==> NoIssue(email)
  {
    var local, domain := Local(email), Domain(email);
    var lf, df, format := LocalChecksOf(local), DomainChecksOf(domain), MatchesFormat(email);
    NoIssueInIff(local, domain, lf, df, format);
    forall m ensures IssueHolds(email, m) == IssueIn(local, domain, lf, df, format, m) {
    }
  }

  /** An address with two '@' has three segments, so it fails the format and
      is invalid, whatever its other parts look like. */
  lemma TwoAtsNeverMatch(email: string)
    requires CountChar(email, '@') >= 2
    ensures !MatchesFormat(email)
    ensures IssueHolds(email, BadFormat)
  {
    SplitCount(email, '@');
  }

  /** The validator keeps only the first two segments for its per-part
      checks: adding text after a second '@' changes them in no way. */
  lemma {:induction false} ThirdSegmentIgnored(local: string, domain: string, rest: string)
    requires '@' !in local && '@' !in domain
    ensures Local(local + "@" + domain + "@" + rest) == local
    ensures Domain(local + "@" + domain + "@" + rest) == domain
  {
    var e := local + "@" + domain + "@" + rest;
    assert e == local + "@" + (domain + "@" + rest);
    SplitAfter(local, domain + "@" + rest);
    SplitAfter(domain, rest);
  }

  /** Splitting at an '@' preceded by a segment without '@'. */
  lemma SplitAfter(a: string, b: string)
    requires '@' !in a
    ensures Split(a + "@" + b, '@') == [a] + Split(b, '@')
  {
    var s := a + "@" + b;
    assert s[|a|] == '@';
    assert forall i :: 0 <= i < |a| ==> s[i] == a[i];
    assert IndexOf(s, '@') == Some(|a|);
    assert s[..|a|] == a && s[|a| + 1..] == b;
  }
}
