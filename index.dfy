/** Model of the pure fragments of `src/index.ts`: the deliverability score
    `calculateDeliverabilityScore`, and the `mx_domain` and `domainStatus`
    fragments of `validate`. */
module Deliverability {
  import opened Text

  /** The fields of `enrichedData` the score reads. `typo` is absent from the
      record `validate` builds, so there it is always false; a missing
      `breachCount` is 0. An MX field is truthy when non-empty. */
  datatype ScoreInputs = ScoreInputs(
    disposable: bool,
    typo: bool,
    breached: bool,
    breachCount: nat,
    mxRecord: string,
    mxDomain: string,
    spf: bool,
    dkim: bool,
    dmarc: bool,
    free: bool,
    role: bool,
    acceptAll: bool,
    smtpVerified: bool,
    smtpBlocked: bool,
    domainReputation: int)

  function Points(cond: bool, n: int): int { if cond then n else 0 }

  /** DNS security records: SPF 8, DKIM 9, DMARC 8. */
  function SecurityPoints(d: ScoreInputs): int
  {
    Points(d.spf, 8) + Points(d.dkim, 9) + Points(d.dmarc, 8)
  }

  /** Domain type: corporate 10, free 5. */
  function TypePoints(d: ScoreInputs): int
  {
    Points(!d.free && !d.disposable, 10) + Points(d.free && !d.disposable, 5)
  }

  /** Role -8, accept-all -15. */
  function PenaltyPoints(d: ScoreInputs): int
  {
    - Points(d.role, 8) - Points(d.acceptAll, 15)
  }

  /** SMTP: verified 10, otherwise blocked 8. */
  function SmtpPoints(d: ScoreInputs): int
  {
    Points(d.smtpVerified, 10) + Points(!d.smtpVerified && d.smtpBlocked, 8)
  }

  /** No known breach 3; reputation above 60 gives 5, below 30 costs 10. */
  function ReputationPoints(d: ScoreInputs): int
  {
    Points(!d.breached && d.breachCount == 0, 3)
    + Points(d.domainReputation > 60, 5) - Points(d.domainReputation < 30, 10)
  }

  /** A corporate domain with all three security records: 5. */
  function PostureBonus(d: ScoreInputs): int
  {
    Points(!d.free && !d.disposable && d.spf && d.dkim && d.dmarc, 5)
  }

  /** The score before clamping, once no disqualifier applied: 50 for the MX
      records, plus each factor's contribution. */
  function Raw(d: ScoreInputs): int
  {
    50 + SecurityPoints(d) + TypePoints(d) + PenaltyPoints(d) + SmtpPoints(d)
    + ReputationPoints(d) + PostureBonus(d)
  }

  /** The first disqualifier that applies, in the order the code tests them. */
  function EarlyExit(d: ScoreInputs): Option<int>
  {
    if d.disposable then Some(0)
    else if d.typo then Some(5)
    else if d.breached && d.breachCount > 5 then Some(10)
    else if d.mxRecord == [] || d.mxDomain == [] then Some(0)
    else None
  }

  /** The score as a whole: an early exit's value, or the clamped sum. */
  function Score(d: ScoreInputs): (s: int)
    ensures 0 <= s <= 100
  {
    match EarlyExit(d)
    case Some(v) => v
    case None => Clamp(Raw(d))
  }

  /** `calculateDeliverabilityScore`: the disqualifiers return at once;
      otherwise the factors are accumulated and the total clamped. */
  method CalculateDeliverabilityScore(d: ScoreInputs) returns (score: int)
    ensures score == Score(d)
  {
    if d.disposable { return 0; }
    if d.typo { return 5; }
    if d.breached && d.breachCount > 5 { return 10; }
    if d.mxRecord == [] || d.mxDomain == [] { return 0; }
    score := AccumulateFactors(d);
    score := Clamp(score);
  }

  /** The accumulation of `calculateDeliverabilityScore` once no
      disqualifier applied: 50 for the MX records, then each factor added to
      `score` in the order of the source. */
  method AccumulateFactors(d: ScoreInputs) returns (score: int)
    ensures score == Raw(d)
  {
    score := 50;
    if d.spf { score := score + 8; }
    if d.dkim { score := score + 9; }
    if d.dmarc { score := score + 8; }
    assert score == 50 + SecurityPoints(d);
    if !d.free && !d.disposable {
      score := score + 10;
    } else if d.free && !d.disposable {
      score := score + 5;
    }
    assert score == 50 + SecurityPoints(d) + TypePoints(d);
    if d.role { score := score - 8; }
    if d.acceptAll { score := score - 15; }
    assert score == 50 + SecurityPoints(d) + TypePoints(d) + PenaltyPoints(d);
    if d.smtpVerified {
      score := score + 10;
    } else if d.smtpBlocked {
      score := score + 8;
    }
    ghost var upToSmtp := 50 + SecurityPoints(d) + TypePoints(d) + PenaltyPoints(d) + SmtpPoints(d);
    assert score == upToSmtp;
    if !d.breached && d.breachCount == 0 { score := score + 3; }
    if d.domainReputation > 60 {
      score := score + 5;
    } else if d.domainReputation < 30 {
      score := score - 10;
    }
    assert score == upToSmtp + ReputationPoints(d);
    if !d.free && !d.disposable && d.spf && d.dkim && d.dmarc { score := score + 5; }
  }

  /** The disqualifiers, in their order: disposable 0, then typo 5, then more
      than five breaches 10, then a missing MX record or MX domain 0. */
  lemma EarlyExits(d: ScoreInputs)
    ensures d.disposable ==> Score(d) == 0
    ensures !d.disposable && d.typo ==> Score(d) == 5
    ensures !d.disposable && !d.typo && d.breached && d.breachCount > 5 ==> Score(d) == 10
    ensures !d.disposable && !d.typo && !(d.breached && d.breachCount > 5) && (d.mxRecord == [] || d.mxDomain == [])
            ==> Score(d) == 0
  {
  }

  /** Past the disqualifiers the sum lies in [22, 108]: the clamp at 0 never
      binds, the one at 100 can. */
  lemma RawBounds(d: ScoreInputs)
    requires !d.disposable
    ensures 22 <= Raw(d) <= 108
  {
  }

  /** SPF adds 8, and 5 more for a corporate domain that also has DKIM and
      DMARC. DKIM and DMARC behave alike with their own points. */
  lemma SpfPoints(d: ScoreInputs)
    requires !d.disposable
    ensures Raw(d.(spf := true)) - Raw(d.(spf := false)) == 8 + Points(!d.free && d.dkim && d.dmarc, 5)
  {
    assert Raw(d.(spf := true)) - Raw(d.(spf := false))
        == 8 + PostureBonus(d.(spf := true)) - PostureBonus(d.(spf := false));
  }

  lemma DkimPoints(d: ScoreInputs)
    requires !d.disposable
    ensures Raw(d.(dkim := true)) - Raw(d.(dkim := false)) == 9 + Points(!d.free && d.spf && d.dmarc, 5)
  {
    assert Raw(d.(dkim := true)) - Raw(d.(dkim := false))
        == 9 + PostureBonus(d.(dkim := true)) - PostureBonus(d.(dkim := false));
  }

  lemma DmarcPoints(d: ScoreInputs)
    requires !d.disposable
    ensures Raw(d.(dmarc := true)) - Raw(d.(dmarc := false)) == 8 + Points(!d.free && d.spf && d.dkim, 5)
  {
    assert Raw(d.(dmarc := true)) - Raw(d.(dmarc := false))
        == 8 + PostureBonus(d.(dmarc := true)) - PostureBonus(d.(dmarc := false));
  }

  /** A verified SMTP check gives 10, and `smtpBlocked` then adds nothing. */
  lemma SmtpVerifiedPoints(d: ScoreInputs)
    ensures Raw(d.(smtpVerified := true, smtpBlocked := d.smtpBlocked)) - Raw(d.(smtpVerified := false, smtpBlocked := false)) == 10
  {
  }

  /** `smtpBlocked` alone gives 8. */
  lemma SmtpBlockedPoints(d: ScoreInputs)
    ensures Raw(d.(smtpVerified := false, smtpBlocked := true)) - Raw(d.(smtpVerified := false, smtpBlocked := false)) == 8
  {
  }

  /** A role account costs 8. */
  lemma RolePenalty(d: ScoreInputs)
    ensures Raw(d.(role := false)) - Raw(d.(role := true)) == 8
  {
  }

  /** An accept-all domain costs 15. */
  lemma AcceptAllPenalty(d: ScoreInputs)
    ensures Raw(d.(acceptAll := false)) - Raw(d.(acceptAll := true)) == 15
  {
  }

  /** Reputation above 60 gives 5, below 30 costs 10, 30 to 60 changes
      nothing. */
  lemma ReputationBands(d: ScoreInputs)
    ensures Raw(d) - Raw(d.(domainReputation := 45)) ==
            if d.domainReputation > 60 then 5 else if d.domainReputation < 30 then -10 else 0
  {
  }

  /** No known breach and a zero count give 3. */
  lemma NoBreachBonus(d: ScoreInputs)
    ensures Raw(d.(breached := false, breachCount := 0)) - Raw(d.(breached := true, breachCount := 0)) == 3
  {
  }

  /** The highest and the lowest scores an address that passes the
      disqualifiers can get. */
  lemma ScoreExtremes()
    ensures Score(ScoreInputs(false, false, false, 0, "mx", "d", true, true, true, false, false, false, true, false, 61)) == 100
    ensures Score(ScoreInputs(false, false, true, 1, "mx", "d", false, false, false, true, true, true, false, false, 0)) == 22
  {
  }

  /** `mx_domain`: the last two dot-separated labels of the exchange, or the
      exchange itself when it has fewer than two labels. The result is a
      suffix of the exchange that is the whole exchange or follows a dot,
      and holds one dot exactly when the exchange holds one. */
  function MxDomain(exchange: string): (r: string)
    ensures EndsWith(exchange, r)
    ensures r == exchange || EndsWith(exchange, "." + r)
    ensures CountChar(r, '.') == (if '.' in exchange then 1 else 0)
  {
    var parts := Split(exchange, '.');
    var r := if |parts| >= 2 then Join(parts[|parts| - 2..], ".") else exchange;
    LastTwoLabels(exchange, parts, r);
    r
  }

  lemma LastTwoLabels(exchange: string, parts: seq<string>, r: string)
    requires parts == Split(exchange, '.')
    requires r == if |parts| >= 2 then Join(parts[|parts| - 2..], ".") else exchange
    ensures EndsWith(exchange, r)
    ensures r == exchange || EndsWith(exchange, "." + r)
    ensures CountChar(r, '.') == (if '.' in exchange then 1 else 0)
  {
    var n := |parts|;
    if n >= 2 {
      JoinLastTwo(parts);
      LabelPair(parts[n - 2], parts[n - 1]);
      JoinHasDot(parts);
      if n > 2 {
        JoinSplitsOffTail(parts);
        assert EndsWith(exchange, "." + r);
      } else {
        assert parts[n - 2..] == parts;
      }
    } else {
      assert parts == [exchange];
      CountCharAbsent(exchange, '.');
    }
  }

  lemma JoinLastTwo(parts: seq<string>)
    requires |parts| >= 2
    ensures Join(parts[|parts| - 2..], ".") == parts[|parts| - 2] + "." + parts[|parts| - 1]
  {
    var tail := parts[|parts| - 2..];
    assert tail[1..] == [parts[|parts| - 1]];
  }

  lemma LabelPair(a: string, b: string)
    requires '.' !in a && '.' !in b
    ensures CountChar(a + "." + b, '.') == 1
  {
    CountCharConcat(a + ".", b, '.');
    CountCharConcat(a, ".", '.');
    CountCharAbsent(a, '.');
    CountCharAbsent(b, '.');
  }

  lemma JoinHasDot(parts: seq<string>)
    requires |parts| >= 2
    ensures '.' in Join(parts, ".")
  {
    assert Join(parts, ".") == parts[0] + "." + Join(parts[1..], ".");
    assert Join(parts, ".")[|parts[0]|] == '.';
  }

  lemma JoinSplitsOffTail(parts: seq<string>)
    requires |parts| > 2
    ensures Join(parts, ".") == Join(parts[..|parts| - 2], ".") + ("." + Join(parts[|parts| - 2..], "."))
  {
    var a, b := parts[..|parts| - 2], parts[|parts| - 2..];
    assert a + b == parts;
    JoinAppend(a, b, ".");
    var ja, jb := Join(a, "."), Join(b, ".");
    assert ja + "." + jb == ja + ("." + jb);
  }

  /** A suffix that follows a dot, inside a longer suffix, leaves that dot
      in the longer one. */
  lemma SuffixAfterDot(e: string, x: string, y: string)
    requires EndsWith(e, x) && EndsWith(e, "." + y) && |y| < |x|
    ensures CountChar(x, '.') >= CountChar(y, '.') + 1
  {
    var t := "." + y;
    assert x[|x| - |t|..] == e[|e| - |t|..] == t;
    assert x == x[..|x| - |t|] + t;
    CountCharConcat(x[..|x| - |t|], t, '.');
    CountCharConcat(".", y, '.');
  }

  /** The three properties of `MxDomain` determine it: no other suffix of
      the exchange is the whole exchange or follows a dot and holds the same
      number of dots. */
  lemma MxDomainUnique(exchange: string, s: string)
    requires EndsWith(exchange, s)
    requires s == exchange || EndsWith(exchange, "." + s)
    requires CountChar(s, '.') == (if '.' in exchange then 1 else 0)
    ensures s == MxDomain(exchange)
  {
    var r := MxDomain(exchange);
    if |s| < |r| {
      SuffixAfterDot(exchange, r, s);
    }
    if |r| < |s| {
      SuffixAfterDot(exchange, s, r);
    }
    assert s == exchange[|exchange| - |s|..] == r;
  }

  datatype DomainStatus = Disposable | Free | Corporate

  /** `domainStatus`: disposable first, then free, then corporate. */
  function DomainStatusOf(disposable: bool, free: bool): (r: DomainStatus)
    ensures r == Disposable <==> disposable
    ensures r == Free <==> !disposable && free
    ensures r == Corporate <==> !disposable && !free
  {
    if disposable then Disposable else if free then Free else Corporate
  }
}
