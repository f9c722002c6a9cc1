/** Model of `src/dnsSecurityRecords/dnsSecurityRecords.ts`: SPF, DKIM and
    DMARC record selection over the TXT answers, and the security score.
    The resolver is foreign: its answers are a zone, a map from names to
    lookup outcomes, where a missing name is a failed lookup. */
module DnsSecurity {
  import opened Text

  /** One TXT lookup: a failure (which the code catches), or the records,
      each a list of character-string chunks. */
  datatype TxtLookup = Failed | Records(records: seq<seq<string>>)

  type Zone = map<string, TxtLookup>

  function Resolve(zone: Zone, name: string): TxtLookup
  {
    if name in zone then zone[name] else Failed
  }

  datatype SpfRecord = SpfRecord(exists_: bool, record: Option<string>, valid: bool)
  datatype DkimRecord = DkimRecord(exists_: bool, record: Option<string>)
  datatype DmarcRecord = DmarcRecord(exists_: bool, record: Option<string>, policy: Option<string>)
  datatype SecurityRecords = SecurityRecords(spf: SpfRecord, dkim: DkimRecord, dmarc: DmarcRecord)

  // ---------------------------------------------------------------------
  // SPF
  // ---------------------------------------------------------------------

  /** Position of the first record whose chunks, joined, start with
      "v=spf1" (the `find` of `checkSPF`). */
  function FindSpf(records: seq<seq<string>>): (r: Option<nat>)
    ensures r.None? <==> forall k :: 0 <= k < |records| ==> !StartsWith(Concat(records[k]), "v=spf1")
    ensures r.Some? ==> r.value < |records| && StartsWith(Concat(records[r.value]), "v=spf1")
    ensures r.Some? ==> forall k :: 0 <= k < r.value ==> !StartsWith(Concat(records[k]), "v=spf1")
    decreases |records|
  {
    if records == [] then None
    else if StartsWith(Concat(records[0]), "v=spf1") then Some(0)
    else match FindSpf(records[1..])
      case None => None
      case Some(k) => Some(k + 1)
  }

  function CheckSpf(lookup: TxtLookup): (r: SpfRecord)
    ensures r.valid == r.exists_
    ensures r.exists_ <==> lookup.Records? && exists k :: 0 <= k < |lookup.records| && StartsWith(Concat(lookup.records[k]), "v=spf1")
    ensures r.exists_ ==> r.record.Some? && StartsWith(r.record.value, "v=spf1")
    ensures r.exists_ ==> r.record == Some(Concat(lookup.records[FindSpf(lookup.records).value]))
    ensures !r.exists_ ==> r.record.None?
  {
    match lookup
    case Failed => SpfRecord(false, None, false)
    case Records(rs) =>
      match FindSpf(rs)
      case None => SpfRecord(false, None, false)
      case Some(k) => SpfRecord(true, Some(Concat(rs[k])), true)
  }

  // ---------------------------------------------------------------------
  // DKIM
  // ---------------------------------------------------------------------

  /** `records.map(r => r.join('')).join('')`. */
  function Flatten(records: seq<seq<string>>): (s: string)
    ensures records == [] ==> s == []
    decreases |records|
  {
    if records == [] then [] else Concat(records[0]) + Flatten(records[1..])
  }

  function CheckDkim(lookup: TxtLookup): (r: DkimRecord)
    ensures r.exists_ <==> lookup.Records? && |lookup.records| > 0
    ensures r.exists_ ==> r.record == Some(Flatten(lookup.records))
    ensures !r.exists_ ==> r.record.None?
  {
    if lookup.Records? && |lookup.records| > 0 then DkimRecord(true, Some(Flatten(lookup.records)))
    else DkimRecord(false, None)
  }

  const Selectors: seq<string> := ["default", "selector1", "selector2", "google", "mail", "_domainkey"]

  /** The name a DKIM key for `selector` is published under (section 3.6.2.1
      of RFC 6376). */
  function DkimName(selector: string, domain: string): (n: string)
    ensures StartsWith(n, selector + "._domainkey.") && EndsWith(n, domain)
  {
    selector + "._domainkey." + domain
  }

  // ---------------------------------------------------------------------
  // DMARC
  // ---------------------------------------------------------------------

  /** `/p=(\w+)/` matches at `i`: "p=" followed by at least one word
      character. */
  predicate PolicyAt(s: string, i: nat)
  {
    i + 3 <= |s| && s[i] == 'p' && s[i + 1] == '=' && IsWordChar(s[i + 2])
  }

  /** The maximal run of word characters starting at `j` (the greedy
      `\w+`). */
  function WordRun(s: string, j: nat): (w: string)
    requires j <= |s|
    ensures j + |w| <= |s| && w == s[j..j + |w|]
    ensures forall k :: 0 <= k < |w| ==> IsWordChar(w[k])
    ensures j + |w| == |s| || !IsWordChar(s[j + |w|])
    decreases |s| - j
  {
    if j < |s| && IsWordChar(s[j]) then
      var rest := WordRun(s, j + 1);
      assert s[j..j + 1 + |rest|] == [s[j]] + s[j + 1..j + 1 + |rest|];
      [s[j]] + rest
    else []
  }

  /** The leftmost position at or after `i` where `/p=(\w+)/` matches. */
  function FirstPolicyAt(s: string, i: nat): (r: Option<nat>)
    requires i <= |s|
    ensures r.None? ==> forall k: nat :: i <= k < |s| ==> !PolicyAt(s, k)
    ensures r.Some? ==> i <= r.value && PolicyAt(s, r.value)
    ensures r.Some? ==> forall k: nat :: i <= k < r.value ==> !PolicyAt(s, k)
    decreases |s| - i
  {
    if i + 3 > |s| then None
    else if PolicyAt(s, i) then Some(i)
    else FirstPolicyAt(s, i + 1)
  }

  /** The capture of the leftmost match of `/p=(\w+)/` at or after `i`. */
  function PolicyFrom(s: string, i: nat): (p: Option<string>)
    requires i <= |s|
    ensures p.None? <==> FirstPolicyAt(s, i).None?
    ensures p.Some? ==> p.value == WordRun(s, FirstPolicyAt(s, i).value + 2)
  {
    match FirstPolicyAt(s, i)
    case None => None
    case Some(k) => Some(WordRun(s, k + 2))
  }

  function Policy(record: string): (p: Option<string>)
    ensures p.Some? ==> |p.value| > 0
  {
    PolicyFrom(record, 0)
  }

  function CheckDmarc(lookup: TxtLookup): (r: DmarcRecord)
    ensures r.exists_ <==> lookup.Records? && |lookup.records| > 0
    ensures r.exists_ ==> r.record == Some(Flatten(lookup.records)) && r.policy == Policy(Flatten(lookup.records))
    ensures !r.exists_ ==> r.record.None? && r.policy.None?
  {
    if lookup.Records? && |lookup.records| > 0 then
      var record := Flatten(lookup.records);
      DmarcRecord(true, Some(record), Policy(record))
    else DmarcRecord(false, None, None)
  }

  /** Before the first 'p' the expression cannot match; at a "p=" followed
      by a word, the capture is that whole word. */
  lemma TagPolicy(pre: string, w: string, post: string)
    requires 'p' !in pre
    requires |w| > 0 && forall k :: 0 <= k < |w| ==> IsWordChar(w[k])
    requires post == [] || !IsWordChar(post[0])
    ensures Policy(pre + "p=" + w + post) == Some(w)
  {
    var s := pre + "p=" + w + post;
    forall k: nat | k < |pre| ensures !PolicyAt(s, k) {
      assert s[k] == pre[k];
    }
    PolicySkip(s, 0, |pre|);
    assert s[|pre|] == 'p' && s[|pre| + 1] == '=' && s[|pre| + 2] == w[0];
    assert s[|pre| + 2..|pre| + 2 + |w|] == w;
    if post != [] {
      assert s[|pre| + 2 + |w|] == post[0];
    }
    WordRunOf(s, |pre| + 2, w);
  }

  /** A record that starts with the version tag and then the policy tag, as
      section 6.3 of RFC 7489 requires, yields that policy. */
  lemma VersionThenPolicy(w: string, post: string)
    requires |w| > 0 && forall k :: 0 <= k < |w| ==> IsWordChar(w[k])
    requires post == [] || !IsWordChar(post[0])
    ensures Policy("v=DMARC1; p=" + w + post) == Some(w)
  {
    TagPolicy("v=DMARC1; ", w, post);
    assert "v=DMARC1; " + "p=" == "v=DMARC1; p=";
  }

  /** The expression also matches inside "sp=", so a subdomain policy
      written before the policy is taken for it. */
  lemma SubdomainPolicyFirst(pre: string, w: string, post: string)
    requires 'p' !in pre
    requires |w| > 0 && forall k :: 0 <= k < |w| ==> IsWordChar(w[k])
    requires post == [] || !IsWordChar(post[0])
    ensures Policy(pre + "sp=" + w + post) == Some(w)
  {
    TagPolicy(pre + "s", w, post);
    assert pre + "s" + "p=" == pre + "sp=";
  }

  /** Without "p=" there is no policy. */
  lemma NoPolicy()
    ensures Policy("v=DMARC1") == None
  {
  }

  /** Positions without a match do not change the leftmost match. */
  lemma {:induction false} PolicySkip(s: string, i: nat, j: nat)
    requires i <= j <= |s|
    requires forall k: nat :: i <= k < j ==> !PolicyAt(s, k)
    ensures FirstPolicyAt(s, i) == FirstPolicyAt(s, j)
    decreases j - i
  {
    if i < j {
      PolicySkip(s, i + 1, j);
    }
  }

  /** A word that ends where the run stops is the run. */
  lemma {:induction false} WordRunOf(s: string, j: nat, w: string)
    requires j + |w| <= |s| && s[j..j + |w|] == w
    requires forall k :: 0 <= k < |w| ==> IsWordChar(w[k])
    requires j + |w| == |s| || !IsWordChar(s[j + |w|])
    ensures WordRun(s, j) == w
    decreases |w|
  {
    if w != [] {
      assert s[j] == w[0];
      assert s[j + 1..j + 1 + |w[1..]|] == w[1..];
      WordRunOf(s, j + 1, w[1..]);
    }
  }

  /** A run that reaches the end of the string is the whole rest. */
  lemma {:induction false} WordRunAll(s: string, j: nat)
    requires j <= |s| && forall k :: j <= k < |s| ==> IsWordChar(s[k])
    ensures WordRun(s, j) == s[j..]
    decreases |s| - j
  {
    if j < |s| {
      WordRunAll(s, j + 1);
    }
  }

  // ---------------------------------------------------------------------
  // checkDNSSecurityRecords and the score
  // ---------------------------------------------------------------------

  /** `checkDNSSecurityRecords`: SPF and DMARC for the domain, then DKIM for
      the first selector, in order, whose lookup has records. */
  method CheckDnsSecurityRecords(zone: Zone, domain: string) returns (r: SecurityRecords)
    ensures r.spf == CheckSpf(Resolve(zone, domain))
    ensures r.dmarc == CheckDmarc(Resolve(zone, "_dmarc." + domain))
    ensures !r.dkim.exists_ <==> forall k :: 0 <= k < |Selectors| ==> !CheckDkim(Resolve(zone, DkimName(Selectors[k], domain))).exists_
    ensures !r.dkim.exists_ ==> r.dkim == DkimRecord(false, None)
    ensures r.dkim.exists_ ==> exists k :: 0 <= k < |Selectors| && r.dkim == CheckDkim(Resolve(zone, DkimName(Selectors[k], domain))) &&
                                         forall j :: 0 <= j < k ==> !CheckDkim(Resolve(zone, DkimName(Selectors[j], domain))).exists_
  {
    var spf := CheckSpf(Resolve(zone, domain));
    var dmarc := CheckDmarc(Resolve(zone, "_dmarc." + domain));
    var dkim := DkimRecord(false, None);
    var i := 0;
    while i < |Selectors|
      invariant 0 <= i <= |Selectors|
      invariant dkim == DkimRecord(false, None)
      invariant forall j :: 0 <= j < i ==> !CheckDkim(Resolve(zone, DkimName(Selectors[j], domain))).exists_
    {
      var result := CheckDkim(Resolve(zone, DkimName(Selectors[i], domain)));
      if result.exists_ {
        dkim := result;
        break;
      }
      i := i + 1;
    }
    r := SecurityRecords(spf, dkim, dmarc);
  }

  /** The points of each record, summed: SPF 30 when present and valid, 15
      when only present; DKIM 35; DMARC 30, and 5 more for `reject` or 2 for
      `quarantine`. */
  function SecurityPoints(r: SecurityRecords): (n: int)
    ensures 0 <= n <= 100
  {
    (if r.spf.exists_ && r.spf.valid then 30 else if r.spf.exists_ then 15 else 0)
    + (if r.dkim.exists_ then 35 else 0)
    + (if r.dmarc.exists_ then
         30 + (if r.dmarc.policy == Some("reject") then 5
               else if r.dmarc.policy == Some("quarantine") then 2 else 0)
       else 0)
  }

  /** `getDomainSecurityScore`. The final `Math.min(100, ...)` never changes
      the sum, which is at most 100. */
  method GetDomainSecurityScore(records: SecurityRecords) returns (score: int)
    ensures score == SecurityPoints(records)
    ensures 0 <= score <= 100
  {
    score := 0;
    if records.spf.exists_ && records.spf.valid {
      score := score + 30;
    } else if records.spf.exists_ {
      score := score + 15;
    }
    if records.dkim.exists_ {
      score := score + 35;
    }
    if records.dmarc.exists_ {
      score := score + 30;
      if records.dmarc.policy == Some("reject") {
        score := score + 5;
      } else if records.dmarc.policy == Some("quarantine") {
        score := score + 2;
      }
    }
    score := if score < 100 then score else 100;
  }

  /** On the records `checkDNSSecurityRecords` returns, SPF adds 30 points
      or none: the 15-point branch for a present but invalid SPF record is
      never taken, since a present record is always valid. */
  lemma SpfNeverHalf(lookup: TxtLookup, r: SecurityRecords)
    ensures var d := SecurityPoints(r.(spf := CheckSpf(lookup))) - SecurityPoints(r.(spf := SpfRecord(false, None, false)));
      d == 0 || d == 30
  {
  }

  /** Any failed lookup leaves its record absent. */
  lemma FailedLookupsAreAbsent()
    ensures !CheckSpf(Failed).exists_ && !CheckDkim(Failed).exists_ && !CheckDmarc(Failed).exists_
  {
  }

  /** The full score is reached only with all three records and a `reject`
      policy. */
  lemma FullScore(r: SecurityRecords)
    ensures SecurityPoints(r) == 100 <==>
      r.spf.exists_ && r.spf.valid && r.dkim.exists_ && r.dmarc.exists_ && r.dmarc.policy == Some("reject")
  {
  }
}
