/** Model of `src/freeEmailDetection/freeEmailDetection.ts`: free
    mail providers recognised by domain, and their display names. */
module FreeEmail {
  import opened Text

  /** The free-provider domains (a `Set`), written as the union of five
      blocks in source order. */
  const FreeEmailProviders: set<string> := Free1 + Free2 + Free3 + Free4 + Free5

  const Free1: set<string> := {"gmail.com", "googlemail.com", "yahoo.com", "yahoo.co.uk", "yahoo.co.in", "yahoo.fr", "yahoo.de", "yahoo.it", "yahoo.es", "hotmail.com", "outlook.com"}
  const Free2: set<string> := {"live.com", "msn.com", "protonmail.com", "proton.me", "tutanota.com", "mail.com", "mailfence.com", "tutamail.com", "mailbox.org", "posteo.de", "runbox.com"}
  const Free3: set<string> := {"fastmail.com", "fastmail.fm", "mail.de", "web.de", "gmx.com", "gmx.de", "gmx.net", "icloud.com", "me.com", "mac.com", "aol.com"}
  const Free4: set<string> := {"aim.com", "ymail.com", "rocketmail.com", "mail.yahoo.com", "zoho.com", "mail.zoho.com", "temp-mail.org", "tempmail.com", "throwaway.email", "10minutemail.com", "mailinator.com"}
  const Free5: set<string> := {"maildrop.cc", "sharklasers.com", "spam4.me", "spamgourmet.com", "yopmail.com", "trashmail.com", "mytrashmail.com"}

  /** `isFreeEmail`: case-insensitive membership. Every listed provider is a
      bare domain, so only a domain with a dot and without '@' can be free:
      a whole address passed in its place never is. */
  function IsFreeEmail(domain: string): (b: bool)
    ensures b ==> '.' in domain && '@' !in domain
  {
    ProvidersAreBareDomains();
    LowerKeepsPunctuation(domain);
    ToLower(domain) in FreeEmailProviders
  }

  /** A bare domain: it has a dot and no '@'. */
  predicate BareDomain(d: string) { '.' in d && '@' !in d }

  lemma ProvidersAreBareDomains()
    ensures forall d :: d in FreeEmailProviders ==> BareDomain(d)
  {
    Block1Bare();
    Block2Bare();
    Block3Bare();
    Block4Bare();
    Block5Bare();
  }

  lemma Block1Bare()
    ensures forall d :: d in Free1 ==> BareDomain(d)
  {
  }

  lemma Block2Bare()
    ensures forall d :: d in Free2 ==> BareDomain(d)
  {
  }

  lemma Block3Bare()
    ensures forall d :: d in Free3 ==> BareDomain(d)
  {
  }

  lemma Block4Bare()
    ensures forall d :: d in Free4 ==> BareDomain(d)
  {
  }

  lemma Block5Bare()
    ensures forall d :: d in Free5 ==> BareDomain(d)
  {
  }

  /** Lower-casing neither creates nor removes a '.' or an '@'. */
  lemma LowerKeepsPunctuation(s: string)
    ensures '.' in ToLower(s) <==> '.' in s
    ensures '@' in ToLower(s) <==> '@' in s
  {
    var t := ToLower(s);
    forall i | 0 <= i < |s| ensures (t[i] == '.' <==> s[i] == '.') && (t[i] == '@' <==> s[i] == '@') {
      assert t[i] == LowerChar(s[i]);
    }
    if '.' in t {
      var i :| 0 <= i < |t| && t[i] == '.';
      assert s[i] == '.';
    }
    if '@' in s {
      var i :| 0 <= i < |s| && s[i] == '@';
      assert t[i] == '@';
    }
  }

  datatype ProviderKind = FreeProvider | Commercial

  /** `getEmailProvider`. */
  function GetEmailProvider(domain: string): (k: ProviderKind)
    ensures k == FreeProvider <==> IsFreeEmail(domain)
  {
    if IsFreeEmail(domain) then FreeProvider else Commercial
  }

  /** The display names of the best-known providers; every name is
      non-empty, so a hit is truthy. */
  const ProviderMap: map<string, string> := map[
    "gmail.com" := "Gmail",
    "googlemail.com" := "Gmail",
    "yahoo.com" := "Yahoo",
    "yahoo.co.uk" := "Yahoo",
    "yahoo.co.in" := "Yahoo",
    "hotmail.com" := "Hotmail",
    "outlook.com" := "Outlook",
    "live.com" := "Live Mail",
    "msn.com" := "MSN",
    "protonmail.com" := "ProtonMail",
    "proton.me" := "Proton",
    "icloud.com" := "iCloud",
    "me.com" := "iCloud",
    "aol.com" := "AOL",
    "zoho.com" := "Zoho",
    "fastmail.com" := "FastMail",
    "tutanota.com" := "Tutanota"
  ]

  /** `getProviderName`: the mapped name for the lower-cased domain (every
      name is non-empty, so truthy); else a generic name for any other free
      domain; else `null`. */
  function GetProviderName(domain: string): (name: Option<string>)
    ensures ToLower(domain) in ProviderMap ==> name == Some(ProviderMap[ToLower(domain)])
    ensures ToLower(domain) !in ProviderMap && IsFreeEmail(domain) ==> name == Some("Free Email Provider")
    ensures ToLower(domain) !in ProviderMap && !IsFreeEmail(domain) ==> name.None?
  {
    var lowerDomain := ToLower(domain);
    if lowerDomain in ProviderMap then Some(ProviderMap[lowerDomain])
    else if IsFreeEmail(domain) then Some("Free Email Provider")
    else None
  }

  lemma ProviderNamesAreNonEmpty()
    ensures forall d :: d in ProviderMap ==> ProviderMap[d] != []
  {
  }

  /** Every domain with a display name is a free provider. */
  lemma ProviderMapKeysAreFree()
    ensures ProviderMap.Keys <= FreeEmailProviders
  {
    assert "gmail.com" in Free1;
    assert "googlemail.com" in Free1;
    assert "yahoo.com" in Free1;
    assert "yahoo.co.uk" in Free1;
    assert "yahoo.co.in" in Free1;
    assert "hotmail.com" in Free1;
    assert "outlook.com" in Free1;
    assert "live.com" in Free2;
    assert "msn.com" in Free2;
    assert "protonmail.com" in Free2;
    assert "proton.me" in Free2;
    assert "icloud.com" in Free3;
    assert "me.com" in Free3;
    assert "aol.com" in Free3;
    assert "zoho.com" in Free4;
    assert "fastmail.com" in Free3;
    assert "tutanota.com" in Free2;
  }

  /** Hence `getProviderName` gives a name exactly for free domains. */
  lemma ProviderNameIffFree(domain: string)
    ensures GetProviderName(domain).Some? <==> IsFreeEmail(domain)
  {
    ProviderMapKeysAreFree();
  }

  /** Both lookups ignore case. */
  lemma CaseInsensitive(domain: string)
    ensures IsFreeEmail(ToLower(domain)) == IsFreeEmail(domain)
    ensures GetProviderName(ToLower(domain)) == GetProviderName(domain)
  {
    ToLowerIdempotent(domain);
  }
}
