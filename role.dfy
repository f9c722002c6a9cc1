/** Model of `src/roleDetection/roleDetection.ts`: role accounts (admin@,
    support@, ...) recognised from the local part. */
module RoleDetection {
  import opened Text

  /** The role names, in list order ("hello" appears twice), written as six
      blocks of eleven. */
  const RolePatterns: seq<string> := Roles1 + Roles2 + Roles3 + Roles4 + Roles5 + Roles6

  const Roles1: seq<string> := ["admin", "root", "support", "help", "contact", "info", "noreply", "no-reply", "donotreply", "do-not-reply", "sales"]
  const Roles2: seq<string> := ["billing", "accounts", "service", "services", "team", "staff", "hr", "human", "resources", "hello", "feedback"]
  const Roles3: seq<string> := ["abuse", "security", "postmaster", "webmaster", "hostmaster", "mail", "mailer", "mailserver", "notification", "notify", "noreplyto"]
  const Roles4: seq<string> := ["newsletter", "news", "press", "legal", "compliance", "privacy", "dpo", "dataprivacy", "office", "operations", "customerservice"]
  const Roles5: seq<string> := ["customer", "orders", "accounting", "finance", "payments", "reservations", "bookings", "appointments", "marketing", "communications", "recruitment"]
  const Roles6: seq<string> := ["careers", "general", "main", "principal", "hello", "inquiry", "inquiries", "question", "questions", "request", "requests"]

  /** The lower-cased text before the first '@' (the first element of
      `email.toLowerCase().split('@')`). */
  function LocalPart(email: string): (l: string)
    ensures '@' !in l
    ensures StartsWith(ToLower(email), l)
  {
    var parts := Split(ToLower(email), '@');
    SplitFirstIsPrefix(ToLower(email), '@');
    parts[0]
  }

  lemma SplitFirstIsPrefix(s: string, c: char)
    ensures StartsWith(s, Split(s, c)[0])
  {
    match IndexOf(s, c)
    case None =>
    case Some(k) =>
  }

  /** `new RegExp('^' + role + '\\d*$').test(local)`: the local part is the
      role followed by nothing but decimal digits. */
  predicate MatchesRole(local: string, role: string)
  {
    StartsWith(local, role) && AllDigits(local[|role|..])
  }

  /** `roles.some(...)`. */
  predicate AnyRole(local: string, roles: seq<string>)
    decreases |roles|
  {
    roles != [] && (MatchesRole(local, roles[0]) || AnyRole(local, roles[1..]))
  }

  lemma {:induction false} AnyRoleIffExists(local: string, roles: seq<string>)
    ensures AnyRole(local, roles) <==> exists k :: 0 <= k < |roles| && MatchesRole(local, roles[k])
    decreases |roles|
  {
    if roles != [] {
      AnyRoleIffExists(local, roles[1..]);
      if AnyRole(local, roles[1..]) {
        var k :| 0 <= k < |roles[1..]| && MatchesRole(local, roles[1..][k]);
        assert roles[k + 1] == roles[1..][k];
      }
      forall k | 1 <= k < |roles| && MatchesRole(local, roles[k])
        ensures AnyRole(local, roles[1..])
      {
        assert roles[1..][k - 1] == roles[k];
      }
    }
  }

  /** `isRoleEmail`: the early return for an empty local part changes
      nothing, since no role is empty, so the answer is whether some role
      matches the local part. */
  function IsRoleEmail(email: string): (b: bool)
    ensures b <==> exists k :: 0 <= k < |RolePatterns| && MatchesRole(LocalPart(email), RolePatterns[k])
  {
    RolesAreNonEmpty();
    EmptyLocalPartIsNoRole(RolePatterns);
    AnyRoleIffExists(LocalPart(email), RolePatterns);
    LocalPart(email) != [] && AnyRole(LocalPart(email), RolePatterns)
  }

  /** `getRoleType`: the first role, in list order, that the local part
      matches. */
  method GetRoleType(email: string) returns (r: Option<string>)
    ensures r.Some? <==> IsRoleEmail(email)
    ensures r.Some? ==> exists k :: 0 <= k < |RolePatterns| && r.value == RolePatterns[k] &&
                          MatchesRole(LocalPart(email), RolePatterns[k]) &&
                          forall j :: 0 <= j < k ==> !MatchesRole(LocalPart(email), RolePatterns[j])
  {
    var localPart := LocalPart(email);
    if localPart == [] {
      return None;
    }
    r := FirstRole(localPart, RolePatterns);
    AnyRoleIffExists(localPart, RolePatterns);
  }

  /** The loop of `getRoleType` over a role list. */
  method FirstRole(local: string, roles: seq<string>) returns (r: Option<string>)
    ensures r.None? <==> forall k :: 0 <= k < |roles| ==> !MatchesRole(local, roles[k])
    ensures r.Some? ==> exists k :: 0 <= k < |roles| && r.value == roles[k] && MatchesRole(local, roles[k]) &&
                          forall j :: 0 <= j < k ==> !MatchesRole(local, roles[j])
  {
    for i := 0 to |roles|
      invariant forall j :: 0 <= j < i ==> !MatchesRole(local, roles[j])
    {
      if MatchesRole(local, roles[i]) {
        return Some(roles[i]);
      }
    }
    return None;
  }

  /** No role matches an empty local part when every role is non-empty. */
  lemma {:induction false} EmptyLocalPartIsNoRole(roles: seq<string>)
    requires [] !in roles
    ensures !AnyRole([], roles)
  {
    AnyRoleIffExists([], roles);
    forall k | 0 <= k < |roles| ensures !MatchesRole([], roles[k]) {
      assert roles[k] in roles;
    }
  }

  lemma RolesAreNonEmpty()
    ensures [] !in RolePatterns
  {
    assert [] !in Roles1 && [] !in Roles2 && [] !in Roles3;
    assert [] !in Roles4 && [] !in Roles5 && [] !in Roles6;
  }

  /** Both functions ignore case. */
  lemma {:induction false} CaseInsensitive(email: string)
    ensures LocalPart(ToLower(email)) == LocalPart(email)
    ensures IsRoleEmail(ToLower(email)) == IsRoleEmail(email)
  {
    ToLowerIdempotent(email);
  }

  /** The local part of a lower-case name without '@', followed by '@' and
      anything, is that name. */
  lemma {:induction false} LocalPartOf(local: string, domain: string)
    requires '@' !in local && ToLower(local) == local
    ensures LocalPart(local + "@" + domain) == local
  {
    ToLowerConcat(local + "@", domain);
    ToLowerConcat(local, "@");
    assert ToLower("@") == "@";
    SplitAt(local, ToLower(domain));
  }

  lemma SplitAt(a: string, b: string)
    requires '@' !in a
    ensures Split(a + "@" + b, '@')[0] == a
  {
    var s := a + "@" + b;
    assert s[|a|] == '@';
    assert forall i :: 0 <= i < |a| ==> s[i] == a[i];
    assert IndexOf(s, '@') == Some(|a|);
    assert s[..|a|] == a;
  }

  /** A role followed by decimal digits matches that role. */
  lemma RoleWithDigits(role: string, digits: string)
    requires AllDigits(digits)
    ensures MatchesRole(role + digits, role)
  {
    assert (role + digits)[|role|..] == digits;
  }

  /** A local part that ends in anything but a digit matches a role only by
      equalling it. */
  lemma {:induction false} NonDigitEnd(local: string, role: string)
    requires local != [] && !IsDigit(local[|local| - 1])
    ensures MatchesRole(local, role) <==> role == local
  {
    if StartsWith(local, role) && |role| < |local| {
      assert local[|role|..][|local| - 1 - |role|] == local[|local| - 1];
    }
    if role == local {
      assert local[|role|..] == [];
    }
  }

  /** Such a local part is a role address exactly when it is in the list. */
  lemma {:induction false} NonDigitEndRole(local: string, roles: seq<string>)
    requires local != [] && !IsDigit(local[|local| - 1])
    ensures AnyRole(local, roles) <==> local in roles
  {
    AnyRoleIffExists(local, roles);
    forall k | 0 <= k < |roles| ensures MatchesRole(local, roles[k]) <==> roles[k] == local {
      NonDigitEnd(local, roles[k]);
    }
  }

  /** "admin12" is a role local part; "sysadmin" and "admin.x" are not. */
  lemma Admin12IsRole()
    ensures AnyRole("admin12", RolePatterns)
  {
    RoleWithDigits("admin", "12");
    assert "admin" + "12" == "admin12";
    assert RolePatterns[0] == "admin";
    AnyRoleIffExists("admin12", RolePatterns);
  }

  lemma SysadminIsNoRole()
    ensures !AnyRole("sysadmin", RolePatterns)
  {
    NonDigitEndRole("sysadmin", RolePatterns);
    SysadminNotListed();
  }

  lemma DottedIsNoRole()
    ensures !AnyRole("admin.x", RolePatterns)
  {
    NonDigitEndRole("admin.x", RolePatterns);
    DottedNotListed();
  }

  lemma SysadminNotListed()
    ensures "sysadmin" !in RolePatterns
  {
    assert "sysadmin" !in Roles1 && "sysadmin" !in Roles2 && "sysadmin" !in Roles3;
    assert "sysadmin" !in Roles4 && "sysadmin" !in Roles5 && "sysadmin" !in Roles6;
  }

  lemma DottedNotListed()
    ensures "admin.x" !in RolePatterns
  {
    assert "admin.x" !in Roles1 && "admin.x" !in Roles2 && "admin.x" !in Roles3;
    assert "admin.x" !in Roles4 && "admin.x" !in Roles5 && "admin.x" !in Roles6;
  }
}
