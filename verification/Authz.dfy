/**
 Group names, the Remote-Groups string, and the per-app access rule
 (internal/authz/authz.go).
 */
module Authz {
  import opened Prelude
  import opened Strings

  const ADMIN := "admin"
  const USER := "user"
  const DENY := ""
  const GUEST := "guest"

  predicate IsReservedGroup(name: string) { Lower(Trim(name)) in {ADMIN, USER, GUEST} }

  predicate GroupChar(c: char) { 'a' <= c <= 'z' || '0' <= c <= '9' || c == '-' || c == '_' }

  predicate ValidGroupName(name: string) {
    name != "" && forall i :: 0 <= i < |name| ==> GroupChar(name[i])
  }

  /** Add a name, trimmed, unless it is blank or already there. */
  function Added(out: seq<string>, g: string): seq<string> {
    if Trim(g) == "" || Trim(g) in out then out else out + [Trim(g)]
  }

  /** The names BuildGroups joins: the role, then the stored groups that are not
      reserved, each once. */
  function GroupNames(role: string, dbGroups: seq<string>): seq<string> {
    if dbGroups == [] then Added([], role)
    else
      var front := GroupNames(role, dbGroups[..|dbGroups| - 1]);
      var last := dbGroups[|dbGroups| - 1];
      if IsReservedGroup(last) then front else Added(front, last)
  }

  function GroupsHeader(role: string, dbGroups: seq<string>): string { Join(GroupNames(role, dbGroups), ',') }

  method BuildGroups(role: string, dbGroups: seq<string>) returns (header: string)
    ensures header == GroupsHeader(role, dbGroups)
  {
    var seen, out := {}, [];
    var r := Trim(role);
    if r != "" {
      seen, out := {r}, [r];
    }
    for i := 0 to |dbGroups|
      invariant out == GroupNames(role, dbGroups[..i]) && seen == Elements(out)
    {
      assert dbGroups[..i + 1][..i] == dbGroups[..i];
      var g := Trim(dbGroups[i]);
      if !IsReservedGroup(dbGroups[i]) && g != "" && g !in seen {
        seen, out := seen + {g}, out + [g];
      }
    }
    assert dbGroups[..|dbGroups|] == dbGroups;
    return Join(out, ',');
  }

  predicate HasGroup(groups: string, target: string) {
    var parts := Split(groups, IsComma);
    exists i :: 0 <= i < |parts| && Trim(parts[i]) == target
  }

  predicate ListSeparator(c: char) { c in {',', ' ', ';', '\n', '\r', '\t'} }

  function Lowered(parts: seq<string>): seq<string> {
    seq(|parts|, i requires 0 <= i < |parts| => Lower(parts[i]))
  }

  /** A policy list's entries, lower-cased, blanks dropped. */
  function SplitList(s: string): seq<string> { Lowered(NonEmpty(Split(s, ListSeparator))) }

  function DomainOf(email: string): string {
    var e := Lower(Trim(email));
    var at := LastIndex(e, '@');
    if at < 0 || at == |e| - 1 then "" else e[at + 1..]
  }

  predicate AnyGroup(groups: string, list: string) {
    var wants := SplitList(list);
    exists i :: 0 <= i < |wants| && HasGroup(groups, wants[i])
  }

  predicate CanAccessApp(email: string, groups: string, breakGlass: bool, guest: bool, reqDomains: string,
                         reqGroups: string, allowGuests: bool)
  {
    if guest then allowGuests || AnyGroup(groups, reqGroups)
    else if Trim(reqDomains) == "" && Trim(reqGroups) == "" then !breakGlass
    else
      || (DomainOf(email) != "" && !breakGlass && DomainOf(email) in SplitList(reqDomains))
      || AnyGroup(groups, reqGroups)
  }

  // ---------- who may sign in ----------

  const WILDCARD := "*"

  datatype Policy = Policy(allowedDomains: set<string>, adminEmails: set<string>, openReg: bool)

  function Normal(s: string): string { Lower(Trim(s)) }

  method NewPolicy(allowedDomains: seq<string>, adminEmails: seq<string>) returns (p: Policy)
    ensures p.openReg == exists d :: d in allowedDomains && Normal(d) == WILDCARD
    ensures p.allowedDomains == (set d | d in allowedDomains && Normal(d) != WILDCARD :: Normal(d))
    ensures p.adminEmails == (set e | e in adminEmails :: Normal(e))
    ensures Configures(allowedDomains, adminEmails, p)
  {
    p := Policy({}, {}, false);
    for i := 0 to |allowedDomains|
      invariant p.openReg == exists d :: d in allowedDomains[..i] && Normal(d) == WILDCARD
      invariant p.allowedDomains == (set d | d in allowedDomains[..i] && Normal(d) != WILDCARD :: Normal(d))
      invariant p.adminEmails == {}
    {
      assert allowedDomains[..i + 1] == allowedDomains[..i] + [allowedDomains[i]];
      var d := Normal(allowedDomains[i]);
      if d == WILDCARD {
        p := p.(openReg := true);
        continue;
      }
      p := p.(allowedDomains := p.allowedDomains + {d});
    }
    assert allowedDomains[..|allowedDomains|] == allowedDomains;
    for i := 0 to |adminEmails|
      invariant p.openReg == exists d :: d in allowedDomains && Normal(d) == WILDCARD
      invariant p.allowedDomains == (set d | d in allowedDomains && Normal(d) != WILDCARD :: Normal(d))
      invariant p.adminEmails == (set e | e in adminEmails[..i] :: Normal(e))
    {
      assert adminEmails[..i + 1] == adminEmails[..i] + [adminEmails[i]];
      p := p.(adminEmails := p.adminEmails + {Normal(adminEmails[i])});
    }
    assert adminEmails[..|adminEmails|] == adminEmails;
  }

  predicate IsDot(c: char) { c == '.' }

  /** At least two labels, none empty, the last of two or more letters. */
  predicate ValidPublicDomain(domain: string) {
    var labels := Split(domain, IsDot);
    var tld := labels[|labels| - 1];
    && domain != "" && |domain| <= 253 && 2 <= |labels|
    && (forall i :: 0 <= i < |labels| ==> labels[i] != "")
    && 2 <= |tld| && (forall i :: 0 <= i < |tld| ==> 'a' <= tld[i] <= 'z')
  }

  function Role(p: Policy, email: string): string {
    var e := Normal(email);
    var domain := DomainOf(email);
    if e == "" then DENY
    else if e in p.adminEmails then ADMIN
    else if domain == "" then DENY
    else if domain in p.allowedDomains || (p.openReg && ValidPublicDomain(domain)) then USER
    else DENY
  }

  predicate Allowed(p: Policy, email: string) { Role(p, email) != DENY }

  predicate GuestEligible(email: string) {
    LastIndex(Normal(email), '@') > 0 && ValidPublicDomain(DomainOf(email))
  }

  function LoginRole(p: Policy, email: string, openHost: bool): string {
    if Role(p, email) != DENY then Role(p, email)
    else if openHost && GuestEligible(email) then GUEST
    else DENY
  }

  // ---------- who the configured lists admit ----------

  /** The list holds this entry, give or take capitals and the spaces around it. */
  ghost predicate Lists(list: seq<string>, entry: string) { exists d :: d in list && Lower(Trim(d)) == entry }

  predicate IsAt(c: char) { c == '@' }

  /** The address, so far as capitals and outer spaces go, is local@domain. */
  ghost predicate Written(email: string, local: string, domain: string) {
    Lower(Trim(email)) == local + "@" + domain && Lacks(domain, IsAt)
  }

  ghost predicate Word(s: string) { forall i :: 0 <= i < |s| ==> 'a' <= s[i] <= 'z' }

  /** At least two labels with dots between them, none empty, 253 characters at most,
      and the last a word of two letters or more. */
  ghost predicate Deliverable(domain: string) {
    exists labels: seq<string> :: Dotted(domain, labels) && 2 <= |labels| && Labels(labels)
  }

  ghost predicate Dotted(domain: string, labels: seq<string>) { domain == Join(labels, '.') && |domain| <= 253 }

  ghost predicate Labels(labels: seq<string>)
    requires labels != []
  {
    && (forall i :: 0 <= i < |labels| ==> labels[i] != "" && Lacks(labels[i], IsDot))
    && 2 <= |labels[|labels| - 1]| && Word(labels[|labels| - 1])
  }

  /** The lists name the domain, or open registration admits it. */
  ghost predicate DomainAdmitted(domains: seq<string>, domain: string) {
    && domain != ""
    && ((Lists(domains, domain) && domain != "*") || (Lists(domains, "*") && Deliverable(domain)))
  }

  /** The policy that these lists configure. */
  ghost predicate Configures(domains: seq<string>, admins: seq<string>, p: Policy) {
    && (p.openReg <==> Lists(domains, "*"))
    && (forall d :: d in p.allowedDomains <==> Lists(domains, d) && d != "*")
    && (forall e :: e in p.adminEmails <==> Lists(admins, e))
  }

  lemma {:induction false} LastIndexIs(local: string, domain: string)
    requires Lacks(domain, IsAt)
    ensures LastIndex(local + "@" + domain, '@') == |local|
    decreases |domain|
  {
    var s := local + "@" + domain;
    if domain == "" {
    } else {
      assert s[..|s| - 1] == local + "@" + domain[..|domain| - 1];
      assert s[|s| - 1] == domain[|domain| - 1] && !IsAt(domain[|domain| - 1]);
      LastIndexIs(local, domain[..|domain| - 1]);
    }
  }

  lemma {:induction false} LastIndexNone(s: string)
    requires Lacks(s, IsAt)
    ensures LastIndex(s, '@') == -1
  {
    if s == "" {
    } else {
      assert !IsAt(s[|s| - 1]);
      LastIndexNone(s[..|s| - 1]);
    }
  }

  /** Joining undoes splitting. */
  lemma {:induction false} JoinSplit(s: string, sep: char, p: char -> bool)
    requires forall c :: p(c) <==> c == sep
    ensures Join(Split(s, p), sep) == s
    ensures forall i :: 0 <= i < |Split(s, p)| ==> Lacks(Split(s, p)[i], p)
  {
    if s == "" {
    } else {
      JoinSplit(s[1..], sep, p);
      var rest := Split(s[1..], p);
      if p(s[0]) {
        assert ([""] + rest)[1..] == rest;
      } else {
        assert ([[s[0]] + rest[0]] + rest[1..])[1..] == rest[1..];
        assert Lacks(rest[0], p);
      }
    }
  }

  lemma DeliverableExactly(domain: string)
    ensures ValidPublicDomain(domain) <==> Deliverable(domain)
  {
    if ValidPublicDomain(domain) {
      JoinSplit(domain, '.', IsDot);
      assert Dotted(domain, Split(domain, IsDot)) && Labels(Split(domain, IsDot));
    }
    if labels: seq<string> :| Dotted(domain, labels) && 2 <= |labels| && Labels(labels) {
      SplitJoin(labels, '.', IsDot);
    }
  }

  lemma WrittenParts(email: string, local: string, domain: string)
    requires Written(email, local, domain)
    ensures DomainOf(email) == domain && LastIndex(Normal(email), '@') == |local|
  {
    LastIndexIs(local, domain);
    assert (local + "@" + domain)[|local| + 1..] == domain;
  }

  /** What the lists make of an address local@domain: an administrator exactly when it
      is listed as one, else a user exactly when its domain is admitted, and otherwise
      nobody; and at an open host a guest exactly when it is nobody, has a local part
      and could receive mail. */
  lemma RoleExactly(domains: seq<string>, admins: seq<string>, p: Policy, email: string, local: string, domain: string)
    requires Configures(domains, admins, p) && Written(email, local, domain)
    ensures var admin, user := Lists(admins, local + "@" + domain), DomainAdmitted(domains, domain);
            && (Role(p, email) == ADMIN <==> admin)
            && (Role(p, email) == USER <==> !admin && user)
            && (Role(p, email) == DENY <==> !admin && !user)
            && (LoginRole(p, email, false) == Role(p, email))
            && LoginRole(p, email, true) ==
               if !admin && !user && local != "" && Deliverable(domain) then GUEST else Role(p, email)
  {
    WrittenParts(email, local, domain);
    DeliverableExactly(domain);
  }

  /** Without an "@" there is no domain to admit. */
  lemma RoleWithoutDomain(domains: seq<string>, admins: seq<string>, p: Policy, email: string, openHost: bool)
    requires Configures(domains, admins, p) && Lacks(Lower(Trim(email)), IsAt)
    ensures var e := Lower(Trim(email));
            LoginRole(p, email, openHost) == Role(p, email) == if e != "" && Lists(admins, e) then ADMIN else DENY
  {
    LastIndexNone(Normal(email));
  }

  /** The lists admit the address. */
  ghost predicate Admitted(domains: seq<string>, admins: seq<string>, email: string) {
    || (Lower(Trim(email)) != "" && Lists(admins, Lower(Trim(email))))
    || exists local, domain :: Written(email, local, domain) && DomainAdmitted(domains, domain)
  }

  /** An address that could receive mail. */
  ghost predicate GuestAddress(email: string) {
    exists local, domain :: Written(email, local, domain) && local != "" && Deliverable(domain)
  }

  /** Every address has an "@" to be cut at, or none. */
  lemma {:induction false} CutAtLast(s: string) returns (local: string, domain: string)
    ensures Lacks(s, IsAt) || (s == local + "@" + domain && Lacks(domain, IsAt))
  {
    if s == "" {
      local, domain := "", "";
    } else {
      var front, last := s[..|s| - 1], s[|s| - 1];
      local, domain := CutAtLast(front);
      if last == '@' {
        local, domain := front, "";
      } else {
        domain := domain + [last];
        assert s == front + [last];
      }
    }
  }

  lemma WrittenOnce(email: string, local: string, domain: string)
    requires Written(email, local, domain)
    ensures forall l, d :: Written(email, l, d) ==> l == local && d == domain
  {
    forall l, d | Written(email, l, d) ensures l == local && d == domain {
      WrittenParts(email, local, domain);
      WrittenParts(email, l, d);
      assert Lower(Trim(email))[..|l|] == l && Lower(Trim(email))[..|local|] == local;
    }
  }

  lemma NotWritten(email: string)
    requires Lacks(Lower(Trim(email)), IsAt)
    ensures forall l, d :: !Written(email, l, d)
  {
    forall l: string, d: string ensures !Written(email, l, d) {
      assert IsAt((l + "@" + d)[|l|]);
    }
  }

  lemma GuestExactly(email: string, local: string, domain: string)
    requires Written(email, local, domain)
    ensures GuestEligible(email) <==> local != "" && Deliverable(domain)
  {
    WrittenParts(email, local, domain);
    DeliverableExactly(domain);
  }

  /** Who may sign in at all, as a user or as a guest. */
  lemma AdmittedExactly(domains: seq<string>, admins: seq<string>, p: Policy, email: string)
    requires Configures(domains, admins, p)
    ensures Allowed(p, email) <==> Admitted(domains, admins, email)
    ensures GuestEligible(email) <==> GuestAddress(email)
    ensures Role(p, email) == ADMIN <==> Lower(Trim(email)) != "" && Lists(admins, Lower(Trim(email)))
  {
    var local, domain := CutAtLast(Lower(Trim(email)));
    if Lacks(Lower(Trim(email)), IsAt) {
      RoleWithoutDomain(domains, admins, p, email, false);
      LastIndexNone(Normal(email));
      NotWritten(email);
    } else {
      assert Written(email, local, domain);
      WrittenOnce(email, local, domain);
      RoleExactly(domains, admins, p, email, local, domain);
      GuestExactly(email, local, domain);
    }
  }

  // ---------- the header names exactly the groups ----------

  /** A valid name has no separator, space or capital in it. */
  lemma ValidNameIsPlain(name: string)
    requires ValidGroupName(name)
    ensures Trim(name) == name && Lower(name) == name
    ensures Lacks(name, IsComma) && Lacks(name, ListSeparator)
    ensures IsReservedGroup(name) <==> name in {ADMIN, USER, GUEST}
  {
  }

  ghost predicate AllValid(names: seq<string>) { forall i :: 0 <= i < |names| ==> ValidGroupName(names[i]) }

  /** The names of a header: the role first, then each stored name that is not a
      role, once each. */
  lemma {:induction false} GroupNamesAre(role: string, dbGroups: seq<string>)
    requires ValidGroupName(role) && AllValid(dbGroups)
    ensures var names := GroupNames(role, dbGroups);
            && names != [] && names[0] == role && Distinct(names) && AllValid(names)
            && (forall n :: n in names <==> n == role || (n in dbGroups && n !in {ADMIN, USER, GUEST}))
    decreases |dbGroups|
  {
    ValidNameIsPlain(role);
    if dbGroups == [] {
    } else {
      var front, last := dbGroups[..|dbGroups| - 1], dbGroups[|dbGroups| - 1];
      GroupNamesAre(role, front);
      ValidNameIsPlain(last);
      assert forall n :: n in dbGroups <==> n in front || n == last;
    }
  }

  /** Splitting the header gives those names back: no name is lost, repeated, or
      forged, and only the role itself can stand for a role. */
  lemma HeaderNamesExactly(role: string, dbGroups: seq<string>, target: string)
    requires ValidGroupName(role) && AllValid(dbGroups)
    ensures Split(GroupsHeader(role, dbGroups), IsComma) == GroupNames(role, dbGroups)
    ensures HasGroup(GroupsHeader(role, dbGroups), target)
            <==> target == role || (target in dbGroups && target !in {ADMIN, USER, GUEST})
  {
    var names := GroupNames(role, dbGroups);
    GroupNamesAre(role, dbGroups);
    forall i | 0 <= i < |names| ensures Lacks(names[i], IsComma) && Trim(names[i]) == names[i] {
      ValidNameIsPlain(names[i]);
    }
    SplitJoin(names, ',', IsComma);
    if target in names {
      var i :| 0 <= i < |names| && names[i] == target;
      assert Trim(Split(GroupsHeader(role, dbGroups), IsComma)[i]) == target;
    }
  }

  // ---------- the access rule ----------

  /** A list as it is written in a guard. */
  function Printed(list: seq<string>): string { Join(list, ' ') }

  /** An entry a guard may list: lower case, without separators or spaces. */
  ghost predicate Entry(s: string) {
    s != "" && Lacks(s, ListSeparator) && Lacks(s, IsSpace) && Lower(s) == s
  }

  ghost predicate Entries(list: seq<string>) { forall i :: 0 <= i < |list| ==> Entry(list[i]) }

  lemma PrintedListIsRead(list: seq<string>)
    requires Entries(list)
    ensures SplitList(Printed(list)) == list
    ensures Trim(Printed(list)) == "" <==> list == []
  {
    if list == [] {
      assert Split("", ListSeparator) == [""] && [""][1..] == [];
      assert NonEmpty([""]) == NonEmpty([""][1..]);
    } else {
      SplitJoin(list, ' ', ListSeparator);
      NonEmptyKeepsAll(list);
      assert Lowered(list) == list;
      JoinStarts(list, ' ');
      var s := Printed(list);
      assert !IsSpace(s[0]) by { assert s[0] == list[0][0]; }
      assert TrimLeft(s) == s;
      TrimRightKeepsFirst(s);
    }
  }

  lemma JoinStarts(parts: seq<string>, sep: char)
    requires parts != [] && parts[0] != ""
    ensures Join(parts, sep) != "" && Join(parts, sep)[0] == parts[0][0]
  {
  }

  lemma {:induction false} TrimRightKeepsFirst(s: string)
    requires s != "" && !IsSpace(s[0])
    ensures TrimRight(s) != ""
    decreases |s|
  {
    if IsSpace(s[|s| - 1]) {
      TrimRightKeepsFirst(s[..|s| - 1]);
    }
  }

  /** The rule over sets: who a route admits. */
  ghost predicate Admits(domain: string, groups: set<string>, breakGlass: bool, guest: bool, domains: set<string>,
                         wanted: set<string>, allowGuests: bool)
  {
    if guest then allowGuests || groups * wanted != {}
    else if domains == {} && wanted == {} then !breakGlass
    else (!breakGlass && domain != "" && domain in domains) || groups * wanted != {}
  }

  /** On the strings the gateway really writes, CanAccessApp is the rule over sets. */
  lemma AccessIsTheSetRule(email: string, role: string, dbGroups: seq<string>, breakGlass: bool, guest: bool,
                           domains: seq<string>, wanted: seq<string>, allowGuests: bool)
    requires ValidGroupName(role) && AllValid(dbGroups) && Entries(domains) && Entries(wanted)
    ensures CanAccessApp(email, GroupsHeader(role, dbGroups), breakGlass, guest, Printed(domains), Printed(wanted),
                         allowGuests)
            <==> Admits(DomainOf(email), Elements(GroupNames(role, dbGroups)), breakGlass, guest, Elements(domains),
                        Elements(wanted), allowGuests)
  {
    PrintedListIsRead(domains);
    PrintedListIsRead(wanted);
    GroupNamesAre(role, dbGroups);
    var header, names := GroupsHeader(role, dbGroups), GroupNames(role, dbGroups);
    forall t ensures HasGroup(header, t) <==> t in names {
      HeaderNamesExactly(role, dbGroups, t);
    }
    assert AnyGroup(header, Printed(wanted)) <==> Elements(names) * Elements(wanted) != {} by {
      if AnyGroup(header, Printed(wanted)) {
        var i :| 0 <= i < |wanted| && HasGroup(header, wanted[i]);
        assert wanted[i] in Elements(names) * Elements(wanted);
      }
      if t :| t in Elements(names) * Elements(wanted) {
        var i :| 0 <= i < |wanted| && wanted[i] == t;
        assert HasGroup(header, SplitList(Printed(wanted))[i]);
      }
    }
    assert domains == [] <==>
           Elements(domains) == {} by { if domains != [] { assert domains[0] in Elements(domains); } }
    assert wanted == [] <==> Elements(wanted) == {} by { if wanted != [] { assert wanted[0] in Elements(wanted); } }
  }
}
