/**
 What the forward_auth decision promises (internal/server/handlers.go): which
 groups reach an application, what a renewal may change, and when a person the
 groups now admit is let in.
 */
module VerifyLaws {
  import opened Prelude
  import opened Strings
  import opened Authz
  import opened Sessions
  import opened Recheck
  import opened Verify
  import XAuthPolicy = Policy

  // ---------- which groups a header names ----------

  lemma {:induction false} WithoutKeeps(routes: Routes, hidden: set<string>, names: seq<string>)
    ensures forall g :: g in Without(routes, hidden, names) <==> g in names && !Withheld(routes, hidden, g)
  {
    if names == [] {
    } else {
      var front, last := names[..|names| - 1], names[|names| - 1];
      WithoutKeeps(routes, hidden, front);
      assert forall g :: g in names <==> g in front || g == last;
    }
  }

  lemma {:induction false} WithoutAll(routes: Routes, hidden: set<string>, names: seq<string>)
    ensures |Without(routes, hidden, names)| <= |names|
    ensures |Without(routes, hidden, names)| == |names| ==> Without(routes, hidden, names) == names
  {
    if names == [] {
    } else {
      var front, last := names[..|names| - 1], names[|names| - 1];
      WithoutAll(routes, hidden, front);
      assert names == front + [last];
      assert Withheld(routes, hidden, last) ==> Without(routes, hidden, names) == Without(routes, hidden, front);
    }
  }

  lemma WithoutValid(routes: Routes, hidden: set<string>, names: seq<string>)
    requires AllValid(names)
    ensures AllValid(Without(routes, hidden, names))
  {
  }

  predicate IsBaseRole(role: string) { role == "admin" || role == "user" || role == "guest" }

  /** A group kept from a header: no base role, not filled from a feed, and on the list of
      those hidden; or on no list that can be trusted, while a route file cannot be read. */
  predicate Hides(routes: Routes, hidden: set<string>, g: string) {
    !IsBaseRole(g) && g !in routes.feeds && (g in hidden || !routes.complete)
  }

  lemma WithheldExactly(routes: Routes, hidden: set<string>, g: string)
    requires ValidGroupName(g)
    ensures Withheld(routes, hidden, g) <==> Hides(routes, hidden, g)
  {
    ValidNameIsPlain(g);
  }

  /** A group reaches the header: a base role only as the role itself; any other
      group when it is stored, unless it is an application role and the person is
      an outsider, or it is paired with admin and an administrator's second step
      is missing. */
  lemma HeaderNames(cfg: Config, routes: Routes, email: string, tier: string, stored: seq<string>, g: string)
    requires IsBaseRole(tier) && AllValid(stored)
    ensures HasGroup(HeaderFor(cfg, routes, email, tier, stored), g) <==>
              || g == tier
              || (&& g in stored && !IsBaseRole(g)
                  && !(!Allowed(cfg.policy, email) && Hides(routes, routes.roles, g))
                  && !(tier == USER && Role(cfg.policy, email) == ADMIN && cfg.totp
                       && Hides(routes, routes.paired, g)))
  {
    if g in stored {
      WithheldExactly(routes, routes.roles, g);
      WithheldExactly(routes, routes.paired, g);
    }
    var names := WithoutAppRoles(cfg, routes, email, stored);
    WithoutKeeps(routes, routes.roles, stored);
    WithoutValid(routes, routes.roles, stored);
    WithoutKeeps(routes, routes.paired, names);
    WithoutValid(routes, routes.paired, names);
    HeaderNamesExactly(tier, WithoutAdminPaired(cfg, routes, email, tier, names), g);
  }

  ghost predicate AllLack(parts: seq<string>, p: char -> bool) { forall i :: 0 <= i < |parts| ==> Lacks(parts[i], p) }

  /** The parts of a split hold no separator. */
  lemma {:induction false} SplitParts(s: string, p: char -> bool)
    ensures AllLack(Split(s, p), p)
  {
    if s == "" {
    } else {
      SplitParts(s[1..], p);
      var rest := Split(s[1..], p);
      assert Lacks(rest[0], p);
      assert Lacks([s[0]] + rest[0], p) || p(s[0]);
    }
  }

  /** What is left of a guest's groups: those there were, less the application roles
      while the person is an outsider. */
  lemma GuestGroupsExactly(cfg: Config, routes: Routes, id: Identity, g: string)
    requires ValidGroupName(g)
    ensures HasGroup(GuestGroupsNow(cfg, routes, id), g) <==>
              HasGroup(id.groups, g) && (Allowed(cfg.policy, id.email) || !Hides(routes, routes.roles, g))
  {
    var parts := Split(id.groups, IsComma);
    var kept := WithoutAppRoles(cfg, routes, id.email, parts);
    WithheldExactly(routes, routes.roles, g);
    ValidNameIsPlain(g);
    KeptParts(cfg, routes, id);
    if HasGroup(id.groups, g) && (Allowed(cfg.policy, id.email) || !Hides(routes, routes.roles, g)) {
      var i :| 0 <= i < |parts| && Trim(parts[i]) == g;
      WithheldOfTrimmed(routes, routes.roles, parts[i], g);
      WithoutKeeps(routes, routes.roles, parts);
      assert parts[i] in kept;
      var j :| 0 <= j < |kept| && kept[j] == parts[i];
    }
    if HasGroup(GuestGroupsNow(cfg, routes, id), g) {
      GuestGroupsOnlyShrink(cfg, routes, id, g);
    }
  }

  /** The groups as they are read back after filtering; nothing left reads as one blank. */
  lemma KeptParts(cfg: Config, routes: Routes, id: Identity)
    ensures var kept := WithoutAppRoles(cfg, routes, id.email, Split(id.groups, IsComma));
            Split(GuestGroupsNow(cfg, routes, id), IsComma) == if kept == [] then [""] else kept
  {
    var parts := Split(id.groups, IsComma);
    var kept := WithoutAppRoles(cfg, routes, id.email, parts);
    WithoutKeeps(routes, routes.roles, parts);
    WithoutAll(routes, routes.roles, parts);
    assert Split("", IsComma) == [""];
    if |kept| != |parts| && kept != [] {
      SplitParts(id.groups, IsComma);
      forall i | 0 <= i < |kept| ensures Lacks(kept[i], IsComma) { assert kept[i] in parts; }
      SplitJoin(kept, ',', IsComma);
    }
  }

  lemma GuestGroupsOnlyShrink(cfg: Config, routes: Routes, id: Identity, g: string)
    requires HasGroup(GuestGroupsNow(cfg, routes, id), g) && ValidGroupName(g)
    ensures HasGroup(id.groups, g)
    ensures Allowed(cfg.policy, id.email) || !Withheld(routes, routes.roles, g)
  {
    var parts := Split(id.groups, IsComma);
    var kept := WithoutAppRoles(cfg, routes, id.email, parts);
    KeptParts(cfg, routes, id);
    WithoutKeeps(routes, routes.roles, parts);
    var i :| 0 <= i < |kept| && Trim(kept[i]) == g;
    assert kept[i] in parts;
    ValidNameIsPlain(g);
    WithheldOfTrimmed(routes, routes.roles, kept[i], g);
  }

  lemma WithheldOfTrimmed(routes: Routes, hidden: set<string>, part: string, g: string)
    requires Trim(part) == g && ValidGroupName(g)
    ensures Withheld(routes, hidden, part) == Withheld(routes, hidden, g)
  {
  }

  // ---------- the admin group ----------

  /** An administrator now and, with TOTP on, within twelve hours of a second step; for
      a session from before steps were recorded, of its sign-in. */
  predicate HoldsAdminTier(cfg: Config, id: Identity, now: int) {
    var step := if id.step == 0 then id.auth else id.step;
    && Role(cfg.policy, id.email) == ADMIN
    && (cfg.totp ==> id.kind == "" && id.totp && 1 < step && now - step <= 12 * 3600)
  }

  lemma TierHeader(cfg: Config, routes: Routes, db: Db, id: Identity, now: int)
    requires AllValid(Stored(db, id.email)) && RenewalRole(cfg, id) != DENY
    ensures var tier := TierRole(cfg, id, RenewalRole(cfg, id), now);
            HasGroup(HeaderFor(cfg, routes, id.email, tier, Stored(db, id.email)), ADMIN) <==> tier == ADMIN
  {
    HeaderNames(cfg, routes, id.email, TierRole(cfg, id, RenewalRole(cfg, id), now), Stored(db, id.email), ADMIN);
  }

  /** Whatever the session held, its groups after the due renewal name admin
      exactly when it holds the admin tier. */
  ghost predicate Settled(cfg: Config, id: Identity, groups: string, now: int) {
    if id.kind == NORMAL then HasGroup(groups, ADMIN) <==> HoldsAdminTier(cfg, id, now)
    else id.kind == GUEST_KIND ==> !HasGroup(groups, ADMIN)
  }

  lemma RenewedSettles(cfg: Config, routes: Routes, db: Db, id: Identity, now: int, cookieOk: bool)
    requires AllValid(Stored(db, id.email)) && Renewed(cfg, routes, db, id, now, cookieOk).Some?
    requires id.kind == NORMAL || id.kind == GUEST_KIND
    ensures Settled(cfg, id, Renewed(cfg, routes, db, id, now, cookieOk).value.groups, now)
  {
    TierHeader(cfg, routes, db, id, now);
  }

  /** A grant hands on the session's own groups, or those just read. */
  ghost predicate GrantFrom(cfg: Config, routes: Routes, db: Db, id: Identity, p: XAuthPolicy.Parsed, a: Answer,
                            now: int, cookieOk: bool)
  {
    a.Granted? ==>
      && a.email == id.email && a.kind == id.kind && Access(id.(groups := a.groups), p)
      && (a.groups == id.groups
          || ((id.kind == NORMAL || id.kind == GUEST_KIND) && Renewed(cfg, routes, db, id, now, cookieOk).Some?
              && a.groups == Renewed(cfg, routes, db, id, now, cookieOk).value.groups))
  }

  lemma RereadGrants(cfg: Config, routes: Routes, db: Db, id: Identity, p: XAuthPolicy.Parsed, now: int, cookieOk: bool)
    requires id.kind == NORMAL || id.kind == GUEST_KIND
    ensures GrantFrom(cfg, routes, db, id, p, Reread(cfg, routes, db, id, p, now, cookieOk).0, now, cookieOk)
  {
  }

  lemma DecidedGrants(cfg: Config, routes: Routes, db: Db, until: Memory, id: Identity, renewal: Option<Renewal>,
                      header: string, now: int, cookieOk: bool)
    ensures var a := Decided(cfg, routes, db, until, id, renewal, header, now, cookieOk).0;
            GrantFrom(cfg, routes, db, id, XAuthPolicy.Parse(header), a, now, cookieOk)
              && (a.Granted? ==> XAuthPolicy.Parse(header).ok)
  {
    if id.kind == NORMAL || id.kind == GUEST_KIND {
      RereadGrants(cfg, routes, db, id, XAuthPolicy.Parse(header), now, cookieOk);
    }
    assert id.(groups := id.groups) == id;
  }

  lemma GrantSettles(cfg: Config, routes: Routes, db: Db, id: Identity, p: XAuthPolicy.Parsed, a: Answer, now: int,
                     cookieOk: bool)
    requires AllValid(Stored(db, id.email)) && Settled(cfg, id, id.groups, now)
    requires a.Granted? && GrantFrom(cfg, routes, db, id, p, a, now, cookieOk)
    ensures a.email == id.email && a.kind == id.kind && Settled(cfg, id, a.groups, now)
  {
    if a.groups != id.groups {
      RenewedSettles(cfg, routes, db, id, now, cookieOk);
    }
  }

  lemma Settles(cfg: Config, routes: Routes, db: Db, until: Memory, id: Identity, renewal: Option<Renewal>,
                header: string, now: int, cookieOk: bool)
    requires AllValid(Stored(db, id.email)) && Settled(cfg, id, id.groups, now)
    ensures var a := Decided(cfg, routes, db, until, id, renewal, header, now, cookieOk).0;
            a.Granted? ==> a.email == id.email && a.kind == id.kind && Settled(cfg, id, a.groups, now)
  {
    var a := Decided(cfg, routes, db, until, id, renewal, header, now, cookieOk).0;
    DecidedGrants(cfg, routes, db, until, id, renewal, header, now, cookieOk);
    if a.Granted? {
      GrantSettles(cfg, routes, db, id, XAuthPolicy.Parse(header), a, now, cookieOk);
    }
  }

  lemma EffectiveSettles(cfg: Config, routes: Routes, id: Identity, now: int)
    requires Settled(cfg, id, id.groups, now)
    ensures Settled(cfg, id, Effective(cfg, routes, id).groups, now)
  {
    if id.kind == GUEST_KIND && HasGroup(GuestGroupsNow(cfg, routes, id), ADMIN) {
      GuestGroupsOnlyShrink(cfg, routes, id, ADMIN);
    }
  }

  /** On every normal session /verify grants, Remote-Groups names admin exactly
      when the policy now names the address an administrator and, with TOTP on,
      a second step lies within twelve hours. A guest's never names it. */
  lemma AdminHeaderExactly(cfg: Config, routes: Routes, db: Db, cut: Cutoffs, until: Memory, tokens: seq<Token>,
                           header: string, now: int, cookieOk: bool)
    requires var id := Live(cfg, cut.ended, tokens, now);
             id.Some? ==>
               AllValid(Stored(db, id.value.email))
                 && (id.value.kind == GUEST_KIND ==> !HasGroup(id.value.groups, ADMIN))
    ensures var id, a := Live(cfg, cut.ended, tokens, now),
            Verified(cfg, routes, db, cut, until, tokens, header, now, cookieOk).0;
            a.Granted? ==>
              && id.Some? && a.email == id.value.email && a.kind == id.value.kind
              && (a.kind == NORMAL ==> (HasGroup(a.groups, ADMIN) <==> HoldsAdminTier(cfg, id.value, now)))
              && (a.kind == GUEST_KIND ==> !HasGroup(a.groups, ADMIN))
  {
    var live := Live(cfg, cut.ended, tokens, now);
    if live.Some? && KnownKind(live.value.kind) {
      var id := live.value;
      if !Due(cfg, cut.groupsChangedAt, id, now) {
        NotDueSettles(cfg, cut.groupsChangedAt, id, now);
        EffectiveSettles(cfg, routes, id, now);
        Settles(cfg, routes, db, until, Effective(cfg, routes, id), None, header, now, cookieOk);
      } else if Renewed(cfg, routes, db, id, now, cookieOk).Some? {
        var r := Renewed(cfg, routes, db, id, now, cookieOk);
        var id' := id.(groups := r.value.groups);
        DueIsRenewable(cfg, cut.groupsChangedAt, id, now);
        RenewedSettles(cfg, routes, db, id, now, cookieOk);
        EffectiveSettles(cfg, routes, id', now);
        Settles(cfg, routes, db, until, Effective(cfg, routes, id'), r, header, now, cookieOk);
      }
    }
  }

  lemma NotDueSettles(cfg: Config, groupsChangedAt: int, id: Identity, now: int)
    requires !Due(cfg, groupsChangedAt, id, now) && (id.kind == GUEST_KIND ==> !HasGroup(id.groups, ADMIN))
    ensures Settled(cfg, id, id.groups, now)
  {
  }

  /** A break-glass session is never due. */
  lemma DueIsRenewable(cfg: Config, groupsChangedAt: int, id: Identity, now: int)
    requires KnownKind(id.kind) && Due(cfg, groupsChangedAt, id, now)
    ensures id.kind == NORMAL || id.kind == GUEST_KIND
  {
  }

  /** A sign-in's groups name admin exactly when its role does and, with TOTP on,
      the second step was passed; a guest's never do. */
  lemma SignInTier(cfg: Config, routes: Routes, db: Db, email: string, role: string, remember: bool, verified: bool,
                   pk: int, now: int)
    requires IsBaseRole(role) && AllValid(Stored(db, email)) && 1 < now
    ensures HasGroup(SignedIn(cfg, routes, db, email, role, remember, verified, pk, now).id.groups, ADMIN)
            <==> role == ADMIN && (!cfg.totp || verified)
  {
    var step := if verified then now else 0;
    var tier := TierRole(cfg, Identity(email, "", 0, NORMAL, 0, verified, 0, 0, 0, step), role, now);
    HeaderNames(cfg, routes, email, tier, Stored(db, email), ADMIN);
  }

  // ---------- what a renewal may change ----------

  function CookieOf(a: Answer): Option<Cookie> { if a.Login? then None else a.cookie }

  /** A session re-issued: the same person, kind, passkey, card, second step and
      sign-in time, and the lifetime it had. */
  ghost predicate Reissues(lt: Lifetimes, id: Identity, c: Cookie, now: int) {
    && c.id == id.(groups := c.id.groups, iat := now, ttl := c.id.ttl, auth := if id.auth == 0 then 1 else id.auth)
    && c.exp == now + c.id.ttl && c.id.ttl == (if 0 < id.ttl then id.ttl else lt.ttl)
  }

  /** The cookie that renewing this session now would write. */
  ghost predicate IsRenewal(cfg: Config, routes: Routes, db: Db, id: Identity, c: Cookie, now: int) {
    var r := Renewed(cfg, routes, db, id, now, true);
    id.kind != BREAK_GLASS && r.Some? && r.value.cookie == Some(c)
  }

  lemma RenewalReissues(cfg: Config, routes: Routes, db: Db, id: Identity, c: Cookie, now: int)
    requires IsRenewal(cfg, routes, db, id, c, now)
    ensures Reissues(cfg.life, id, c, now)
  {
  }

  /** A renewal works the groups out afresh, whatever the session's were. */
  lemma RenewedIgnoresGroups(cfg: Config, routes: Routes, db: Db, id: Identity, groups: string, now: int,
                             cookieOk: bool)
    ensures Renewed(cfg, routes, db, id.(groups := groups), now, cookieOk) ==
            Renewed(cfg, routes, db, id, now, cookieOk)
  {
  }

  lemma RereadWrites(cfg: Config, routes: Routes, db: Db, id: Identity, p: XAuthPolicy.Parsed, now: int, cookieOk: bool)
    ensures var c := CookieOf(Reread(cfg, routes, db, id, p, now, cookieOk).0);
            c.Some? ==>
              cookieOk && Renewed(cfg, routes, db, id, now, true).Some?
                && Renewed(cfg, routes, db, id, now, true).value.cookie == c
  {
  }

  lemma RereadRenews(cfg: Config, routes: Routes, db: Db, id: Identity, session: Identity, p: XAuthPolicy.Parsed,
                     now: int, cookieOk: bool)
    requires id == session.(groups := id.groups) && id.kind != BREAK_GLASS
    ensures var c := CookieOf(Reread(cfg, routes, db, id, p, now, cookieOk).0);
            c.Some? ==> IsRenewal(cfg, routes, db, session, c.value, now)
  {
    RereadWrites(cfg, routes, db, id, p, now, cookieOk);
    RenewedIgnoresGroups(cfg, routes, db, session, id.groups, now, true);
  }

  lemma DecidedRenews(cfg: Config, routes: Routes, db: Db, until: Memory, id: Identity, session: Identity,
                      renewal: Option<Renewal>,
                      header: string, now: int, cookieOk: bool)
    requires id == session.(groups := id.groups)
    requires renewal.Some? && renewal.value.cookie.Some? ==>
             IsRenewal(cfg, routes, db, session, renewal.value.cookie.value, now)
    ensures var c := CookieOf(Decided(cfg, routes, db, until, id, renewal, header, now, cookieOk).0);
            c.Some? ==> IsRenewal(cfg, routes, db, session, c.value, now)
  {
    if id.kind != BREAK_GLASS {
      RereadRenews(cfg, routes, db, id, session, XAuthPolicy.Parse(header), now, cookieOk);
    }
  }

  /** Every cookie /verify writes re-issues the session the request carried: a
      guest stays a guest, a sign-in time never moves forward, and a break-glass
      session gets no cookie. */
  lemma VerifyOnlyReissues(cfg: Config, routes: Routes, db: Db, cut: Cutoffs, until: Memory, tokens: seq<Token>,
                           header: string, now: int, cookieOk: bool)
    ensures var id, c := Live(cfg, cut.ended, tokens, now),
            CookieOf(Verified(cfg, routes, db, cut, until, tokens, header, now, cookieOk).0);
            c.Some? ==>
              id.Some? && IsRenewal(cfg, routes, db, id.value, c.value, now)
                && Reissues(cfg.life, id.value, c.value, now)
  {
    var live := Live(cfg, cut.ended, tokens, now);
    if live.Some? && KnownKind(live.value.kind) {
      var id := live.value;
      if !Due(cfg, cut.groupsChangedAt, id, now) {
        DecidedRenews(cfg, routes, db, until, Effective(cfg, routes, id), id, None, header, now, cookieOk);
      } else if Renewed(cfg, routes, db, id, now, cookieOk).Some? {
        var r := Renewed(cfg, routes, db, id, now, cookieOk);
        DueIsRenewable(cfg, cut.groupsChangedAt, id, now);
        DecidedRenews(cfg, routes, db, until, Effective(cfg, routes, id.(groups := r.value.groups)), id, r, header, now,
                      cookieOk);
      }
      var c := CookieOf(Verified(cfg, routes, db, cut, until, tokens, header, now, cookieOk).0);
      if c.Some? {
        RenewalReissues(cfg, routes, db, id, c.value, now);
      }
    }
  }

  /** Filtering again what was just worked out changes nothing. */
  lemma FreshIsEffective(cfg: Config, routes: Routes, id: Identity, stored: seq<string>)
    requires AllValid(stored) && id.kind == GUEST_KIND && id.groups == HeaderFor(cfg, routes, id.email, GUEST, stored)
    ensures Effective(cfg, routes, id) == id
  {
    var names := WithoutAppRoles(cfg, routes, id.email, stored);
    WithoutKeeps(routes, routes.roles, stored);
    WithoutValid(routes, routes.roles, stored);
    HeaderNamesExactly(GUEST, names, GUEST);
    var parts := Split(id.groups, IsComma);
    GroupNamesAre(GUEST, names);
    if !Allowed(cfg.policy, id.email) {
      if Without(routes, routes.roles, parts) != parts {
        var g := SomeWithheld(routes, routes.roles, parts);
        ValidNameIsPlain(g);
      }
    }
  }

  /** Groups are lost only when one is withheld. */
  lemma {:induction false} SomeWithheld(routes: Routes, hidden: set<string>, names: seq<string>) returns (g: string)
    requires Without(routes, hidden, names) != names
    ensures g in names && Withheld(routes, hidden, g)
  {
    var front, last := names[..|names| - 1], names[|names| - 1];
    if Withheld(routes, hidden, last) {
      g := last;
    } else {
      assert names == front + [last];
      g := SomeWithheld(routes, hidden, front);
    }
  }

  // ---------- when a session is renewed, and what is decided ----------

  /** The session has ended: by age, by a cutoff of its person or card no earlier than
      its sign-in, or by its passkey's removal. A sign-in at an unknown time, 0 or 1,
      is as old as can be. */
  predicate IsOver(cfg: Config, ended: map<Key, int>, id: Identity, now: int) {
    var since := if id.auth <= 1 then 0 else id.auth;
    || (0 < cfg.life.maxAge && since + cfg.life.maxAge < now)
    || (Person(id.email) in ended && since <= ended[Person(id.email)])
    || (id.kind == "break_glass" && id.card != 0 && Card(id.card) in ended && since <= ended[Card(id.card)])
    || (id.pk != 0 && Passkey(id.pk) in ended)
  }

  /** Without exactly one cookie, signed, in date and not over, the answer is the login
      page, and one useless cookie is cleared; so it is for a session of no known kind. */
  lemma NoSessionNoAnswer(cfg: Config, routes: Routes, db: Db, cut: Cutoffs, until: Memory, tokens: seq<Token>,
                          header: string, now: int, cookieOk: bool)
    ensures var a := Verified(cfg, routes, db, cut, until, tokens, header, now, cookieOk).0;
            var one := |tokens| == 1 && tokens[0].Some?;
            if one && now <= tokens[0].value.exp && !IsOver(cfg, cut.ended, tokens[0].value.id, now) then
              && Live(cfg, cut.ended, tokens, now) == Some(tokens[0].value.id)
              && (tokens[0].value.id.kind !in {"", "guest", "break_glass"} ==> a == Login(true))
            else Live(cfg, cut.ended, tokens, now) == None && a == Login(|tokens| == 1)
  {
  }

  /** The policy, and for a guest some host, still admits the session's person. */
  predicate StillAdmitted(cfg: Config, id: Identity) {
    if id.kind == "guest" then cfg.openHosts && GuestEligible(id.email) else Allowed(cfg.policy, id.email)
  }

  /** What makes a renewal due: the interval has passed, membership has changed no earlier
      than the session was dated, its admin tier is not what it should be, or its person
      is no longer admitted. */
  predicate OutOfDate(cfg: Config, groupsChangedAt: int, id: Identity, now: int) {
    || cfg.life.renew < now - id.iat
    || (groupsChangedAt != 0 && id.iat <= groupsChangedAt)
    || (id.kind == "" && HasGroup(id.groups, ADMIN) != HoldsAdminTier(cfg, id, now))
    || !StillAdmitted(cfg, id)
  }

  lemma DueExactly(cfg: Config, groupsChangedAt: int, id: Identity, now: int)
    requires id.kind in {"", "guest", "break_glass"}
    ensures Due(cfg, groupsChangedAt, id, now) <==> id.kind != "break_glass" && OutOfDate(cfg, groupsChangedAt, id, now)
  {
  }

  /** The tier the session's groups should have now. */
  function TierNow(cfg: Config, id: Identity, now: int): string {
    if id.kind == "guest" then GUEST else if HoldsAdminTier(cfg, id, now) then ADMIN else USER
  }

  /** The person's groups as the database has them now. */
  function GroupsNow(cfg: Config, routes: Routes, db: Db, id: Identity, now: int): string {
    HeaderFor(cfg, routes, id.email, TierNow(cfg, id, now),
              if db.groupsOk && id.email in db.groups then db.groups[id.email] else [])
  }

  /** The cookie of a renewal: those groups, and otherwise the same session, dated now. */
  ghost predicate RenewalCookie(cfg: Config, routes: Routes, db: Db, id: Identity, now: int, cookieOk: bool,
                                c: Option<Cookie>) {
    if cookieOk then
      c.Some? && c.value.id.groups == GroupsNow(cfg, routes, db, id, now) && Reissues(cfg.life, id, c.value, now)
    else c == None
  }

  predicate HasItsPasskey(db: Db, id: Identity) {
    id.pk != 0 ==> id.pk in db.passkeys && db.passkeys[id.pk] == id.email
  }

  lemma RenewedExactly(cfg: Config, routes: Routes, db: Db, id: Identity, now: int, cookieOk: bool)
    requires id.kind == "" || id.kind == "guest"
    ensures var r := Renewed(cfg, routes, db, id, now, cookieOk);
            && (r.Some? <==> StillAdmitted(cfg, id) && HasItsPasskey(db, id))
            && (r.Some? ==> r.value.groups == GroupsNow(cfg, routes, db, id, now)
                            && RenewalCookie(cfg, routes, db, id, now, cookieOk, r.value.cookie))
  {
  }

  /** The route would want an administrator's second step, which is missing. */
  predicate NeedsStep(cfg: Config, routes: Routes, id: Identity, groups: string, now: int) {
    && id.kind == "" && Role(cfg.policy, id.email) == ADMIN && !HoldsAdminTier(cfg, id, now)
    && (ADMIN in SplitList(groups) || exists g :: g in routes.paired && g in SplitList(groups))
  }

  /** The answer on these groups with no more reading. */
  ghost predicate AnsweredOn(cfg: Config, routes: Routes, id: Identity, p: XAuthPolicy.Parsed, now: int,
                             cookie: Option<Cookie>, a: Answer) {
    if p.ok && Admit(id, p) then a == Granted(id.email, id.groups, id.kind, cookie)
    else if p.ok && NeedsStep(cfg, routes, id, p.groups, now) then a == StepUp(cookie)
    else a == Denied(cookie)
  }

  predicate Admit(id: Identity, p: XAuthPolicy.Parsed) {
    CanAccessApp(id.email, id.groups, id.kind == "break_glass", id.kind == "guest", p.domains, p.groups, p.allowGuests)
  }

  lemma DecidedAfterRenewal(cfg: Config, routes: Routes, db: Db, until: Memory, id: Identity, r: Renewal,
                            header: string,
                            now: int, cookieOk: bool)
    ensures AnsweredOn(cfg, routes, id, XAuthPolicy.Parse(header), now, r.cookie,
                       Decided(cfg, routes, db, until, id, Some(r), header, now, cookieOk).0)
  {
  }

  /** A session refused if its person or passkey is gone, and otherwise renewed and
      decided on the groups worked out now. */
  ghost predicate RenewedFirst(cfg: Config, routes: Routes, db: Db, id: Identity, header: string, now: int,
                               cookieOk: bool, a: Answer) {
    if !StillAdmitted(cfg, id) || !HasItsPasskey(db, id) then a == Login(true)
    else
      exists c :: RenewalCookie(cfg, routes, db, id, now, cookieOk, c)
        && AnsweredOn(cfg, routes, id.(groups := GroupsNow(cfg, routes, db, id, now)), XAuthPolicy.Parse(header), now,
                      c, a)
  }

  lemma RenewedIsEffective(cfg: Config, routes: Routes, db: Db, id: Identity, now: int)
    requires (id.kind == "" || id.kind == "guest") && AllValid(Stored(db, id.email))
    ensures var id' := id.(groups := GroupsNow(cfg, routes, db, id, now)); Effective(cfg, routes, id') == id'
  {
    if id.kind == GUEST_KIND {
      FreshIsEffective(cfg, routes, id.(groups := GroupsNow(cfg, routes, db, id, now)), Stored(db, id.email));
    }
  }

  lemma RenewalDecides(cfg: Config, routes: Routes, db: Db, groupsChangedAt: int, until: Memory, id: Identity,
                       header: string, now: int, cookieOk: bool)
    requires (id.kind == "" || id.kind == "guest") && AllValid(Stored(db, id.email))
    requires Due(cfg, groupsChangedAt, id, now)
    ensures var (a, confirms) := Answered(cfg, routes, db, groupsChangedAt, until, id, header, now, cookieOk);
            !confirms && RenewedFirst(cfg, routes, db, id, header, now, cookieOk, a)
  {
    RenewedExactly(cfg, routes, db, id, now, cookieOk);
    RenewedIsEffective(cfg, routes, db, id, now);
    var r := Renewed(cfg, routes, db, id, now, cookieOk);
    if r.Some? {
      DecidedAfterRenewal(cfg, routes, db, until, id.(groups := r.value.groups), r.value, header, now, cookieOk);
    }
  }

  /** A session out of date, for whatever reason, is never decided on the groups it
      carries: it is refused if its person or passkey is gone, and otherwise everything,
      answer and cookie, rests on the groups worked out now. */
  lemma OutOfDateIsRenewed(cfg: Config, routes: Routes, db: Db, cut: Cutoffs, until: Memory, tokens: seq<Token>,
                           header: string, now: int, cookieOk: bool)
    requires var live := Live(cfg, cut.ended, tokens, now);
             && live.Some? && (live.value.kind == "" || live.value.kind == "guest")
             && OutOfDate(cfg, cut.groupsChangedAt, live.value, now) && AllValid(Stored(db, live.value.email))
    ensures var id := Live(cfg, cut.ended, tokens, now).value;
            var (a, confirms) := Verified(cfg, routes, db, cut, until, tokens, header, now, cookieOk);
            !confirms && RenewedFirst(cfg, routes, db, id, header, now, cookieOk, a)
  {
    var id := Live(cfg, cut.ended, tokens, now).value;
    DueExactly(cfg, cut.groupsChangedAt, id, now);
    RenewalDecides(cfg, routes, db, cut.groupsChangedAt, until, id, header, now, cookieOk);
  }

  /** The groups a session in date is decided on: its own, less what a guest may not hold now. */
  function OwnGroups(cfg: Config, routes: Routes, id: Identity): Identity {
    if id.kind == "guest" then id.(groups := GuestGroupsNow(cfg, routes, id)) else id
  }

  /** A rule on groups refused the session, and the database may say more than it. */
  predicate WorthReading(until: Memory, id: Identity, p: XAuthPolicy.Parsed, now: int) {
    && id.kind != "break_glass" && Trim(p.groups) != ""
    && !((id.email, id.groups) in until && now < until[(id.email, id.groups)])
  }

  /** What reading the groups again comes to, and whether the refusal is remembered. */
  ghost predicate ReadAgain(cfg: Config, routes: Routes, db: Db, id: Identity, p: XAuthPolicy.Parsed, now: int,
                            cookieOk: bool, a: Answer, confirms: bool) {
    if !db.groupsOk then !confirms && a == Denied(None)
    else if GroupsNow(cfg, routes, db, id, now) == id.groups then confirms && a == Denied(None)
    else if !HasItsPasskey(db, id) then !confirms && a == Login(true)
    else
      && !confirms
      && exists c :: RenewalCookie(cfg, routes, db, id, now, cookieOk, c)
           && var id' := id.(groups := GroupsNow(cfg, routes, db, id, now));
              a == if Admit(id', p) then Granted(id'.email, id'.groups, id'.kind, c) else Denied(c)
  }

  lemma RereadExactly(cfg: Config, routes: Routes, db: Db, id: Identity, p: XAuthPolicy.Parsed, now: int,
                      cookieOk: bool)
    requires (id.kind == "" || id.kind == "guest") && StillAdmitted(cfg, id)
    ensures var (a, confirms) := Reread(cfg, routes, db, id, p, now, cookieOk);
            ReadAgain(cfg, routes, db, id, p, now, cookieOk, a, confirms)
  {
    RenewedExactly(cfg, routes, db, id, now, cookieOk);
  }

  /** The whole answer to a session that needs no renewal, on its own groups. */
  ghost predicate OnOwnGroups(cfg: Config, routes: Routes, db: Db, until: Memory, id: Identity, header: string,
                              now: int,
                              cookieOk: bool, a: Answer, confirms: bool) {
    var p := XAuthPolicy.Parse(header);
    if !p.ok || Admit(id, p) || NeedsStep(cfg, routes, id, p.groups, now) || !WorthReading(until, id, p, now) then
      !confirms && AnsweredOn(cfg, routes, id, p, now, None, a)
    else ReadAgain(cfg, routes, db, id, p, now, cookieOk, a, confirms)
  }

  lemma DecidedOnOwnGroups(cfg: Config, routes: Routes, db: Db, until: Memory, id: Identity, header: string, now: int,
                           cookieOk: bool)
    requires id.kind in {"", "guest", "break_glass"} && (id.kind != "break_glass" ==> StillAdmitted(cfg, id))
    ensures var (a, confirms) := Decided(cfg, routes, db, until, id, None, header, now, cookieOk);
            OnOwnGroups(cfg, routes, db, until, id, header, now, cookieOk, a, confirms)
  {
    if id.kind != BREAK_GLASS {
      RereadExactly(cfg, routes, db, id, XAuthPolicy.Parse(header), now, cookieOk);
    }
  }

  /** A session in date is decided on its own groups and gets no cookie; but when they are
      refused, and a rule on groups refused them, and the same refusal is not remembered,
      the groups are read again: the same ones are refused and remembered, and new ones
      renew the session and decide. */
  lemma UpToDateIsDecided(cfg: Config, routes: Routes, db: Db, cut: Cutoffs, until: Memory, tokens: seq<Token>,
                          header: string, now: int, cookieOk: bool)
    requires var live := Live(cfg, cut.ended, tokens, now);
             && live.Some? && live.value.kind in {"", "guest", "break_glass"}
             && (live.value.kind == "break_glass" || !OutOfDate(cfg, cut.groupsChangedAt, live.value, now))
    ensures var (a, confirms) := Verified(cfg, routes, db, cut, until, tokens, header, now, cookieOk);
            var id := OwnGroups(cfg, routes, Live(cfg, cut.ended, tokens, now).value);
            OnOwnGroups(cfg, routes, db, until, id, header, now, cookieOk, a, confirms)
  {
    var id := Live(cfg, cut.ended, tokens, now).value;
    DueExactly(cfg, cut.groupsChangedAt, id, now);
    DecidedOnOwnGroups(cfg, routes, db, until, OwnGroups(cfg, routes, id), header, now, cookieOk);
  }

  // ---------- who is let in ----------

  /** A grant is earned: the session is live, the policy still admits its person,
      and the route's rule admits the groups handed on. */
  lemma GrantIsEarned(cfg: Config, routes: Routes, db: Db, cut: Cutoffs, until: Memory, tokens: seq<Token>,
                      header: string, now: int, cookieOk: bool)
    ensures var live, a, p := Live(cfg, cut.ended, tokens, now),
            Verified(cfg, routes, db, cut, until, tokens, header, now, cookieOk).0, XAuthPolicy.Parse(header);
            a.Granted? ==>
              && live.Some? && KnownKind(a.kind) && p.ok
              && (a.kind == BREAK_GLASS ==> a.groups == live.value.groups)
              && (a.kind != BREAK_GLASS ==> RenewalRole(cfg, live.value) != DENY)
              && CanAccessApp(a.email, a.groups, a.kind == BREAK_GLASS, a.kind ==
                              GUEST_KIND, p.domains, p.groups, p.allowGuests)
  {
    var live := Live(cfg, cut.ended, tokens, now);
    if live.Some? && KnownKind(live.value.kind) {
      var id := live.value;
      if !Due(cfg, cut.groupsChangedAt, id, now) {
        DecidedGrants(cfg, routes, db, until, Effective(cfg, routes, id), None, header, now, cookieOk);
      } else if Renewed(cfg, routes, db, id, now, cookieOk).Some? {
        var r := Renewed(cfg, routes, db, id, now, cookieOk);
        DueIsRenewable(cfg, cut.groupsChangedAt, id, now);
        DecidedGrants(cfg, routes, db, until, Effective(cfg, routes, id.(groups := r.value.groups)), r, header, now,
                      cookieOk);
      }
    }
  }

  lemma GrantHidesAppRoles(cfg: Config, routes: Routes, db: Db, id: Identity, p: XAuthPolicy.Parsed, a: Answer,
                           now: int, cookieOk: bool, g: string)
    requires AllValid(Stored(db, id.email)) && id.kind == GUEST_KIND && !Allowed(cfg.policy, id.email)
             && ValidGroupName(g)
    requires HasGroup(id.groups, g) ==> !Withheld(routes, routes.roles, g)
    requires a.Granted? && GrantFrom(cfg, routes, db, id, p, a, now, cookieOk) && HasGroup(a.groups, g)
    ensures !Withheld(routes, routes.roles, g)
  {
    ValidNameIsPlain(g);
    if a.groups != id.groups {
      HeaderNames(cfg, routes, id.email, GUEST, Stored(db, id.email), g);
    }
  }

  /** An outsider's guest session never carries an application role to an
      application, even one that became a role after they signed in. */
  lemma GuestHoldsNoAppRole(cfg: Config, routes: Routes, db: Db, cut: Cutoffs, until: Memory, tokens: seq<Token>,
                            header: string, now: int, cookieOk: bool, g: string)
    requires var id := Live(cfg, cut.ended, tokens, now);
             id.Some? ==> AllValid(Stored(db, id.value.email)) && !Allowed(cfg.policy, id.value.email)
    requires ValidGroupName(g) && Hides(routes, routes.roles, g)
    ensures var a := Verified(cfg, routes, db, cut, until, tokens, header, now, cookieOk).0;
            a.Granted? && a.kind == GUEST_KIND ==> !HasGroup(a.groups, g)
  {
    var live := Live(cfg, cut.ended, tokens, now);
    var a := Verified(cfg, routes, db, cut, until, tokens, header, now, cookieOk).0;
    WithheldExactly(routes, routes.roles, g);
    if a.Granted? && a.kind == GUEST_KIND && HasGroup(a.groups, g) {
      var id := live.value;
      GrantIsEarned(cfg, routes, db, cut, until, tokens, header, now, cookieOk);
      var r := if Due(cfg, cut.groupsChangedAt, id, now) then Renewed(cfg, routes, db, id, now, cookieOk) else None;
      var session := if r.Some? then id.(groups := r.value.groups) else id;
      var e := Effective(cfg, routes, session);
      DecidedGrants(cfg, routes, db, until, e, r, header, now, cookieOk);
      if HasGroup(e.groups, g) {
        GuestGroupsOnlyShrink(cfg, routes, session, g);
      }
      GrantHidesAppRoles(cfg, routes, db, e, XAuthPolicy.Parse(header), a, now, cookieOk, g);
    }
  }

  /** The person's groups, worked out now. */
  function Now(cfg: Config, routes: Routes, db: Db, id: Identity, now: int): Identity {
    id.(groups := HeaderFor(cfg, routes, id.email, TierRole(cfg, id, RenewalRole(cfg, id), now), Stored(db, id.email)))
  }

  lemma BlankGroupsAdmitAlike(id: Identity, id': Identity, p: XAuthPolicy.Parsed)
    requires Trim(p.groups) == "" && p.groups == Trim(p.groups) && id' == id.(groups := id'.groups)
    ensures Access(id, p) == Access(id', p)
  {
    assert Split("", ListSeparator) == [""] && [""][1..] == [];
    assert NonEmpty([""]) == NonEmpty([""][1..]);
  }

  /** Someone the groups now admit is let in at their next request, whatever
      their cookie's older groups said, unless that same refusal was confirmed
      within the last half minute or the route wants their second step. */
  lemma AddedMemberAdmitted(cfg: Config, routes: Routes, db: Db, cut: Cutoffs, until: Memory, tokens: seq<Token>,
                            header: string, now: int, cookieOk: bool)
    requires var live, p := Live(cfg, cut.ended, tokens, now), XAuthPolicy.Parse(header);
             && live.Some? && p.ok && (live.value.kind == NORMAL || live.value.kind == GUEST_KIND)
             && RenewalRole(cfg, live.value) != DENY && PasskeyStillValid(db, live.value)
             && db.groupsOk && AllValid(Stored(db, live.value.email))
             && Access(Now(cfg, routes, db, live.value, now), p)
             && !WantsAdminStep(cfg, routes, live.value, p.groups, now)
             && !Remembers(until, Snap(cfg, routes, live.value), now)
    ensures Verified(cfg, routes, db, cut, until, tokens, header, now, cookieOk).0.Granted?
  {
    var id, p := Live(cfg, cut.ended, tokens, now).value, XAuthPolicy.Parse(header);
    var current := Now(cfg, routes, db, id, now);
    if id.kind == GUEST_KIND {
      FreshIsEffective(cfg, routes, current, Stored(db, id.email));
    }
    if !Due(cfg, cut.groupsChangedAt, id, now) {
      var e := Effective(cfg, routes, id);
      if Trim(p.groups) == "" {
        ParsedGroupsTrimmed(header);
        BlankGroupsAdmitAlike(e, current, p);
      }
    }
  }

  lemma ParsedGroupsTrimmed(header: string)
    ensures Trim(XAuthPolicy.Parse(header).groups) == "" ==> XAuthPolicy.Parse(header).groups == ""
  {
    var fields := Split(header, IsSemicolon);
    ReadGroupsTrimmed(fields);
  }

  lemma {:induction false} ReadGroupsTrimmed(fields: seq<string>)
    ensures var f := XAuthPolicy.ReadAll(fields);
            f.Some? && Trim(f.value.groups) == "" ==> f.value.groups == ""
  {
    if fields == [] {
    } else {
      var front, field := fields[..|fields| - 1], Trim(fields[|fields| - 1]);
      ReadGroupsTrimmed(front);
      var cut := XAuthPolicy.Cut(field);
      if cut.Some? {
        TrimTwice(cut.value.1);
      }
    }
  }

  lemma TrimTwice(s: string)
    ensures Trim(Trim(s)) == Trim(s)
  {
    var l := TrimLeft(s);
    TrimLeftStarts(s);
    TrimRightEnds(l);
    TrimOfTrimmed(TrimRight(l));
  }

  lemma {:induction false} TrimLeftStarts(s: string)
    ensures TrimLeft(s) != "" ==> !IsSpace(TrimLeft(s)[0])
  {
    if s != "" && IsSpace(s[0]) {
      TrimLeftStarts(s[1..]);
    }
  }

  lemma {:induction false} TrimRightEnds(s: string)
    ensures var t := TrimRight(s); t <= s && (t != "" ==> !IsSpace(t[|t| - 1]))
  {
    if s != "" && IsSpace(s[|s| - 1]) {
      TrimRightEnds(s[..|s| - 1]);
    }
  }
}
