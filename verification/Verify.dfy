/**
 The forward_auth decision (internal/server/handlers.go, handleVerify), the
 renewal behind it, and the two places that give a session the admin tier.
 One request reads the clock once and sees one state of the database; requests
 that race an administrator's change are the subject of Membership.dfy.
 */
module Verify {
  import opened Prelude
  import opened Strings
  import opened Authz
  import opened Sessions
  import opened Recheck
  import XAuthPolicy = Policy

  const STEP_MAX_AGE := 43200
  const SESSION_COOKIE := "vps_auth_session"

  /** `openHosts`: some host still admits guests. */
  datatype Config = Config(policy: Policy, totp: bool, life: Lifetimes, openHosts: bool)

  /** What the route files and feeds say now: the groups an application reads as
      roles, those a route names beside admin, the groups filled from feeds, and
      whether every route file could be read. */
  datatype Routes = Routes(roles: set<string>, paired: set<string>, feeds: set<string>, complete: bool)

  /** The database, as far as a session needs it. A failing groups query counts
      as no groups; a failing passkey query as a removed passkey. */
  datatype Db = Db(groups: map<string, seq<string>>, groupsOk: bool, passkeys: map<int, string>)

  function Stored(db: Db, email: string): seq<string> {
    if db.groupsOk && email in db.groups then db.groups[email] else []
  }

  // ---------- the admin tier ----------

  /** The time of the latest second step; for old sessions, of the sign-in. */
  function StepAt(id: Identity): int { if id.step == 0 then id.auth else id.step }

  predicate AdminStepFresh(cfg: Config, id: Identity, now: int) {
    !cfg.totp || (id.kind == NORMAL && id.totp && 1 < StepAt(id) && now - StepAt(id) <= STEP_MAX_AGE)
  }

  function TierRole(cfg: Config, id: Identity, role: string, now: int): string {
    if role == ADMIN && !AdminStepFresh(cfg, id, now) then USER else role
  }

  function RenewalRole(cfg: Config, id: Identity): string {
    if id.kind == GUEST_KIND then (if cfg.openHosts && GuestEligible(id.email) then GUEST else DENY)
    else Role(cfg.policy, id.email)
  }

  predicate TierStale(cfg: Config, id: Identity, now: int) {
    id.kind == NORMAL && HasGroup(id.groups, ADMIN) != (TierRole(cfg, id, RenewalRole(cfg, id), now) == ADMIN)
  }

  predicate PolicyWithdrawn(cfg: Config, id: Identity) {
    (id.kind == NORMAL || id.kind == GUEST_KIND) && RenewalRole(cfg, id) == DENY
  }

  predicate KnownKind(kind: string) { kind == NORMAL || kind == BREAK_GLASS || kind == GUEST_KIND }

  // ---------- a person's groups ----------

  /** A hand-managed group that is hidden, or may be while a route file cannot be read. */
  predicate Withheld(routes: Routes, hidden: set<string>, g: string) {
    var n := Normal(g);
    !IsReservedGroup(n) && (n in hidden || !routes.complete) && n !in routes.feeds
  }

  function Without(routes: Routes, hidden: set<string>, names: seq<string>): seq<string> {
    if names == [] then []
    else
      var front, last := Without(routes, hidden, names[..|names| - 1]), names[|names| - 1];
      if Withheld(routes, hidden, last) then front else front + [last]
  }

  method Withhold(routes: Routes, hidden: set<string>, names: seq<string>) returns (out: seq<string>)
    ensures out == Without(routes, hidden, names)
  {
    out := [];
    for i := 0 to |names|
      invariant out == Without(routes, hidden, names[..i])
    {
      assert names[..i + 1][..i] == names[..i];
      var n := Normal(names[i]);
      if IsReservedGroup(n) {
        out := out + [names[i]];
        continue;
      }
      if n in hidden || !routes.complete {
        if n !in routes.feeds {
          continue;
        }
      }
      out := out + [names[i]];
    }
    assert names[..|names|] == names;
  }

  function WithoutAppRoles(cfg: Config, routes: Routes, email: string, names: seq<string>): seq<string> {
    if Allowed(cfg.policy, email) then names else Without(routes, routes.roles, names)
  }

  function WithoutAdminPaired(cfg: Config, routes: Routes, email: string, tier: string,
                              names: seq<string>): seq<string>
  {
    if tier != USER || Role(cfg.policy, email) != ADMIN || !cfg.totp then names
    else Without(routes, routes.paired, names)
  }

  function HeaderFor(cfg: Config, routes: Routes, email: string, tier: string, stored: seq<string>): string {
    GroupsHeader(tier, WithoutAdminPaired(cfg, routes, email, tier, WithoutAppRoles(cfg, routes, email, stored)))
  }

  /** A guest's groups as a request sees them, filtered by the roles known now. */
  function GuestGroupsNow(cfg: Config, routes: Routes, id: Identity): string {
    var parts := Split(id.groups, IsComma);
    var kept := WithoutAppRoles(cfg, routes, id.email, parts);
    if |kept| == |parts| then id.groups else Join(kept, ',')
  }

  // ---------- the functions of the decision ----------

  datatype Answer =
    | Login(clear: bool)
    | Denied(cookie: Option<Cookie>)
    | StepUp(cookie: Option<Cookie>)
    | Granted(email: string, groups: string, kind: string, cookie: Option<Cookie>)

  /** What a renewal leaves: the groups to decide with, and the cookie, if it could be written. */
  datatype Renewal = Renewal(groups: string, cookie: Option<Cookie>)

  function RenewedGrant(id: Identity): Grant {
    Grant(id.kind, id.totp, id.pk, if id.auth == 0 then 1 else id.auth, id.card, id.step)
  }

  predicate PasskeyStillValid(db: Db, id: Identity) {
    id.pk == 0 || (id.pk in db.passkeys && db.passkeys[id.pk] == id.email)
  }

  function Renewed(cfg: Config, routes: Routes, db: Db, id: Identity, now: int, cookieOk: bool): Option<Renewal> {
    var role := RenewalRole(cfg, id);
    if role == DENY || !PasskeyStillValid(db, id) then None
    else
      var groups := HeaderFor(cfg, routes, id.email, TierRole(cfg, id, role, now), Stored(db, id.email));
      var cookie := Issued(cfg.life, id.email, groups, RenewedGrant(id), SessionTTL(cfg.life, id), now);
      Some(Renewal(groups, if cookieOk then Some(cookie) else None))
  }

  predicate Due(cfg: Config, groupsChangedAt: int, id: Identity, now: int) {
    NeedsRenew(cfg.life, id, now) || GroupsStale(groupsChangedAt, id) || TierStale(cfg, id, now)
      || PolicyWithdrawn(cfg, id)
  }

  predicate Access(id: Identity, p: XAuthPolicy.Parsed) {
    CanAccessApp(id.email, id.groups, id.kind == BREAK_GLASS, id.kind == GUEST_KIND, p.domains, p.groups, p.allowGuests)
  }

  predicate ListNames(list: string, want: string) { want in SplitList(list) }

  predicate WantsAdminStep(cfg: Config, routes: Routes, id: Identity, reqGroups: string, now: int) {
    && id.kind == NORMAL && !AdminStepFresh(cfg, id, now) && RenewalRole(cfg, id) == ADMIN
    && (ListNames(reqGroups, ADMIN) || exists g :: g in routes.paired && ListNames(reqGroups, g))
  }

  /** The groups a request is decided on. */
  function Effective(cfg: Config, routes: Routes, id: Identity): Identity {
    if id.kind == GUEST_KIND then id.(groups := GuestGroupsNow(cfg, routes, id)) else id
  }

  /** A group rule refused the session: read the groups again, unless that cannot
      help or was just done. */
  predicate Rereads(until: Memory, renewed: bool, id: Identity, p: XAuthPolicy.Parsed, now: int) {
    && !renewed && (id.kind == NORMAL || id.kind == GUEST_KIND) && Trim(p.groups) != ""
    && !Remembers(until, (id.email, id.groups), now)
  }

  /** The groups as they are now, for the refusal path. */
  function CurrentGroups(cfg: Config, routes: Routes, db: Db, id: Identity, now: int): Option<string> {
    var role := RenewalRole(cfg, id);
    if role == DENY then Some("")
    else if !db.groupsOk then None
    else Some(HeaderFor(cfg, routes, id.email, TierRole(cfg, id, role, now), Stored(db, id.email)))
  }

  function Granting(id: Identity, cookie: Option<Cookie>): Answer { Granted(id.email, id.groups, id.kind, cookie) }

  /** Decide a request whose session is up to date; the flag says the memory of
      refusals gains this snapshot. */
  function Decided(cfg: Config, routes: Routes, db: Db, until: Memory, id: Identity, renewal: Option<Renewal>,
                   header: string, now: int, cookieOk: bool): (Answer, bool) {
    var cookie := if renewal.Some? then renewal.value.cookie else None;
    var p := XAuthPolicy.Parse(header);
    if !p.ok then (Denied(cookie), false)
    else if Access(id, p) then (Granting(id, cookie), false)
    else if WantsAdminStep(cfg, routes, id, p.groups, now) then (StepUp(cookie), false)
    else if !Rereads(until, renewal.Some?, id, p, now) then (Denied(cookie), false)
    else Reread(cfg, routes, db, id, p, now, cookieOk)
  }

  function Reread(cfg: Config, routes: Routes, db: Db, id: Identity, p: XAuthPolicy.Parsed, now: int,
                  cookieOk: bool): (Answer, bool)
  {
    var current := CurrentGroups(cfg, routes, db, id, now);
    if current.None? then (Denied(None), false)
    else if current.value == id.groups then (Denied(None), true)
    else match Renewed(cfg, routes, db, id, now, cookieOk)
      case None => (Login(true), false)
      case Some(r) =>
        var id' := id.(groups := r.groups);
        (if Access(id', p) then Granting(id', r.cookie) else Denied(r.cookie), false)
  }

  function Answered(cfg: Config, routes: Routes, db: Db, groupsChangedAt: int, until: Memory, id: Identity,
                    header: string, now: int, cookieOk: bool): (Answer, bool) {
    if !KnownKind(id.kind) then (Login(true), false)
    else if !Due(cfg, groupsChangedAt, id, now) then
      Decided(cfg, routes, db, until, Effective(cfg, routes, id), None, header, now, cookieOk)
    else match Renewed(cfg, routes, db, id, now, cookieOk)
      case None => (Login(true), false)
      case Some(r) =>
        Decided(cfg, routes, db, until, Effective(cfg, routes, id.(groups := r.groups)), Some(r), header, now, cookieOk)
  }

  /** The session a request carries, if it has not ended. */
  function Live(cfg: Config, ended: map<Key, int>, tokens: seq<Token>, now: int): Option<Identity> {
    var id := Readable(tokens, now);
    if id.Some? && SessionEnded(cfg.life, ended, id.value, now) then None else id
  }

  function Verified(cfg: Config, routes: Routes, db: Db, cut: Cutoffs, until: Memory, tokens: seq<Token>,
                    header: string, now: int, cookieOk: bool): (Answer, bool) {
    var id := Live(cfg, cut.ended, tokens, now);
    if id.None? then (Login(|tokens| == 1), false)
    else Answered(cfg, routes, db, cut.groupsChangedAt, until, id.value, header, now, cookieOk)
  }

  /** The admin door: the authenticator code was right. */
  function SteppedUp(cfg: Config, routes: Routes, db: Db, id: Identity, now: int): Cookie {
    var grant := Grant(NORMAL, true, id.pk, if id.auth == 0 then 1 else id.auth, 0, now);
    Issued(cfg.life, id.email, HeaderFor(cfg, routes, id.email, ADMIN, Stored(db, id.email)), grant,
           SessionTTL(cfg.life, id), now)
  }

  /** Whether the admin door takes this session. */
  predicate AtAdminDoor(cfg: Config, db: Db, id: Identity, now: int) {
    && id.kind == NORMAL && Role(cfg.policy, id.email) == ADMIN && PasskeyStillValid(db, id)
    && !(HasGroup(id.groups, ADMIN) && AdminStepFresh(cfg, id, now))
  }

  /** A completed sign-in in a role the policy gives. */
  function SignedIn(cfg: Config, routes: Routes, db: Db, email: string, role: string, remember: bool, verified: bool,
                    pk: int, now: int): Cookie
  {
    var kind := if role == GUEST then GUEST_KIND else NORMAL;
    var grant := Grant(kind, verified, pk, 0, 0, if verified then now else 0);
    var tier := TierRole(cfg, Identity(email, "", 0, NORMAL, 0, verified, 0, 0, 0, grant.step), role, now);
    Issued(cfg.life, email, HeaderFor(cfg, routes, email, tier, Stored(db, email)), grant,
           if remember && kind != GUEST_KIND then cfg.life.rememberTTL else cfg.life.ttl, now)
  }

  // ---------- the handler ----------

  class Gateway {
    const cfg: Config
    const cutoffs: SessionCutoffs
    const recheck: GroupRecheck

    constructor (cfg: Config, stored: map<Key, int>)
      ensures this.cfg == cfg && fresh(cutoffs) && fresh(recheck)
      ensures cutoffs.View() == Loaded(stored) && recheck.until == map[] && recheck.gen == 0
    {
      this.cfg := cfg;
      cutoffs := new SessionCutoffs(stored);
      recheck := new GroupRecheck();
    }

    method RenewSession(routes: Routes, db: Db, id: Identity, now: int, groups: Option<string>, cookieOk: bool)
      returns (r: Option<Renewal>)
      requires groups.Some? ==>
               groups.value ==
                 HeaderFor(cfg, routes, id.email, TierRole(cfg, id, RenewalRole(cfg, id), now), Stored(db, id.email))
      ensures r == Renewed(cfg, routes, db, id, now, cookieOk)
    {
      var role := RenewalRole(cfg, id);
      if role == DENY {
        return None;
      }
      if !PasskeyStillValid(db, id) {
        return None;
      }
      var g: string;
      if groups.Some? {
        g := groups.value;
      } else {
        g := ComputeGroups(routes, db, id.email, TierRole(cfg, id, role, now));
      }
      var grant := Grant(id.kind, id.totp, id.pk, id.auth, id.card, id.step);
      if grant.auth == 0 {
        grant := grant.(auth := 1);
      }
      var cookie: Option<Cookie> := None;
      if cookieOk {
        cookie := Some(Issued(cfg.life, id.email, g, grant, SessionTTL(cfg.life, id), now));
      }
      return Some(Renewal(g, cookie));
    }

    method ComputeGroups(routes: Routes, db: Db, email: string, tier: string) returns (header: string)
      ensures header == HeaderFor(cfg, routes, email, tier, Stored(db, email))
    {
      var names := Stored(db, email);
      if !Allowed(cfg.policy, email) {
        names := Withhold(routes, routes.roles, names);
      }
      if tier == USER && Role(cfg.policy, email) == ADMIN && cfg.totp {
        names := Withhold(routes, routes.paired, names);
      }
      header := BuildGroups(tier, names);
    }

    method HandleVerify(routes: Routes, db: Db, cookies: seq<(string, Token)>, header: string, now: int, cookieOk: bool)
      returns (a: Answer)
      modifies recheck
      ensures var before := old(recheck.until);
              var (answer, confirms) := Verified(cfg, routes, db, cutoffs.View(), before,
                                                 Named(cookies, SESSION_COOKIE), header, now, cookieOk);
              var id := Live(cfg, cutoffs.ended, Named(cookies, SESSION_COOKIE), now);
              && a == answer && recheck.gen == old(recheck.gen)
              && recheck.until == if confirms && id.Some? then Confirmed(before, Snap(cfg, routes, id.value), now)
                                  else before
    {
      var read := ReadSession(cookies, SESSION_COOKIE, now);
      var ended := true;
      if read.Some? {
        ended := cutoffs.IsEnded(cfg.life, read.value, now);
      }
      if read.None? || ended {
        return Login(|Named(cookies, SESSION_COOKIE)| == 1);
      }
      var id := read.value;
      if !KnownKind(id.kind) {
        return Login(true);
      }
      var renewal: Option<Renewal> := None;
      if Due(cfg, cutoffs.groupsChangedAt, id, now) {
        renewal := RenewSession(routes, db, id, now, None, cookieOk);
        if renewal.None? {
          return Login(true);
        }
        id := id.(groups := renewal.value.groups);
      }
      a := Decide(routes, db, id, renewal, header, now, cookieOk);
    }

    method Decide(routes: Routes, db: Db, session: Identity, renewal: Option<Renewal>, header: string, now: int,
                  cookieOk: bool) returns (a: Answer)
      modifies recheck
      ensures var before := old(recheck.until);
              var id := Effective(cfg, routes, session);
              var (answer, confirms) := Decided(cfg, routes, db, before, id, renewal, header, now, cookieOk);
              && a == answer && recheck.gen == old(recheck.gen)
              && recheck.until == if confirms then Confirmed(before, (id.email, id.groups), now) else before
    {
      var cookie := if renewal.Some? then renewal.value.cookie else None;
      var domains, groups, allowGuests, ok := XAuthPolicy.ParsePolicy(header);
      if !ok {
        return Denied(cookie);
      }
      var p := XAuthPolicy.Parsed(domains, groups, allowGuests, true);
      var id := session;
      if id.kind == GUEST_KIND {
        var now' := GuestNow(routes, id);
        id := id.(groups := now');
      }
      if !Access(id, p) && WantsAdminStep(cfg, routes, id, groups, now) {
        return StepUp(cookie);
      }
      if Access(id, p) {
        return Granting(id, cookie);
      }
      if renewal.Some? || (id.kind != NORMAL && id.kind != GUEST_KIND) || Trim(groups) == ""
         || recheck.Fresh(id.email, id.groups, now) {
        return Denied(cookie);
      }
      var gen := recheck.gen;
      var current := CurrentGroups(cfg, routes, db, id, now);
      if current.None? {
        return Denied(None);
      }
      if current.value == id.groups {
        recheck.Confirm(id.email, id.groups, now, gen);
        return Denied(None);
      }
      var r := RenewSession(routes, db, id, now, if current.value == "" then None else current, cookieOk);
      if r.None? {
        return Login(true);
      }
      id := id.(groups := r.value.groups);
      if !Access(id, p) {
        return Denied(r.value.cookie);
      }
      return Granting(id, r.value.cookie);
    }

    method GuestNow(routes: Routes, id: Identity) returns (groups: string)
      ensures groups == GuestGroupsNow(cfg, routes, id)
    {
      var parts := Split(id.groups, IsComma);
      var kept := parts;
      if !Allowed(cfg.policy, id.email) {
        kept := Withhold(routes, routes.roles, parts);
      }
      if |kept| == |parts| {
        return id.groups;
      }
      return Join(kept, ',');
    }
  }

  /** The snapshot a refusal is remembered under, when the session was not renewed. */
  function Snap(cfg: Config, routes: Routes, id: Identity): Snapshot {
    var e := Effective(cfg, routes, id);
    (e.email, e.groups)
  }
}
