/**
 The life of every session over any run of the gateway: sign-ins, requests that
 renew, second steps at the admin door, card scans, cutoffs, membership marks and
 restarts, in any order and with the store failing at any of them.

 Sessions are cookies the gateway keeps no record of; `jar` records them, each
 with the time its person really signed in (or its card was really scanned).
 */
module SessionRuns {
  import opened Prelude
  import opened Strings
  import opened Authz
  import opened Sessions
  import opened Recheck
  import opened Verify
  import opened VerifyLaws

  const EMERGENCY_MAX := 43200

  // ---------- emergency sessions ----------

  /** The lifetime an emergency session gets: the administrators' saved one, else
      the configured one, clamped to twelve hours. */
  function EffectiveTTL(configured: int, saved: Option<int>): int {
    var ttl := if saved.Some? && 0 < saved.value then saved.value else configured;
    if EMERGENCY_MAX < ttl then EMERGENCY_MAX else ttl
  }

  function Scanned(lt: Lifetimes, title: string, group: string, card: int, configured: int, saved: Option<int>,
                   now: int): Cookie
  {
    Issued(lt, "breakglass:" + title, GroupsHeader(group, []), Grant(BREAK_GLASS, false, 0, 0, card, 0),
           EffectiveTTL(configured, saved), now)
  }

  /** The clamp holds an emergency session to twelve hours exactly when the
      lifetime it clamps is positive, or the ordinary session lifetime, which
      stands in for any other, is itself that short. */
  lemma EmergencyIsShort(lt: Lifetimes, title: string, group: string, card: int, configured: int, saved: Option<int>,
                         now: int)
    ensures Scanned(lt, title, group, card, configured, saved, now).exp <= now + 12 * 3600 <==>
              (saved.Some? && 0 < saved.value) || 0 < configured || lt.ttl <= 12 * 3600
  {
  }

  /** An emergency session: for its card's holder and target alone, from the moment of the
      scan, and for the saved lifetime, else the configured one, twelve hours at most. */
  lemma ScanExactly(lt: Lifetimes, title: string, group: string, card: int, configured: int, saved: Option<int>,
                    now: int)
    requires ValidGroupName(group)
    ensures var c := Scanned(lt, title, group, card, configured, saved, now);
            var wanted := if saved.Some? && 0 < saved.value then saved.value else configured;
            && c.id.email == "breakglass:" + title && c.id.groups == group && c.id.kind == "break_glass"
            && c.id.card == card && c.id.pk == 0 && !c.id.totp && c.id.iat == c.id.auth == now && c.id.step == 0
            && (now != 0 && 0 < wanted ==> c.exp == now + if wanted < 12 * 3600 then wanted else 12 * 3600)
  {
    ValidNameIsPlain(group);
  }

  /** It happens: with a configured lifetime of 0, which the configuration accepts,
      nothing saved and ordinary sessions of a day, an emergency session lasts a day. */
  lemma EmergencyCanLastADay(lt: Lifetimes, title: string, group: string, card: int, now: int)
    requires lt.ttl == 86400
    ensures Scanned(lt, title, group, card, 0, None, now).exp == now + 86400
  {
  }

  // ---------- runs ----------

  datatype Minted = Minted(cookie: Cookie, born: int)

  /** `log` lists every cutoff the store recorded; `steps` every second step passed. */
  datatype World = World(jar: seq<Minted>, cut: Cutoffs, log: set<(Key, int)>, steps: set<(string, int)>)

  datatype Event =
    | SignIn(email: string, openHost: bool, remember: bool, verified: bool, pk: int, now: int)
    | Request(k: nat, until: Memory, header: string, cookieOk: bool, now: int)
    | AdminDoor(k: nat, now: int)
    | Scan(title: string, group: string, card: int, configured: int, saved: Option<int>, now: int)
    | End(key: Key, at: int, storeOk: bool)
    | Mark(at: int, storeOk: bool)
    | Restart

  /** An event, with the routes and the database as they are when it happens. */
  datatype Moment = Moment(event: Event, routes: Routes, db: Db)

  function Token(w: World, k: nat): seq<Sessions.Token> {
    if k < |w.jar| then [Some(w.jar[k].cookie)] else []
  }

  function AnsweredTo(cfg: Config, w: World, m: Moment): Answer
    requires m.event.Request?
  {
    Verified(cfg, m.routes, m.db, w.cut, m.event.until, Token(w, m.event.k), m.event.header, m.event.now,
             m.event.cookieOk).0
  }

  predicate TakesStep(cfg: Config, w: World, m: Moment)
    requires m.event.AdminDoor?
  {
    var id := Live(cfg, w.cut.ended, Token(w, m.event.k), m.event.now);
    id.Some? && AtAdminDoor(cfg, m.db, id.value, m.event.now)
  }

  function Step(cfg: Config, w: World, m: Moment): World {
    match m.event
    case SignIn(email, openHost, remember, verified, pk, now) =>
      var role := LoginRole(cfg.policy, email, openHost);
      if role == DENY || (pk != 0 && role == GUEST) then w // a passkey never makes a guest
      else w.(jar := w.jar + [Minted(SignedIn(cfg, m.routes, m.db, email, role, remember, verified, pk, now), now)],
         steps := if verified then w.steps + {(email, now)} else w.steps)
    case Request(k, _, _, _, now) =>
      var c := CookieOf(AnsweredTo(cfg, w, m));
      if c.Some? && k < |w.jar| then w.(jar := w.jar + [Minted(c.value, w.jar[k].born)]) else w
    case AdminDoor(k, now) =>
      if !TakesStep(cfg, w, m) then w
      else
        var id := w.jar[k].cookie.id;
        w.(jar := w.jar + [Minted(SteppedUp(cfg, m.routes, m.db, id, now), w.jar[k].born)],
           steps := w.steps + {(id.email, now)})
    case Scan(title, group, card, configured, saved, now) =>
      w.(jar := w.jar + [Minted(Scanned(cfg.life, title, group, card, configured, saved, now), now)])
    case End(key, at, storeOk) =>
      w.(cut := Ended(w.cut, key, at, storeOk), log := if storeOk then w.log + {(key, at)} else w.log)
    case Mark(at, storeOk) => w.(cut := Marked(w.cut, at, storeOk))
    case Restart => w.(cut := Loaded(w.cut.stored))
  }

  /** What the gateway and its operator guarantee of an event: the clock reads
      past the first seconds of 1970, stored group names are valid, a card's target
      is a valid name and no role, and an emergency lifetime is positive. */
  ghost predicate Proper(m: Moment) {
    && (forall email :: email in m.db.groups ==> AllValid(m.db.groups[email]))
    && match m.event
       case SignIn(_, _, _, _, _, now) => 1 < now
       case Scan(_, group, _, configured, saved, now) =>
         1 < now && (0 < configured || (saved.Some? && 0 < saved.value)) && ValidGroupName(group)
           && !IsReservedGroup(group)
       case AdminDoor(_, now) => 1 < now
       case End(key, at, _) => 1 < at && key != Groups
       case _ => true
  }

  ghost predicate ProperRun(ms: seq<Moment>) { forall i :: 0 <= i < |ms| ==> Proper(ms[i]) }

  function Run(cfg: Config, w: World, ms: seq<Moment>): World
    decreases |ms|
  {
    if ms == [] then w else Run(cfg, Step(cfg, w, ms[0]), ms[1..])
  }

  // ---------- what every cookie and cutoff keeps ----------

  /** A cookie's sign-in time is the real one, or unknown (minted before sign-in
      times were kept); its second step was really passed; a guest's or an
      emergency session's groups do not name admin, and the latter is short. */
  ghost predicate CookieSound(m: Minted, steps: set<(string, int)>) {
    var id := m.cookie.id;
    && 0 <= m.born && (id.auth == m.born || id.auth <= 1)
    && (id.totp && 1 < StepAt(id) ==> (id.email, StepAt(id)) in steps)
    && (id.kind == GUEST_KIND ==> !HasGroup(id.groups, ADMIN))
    && (id.kind == BREAK_GLASS ==> m.cookie.exp <= m.born + EMERGENCY_MAX && !HasGroup(id.groups, ADMIN))
  }

  ghost predicate JarSound(jar: seq<Minted>, steps: set<(string, int)>) {
    forall i :: 0 <= i < |jar| ==> CookieSound(jar[i], steps)
  }

  /** A table of cutoffs holds, for each key, the latest one recorded. */
  ghost predicate Latest(table: map<Key, int>, log: set<(Key, int)>) {
    && (forall key, at :: (key, at) in log && key != Groups ==> key in table && at <= table[key])
    && (forall key :: key in table && key != Groups ==> (key, table[key]) in log)
  }

  ghost predicate Positive(log: set<(Key, int)>) { forall key, at :: (key, at) in log ==> 1 < at }

  ghost predicate Sound(w: World) {
    JarSound(w.jar, w.steps) && Latest(w.cut.ended, w.log) && Latest(w.cut.stored, w.log) && Positive(w.log)
  }

  lemma MoreSteps(jar: seq<Minted>, steps: set<(string, int)>, more: set<(string, int)>, m: Minted)
    requires JarSound(jar, steps) && steps <= more && CookieSound(m, more)
    ensures JarSound(jar + [m], more)
  {
  }

  lemma StoredValid(db: Db, email: string)
    requires forall e :: e in db.groups ==> AllValid(db.groups[e])
    ensures AllValid(Stored(db, email))
  {
  }

  lemma SignInSound(cfg: Config, w: World, m: Moment, role: string)
    requires Proper(m) && m.event.SignIn? && IsBaseRole(role)
    ensures var e := m.event;
            CookieSound(Minted(SignedIn(cfg, m.routes, m.db, e.email, role, e.remember, e.verified, e.pk, e.now),
                               e.now),
                        if e.verified then w.steps + {(e.email, e.now)} else w.steps)
  {
    var e := m.event;
    StoredValid(m.db, e.email);
    SignInTier(cfg, m.routes, m.db, e.email, role, e.remember, e.verified, e.pk, e.now);
  }

  lemma RenewalSound(cfg: Config, routes: Routes, db: Db, prior: Minted, c: Cookie, steps: set<(string, int)>, now: int)
    requires CookieSound(prior, steps) && AllValid(Stored(db, prior.cookie.id.email))
    requires IsRenewal(cfg, routes, db, prior.cookie.id, c, now)
    ensures CookieSound(Minted(c, prior.born), steps)
  {
    var id := prior.cookie.id;
    RenewalReissues(cfg, routes, db, id, c, now);
    if id.kind == GUEST_KIND {
      RenewedSettles(cfg, routes, db, id, now, true);
    }
  }

  lemma StepUpSound(cfg: Config, routes: Routes, db: Db, prior: Minted, steps: set<(string, int)>, now: int)
    requires CookieSound(prior, steps) && prior.cookie.id.kind == NORMAL && 1 < now
    ensures CookieSound(Minted(SteppedUp(cfg, routes, db, prior.cookie.id, now), prior.born),
                        steps + {(prior.cookie.id.email, now)})
  {
  }

  lemma EndKeepsLatest(table: map<Key, int>, log: set<(Key, int)>, key: Key, at: int)
    requires Latest(table, log) && Positive(log) && 1 < at && key != Groups
    ensures Latest(Later(table, key, at), log + {(key, at)}) && Latest(Upserted(table, key, at), log + {(key, at)})
  {
  }

  lemma StepSound(cfg: Config, w: World, m: Moment)
    requires Sound(w) && Proper(m)
    ensures Sound(Step(cfg, w, m))
  {
    match m.event
    case SignIn(email, openHost, remember, verified, pk, now) =>
      var w' := Step(cfg, w, m);
      if w' != w {
        SignInSound(cfg, w, m, LoginRole(cfg.policy, email, openHost));
        MoreSteps(w.jar, w.steps, w'.steps, w'.jar[|w.jar|]);
      }
    case Request(k, until, header, cookieOk, now) =>
      var c := CookieOf(AnsweredTo(cfg, w, m));
      if c.Some? && k < |w.jar| {
        VerifyOnlyReissues(cfg, m.routes, m.db, w.cut, until, Token(w, k), header, now, cookieOk);
        StoredValid(m.db, w.jar[k].cookie.id.email);
        RenewalSound(cfg, m.routes, m.db, w.jar[k], c.value, w.steps, now);
        MoreSteps(w.jar, w.steps, w.steps, Minted(c.value, w.jar[k].born));
      }
    case AdminDoor(k, now) =>
      if TakesStep(cfg, w, m) {
        StepUpSound(cfg, m.routes, m.db, w.jar[k], w.steps, now);
        var w' := Step(cfg, w, m);
        MoreSteps(w.jar, w.steps, w'.steps, w'.jar[|w.jar|]);
      }
    case Scan(title, group, card, configured, saved, now) =>
      EmergencyIsShort(cfg.life, title, group, card, configured, saved, now);
      HeaderNamesExactly(group, [], ADMIN);
      ValidNameIsPlain(group);
      MoreSteps(w.jar, w.steps, w.steps, Minted(Scanned(cfg.life, title, group, card, configured, saved, now), now));
    case End(key, at, storeOk) =>
      EndKeepsLatest(w.cut.ended, w.log, key, at);
      EndKeepsLatest(w.cut.stored, w.log, key, at);
    case Mark(_, _) =>
    case Restart =>
  }

  lemma {:induction false} RunSound(cfg: Config, w: World, ms: seq<Moment>)
    requires Sound(w) && ProperRun(ms)
    ensures Sound(Run(cfg, w, ms))
    decreases |ms|
  {
    if ms == [] {
    } else {
      StepSound(cfg, w, ms[0]);
      RunSound(cfg, Step(cfg, w, ms[0]), ms[1..]);
    }
  }

  /** A gateway that has minted nothing, over an empty store. */
  lemma NewGatewaySound()
    ensures Sound(World([], Loaded(map[]), {}, {}))
  {
  }

  // ---------- what is honoured ----------

  predicate Honoured(cfg: Config, w: World, k: nat, now: int) { Live(cfg, w.cut.ended, Token(w, k), now).Some? }

  /** A recorded cutoff that ends this session: for its person or, for a scan,
      its card, at or after it began; or its passkey's removal, whenever. */
  ghost predicate CutBy(m: Minted, key: Key, at: int) {
    var id := m.cookie.id;
    || (key == Person(id.email) && m.born <= at)
    || (id.pk != 0 && key == Passkey(id.pk))
    || (id.kind == BREAK_GLASS && id.card != 0 && key == Card(id.card) && m.born <= at)
  }

  ghost predicate IsCut(w: World, m: Minted) { exists key, at :: (key, at) in w.log && CutBy(m, key, at) }

  /** Over all runs of sign-ins, renewals, second steps, cutoffs and restarts: no
      session is honoured longer than the maximum age after its person really
      signed in, nor after any cutoff at or past that moment for its person,
      passkey or card; an emergency session ends within twelve hours of its scan. */
  lemma HonouredIsCurrent(cfg: Config, w: World, ms: seq<Moment>, k: nat, now: int)
    requires Sound(w) && ProperRun(ms)
    requires var end := Run(cfg, w, ms); k < |end.jar| && Honoured(cfg, end, k, now)
    ensures var end := Run(cfg, w, ms);
            && (0 < cfg.life.maxAge ==> now - end.jar[k].born <= cfg.life.maxAge)
            && !IsCut(end, end.jar[k])
            && (end.jar[k].cookie.id.kind == BREAK_GLASS ==> now <= end.jar[k].born + 12 * 3600)
  {
    RunSound(cfg, w, ms);
    var end := Run(cfg, w, ms);
    CutIsSeen(end, end.jar[k], cfg.life, now);
  }

  lemma CutIsSeen(w: World, m: Minted, lt: Lifetimes, now: int)
    requires CookieSound(m, w.steps) && Latest(w.cut.ended, w.log) && Positive(w.log)
    ensures IsCut(w, m) ==> SessionEnded(lt, w.cut.ended, m.cookie.id, now)
  {
  }

  /** And nothing else ends one: a session whose sign-in time is known is honoured
      exactly when its cookie is in date, it is within the maximum age, and no
      cutoff was recorded for it. */
  lemma HonouredExactly(cfg: Config, w: World, ms: seq<Moment>, k: nat, now: int)
    requires Sound(w) && ProperRun(ms)
    requires var end := Run(cfg, w, ms); k < |end.jar| && 1 < end.jar[k].cookie.id.auth
    ensures var end := Run(cfg, w, ms); var m := end.jar[k];
            Honoured(cfg, end, k, now) <==>
              now <= m.cookie.exp && (0 < cfg.life.maxAge ==> now - m.born <= cfg.life.maxAge) && !IsCut(end, m)
  {
    RunSound(cfg, w, ms);
    var end := Run(cfg, w, ms);
    var m := end.jar[k];
    CutIsSeen(end, m, cfg.life, now);
    SeenIsCut(end, m);
  }

  lemma SeenIsCut(w: World, m: Minted)
    requires CookieSound(m, w.steps) && Latest(w.cut.ended, w.log) && 1 < m.cookie.id.auth
    ensures var id, ended := m.cookie.id, w.cut.ended;
            && (Person(id.email) in ended && m.born <= ended[Person(id.email)] ==> IsCut(w, m))
            && (id.pk != 0 && Passkey(id.pk) in ended ==> IsCut(w, m))
            && (id.kind == BREAK_GLASS && id.card != 0 && Card(id.card) in ended && m.born <= ended[Card(id.card)] ==>
                  IsCut(w, m))
  {
    var id, ended := m.cookie.id, w.cut.ended;
    forall key | key in ended && CutBy(m, key, ended[key]) ensures IsCut(w, m) {
      assert key != Groups;
      assert (key, ended[key]) in w.log;
    }
  }

  /** Over all runs, with TOTP on, an application sees admin in a person's groups
      only while the policy names them an administrator and within twelve hours
      of a second step they really passed; never in a guest's or a card's session. */
  lemma AdminNeedsRealStep(cfg: Config, w: World, ms: seq<Moment>, m: Moment)
    requires Sound(w) && ProperRun(ms) && Proper(m) && m.event.Request?
    requires var a := AnsweredTo(cfg, Run(cfg, w, ms), m); a.Granted? && HasGroup(a.groups, ADMIN)
    ensures var a, end := AnsweredTo(cfg, Run(cfg, w, ms), m), Run(cfg, w, ms);
            && a.kind == NORMAL && Role(cfg.policy, a.email) == ADMIN
            && (cfg.totp ==> exists at :: (a.email, at) in end.steps && m.event.now - at <= 12 * 3600)
  {
    RunSound(cfg, w, ms);
    var end, e := Run(cfg, w, ms), m.event;
    var id := Live(cfg, end.cut.ended, Token(end, e.k), e.now);
    GrantIsEarned(cfg, m.routes, m.db, end.cut, e.until, Token(end, e.k), e.header, e.now, e.cookieOk);
    assert id.value == end.jar[e.k].cookie.id;
    StoredValid(m.db, id.value.email);
    AdminHeaderExactly(cfg, m.routes, m.db, end.cut, e.until, Token(end, e.k), e.header, e.now, e.cookieOk);
    assert CookieSound(end.jar[e.k], end.steps);
  }

  // ---------- whom the configured lists admit ----------

  /** A sign-in mints a session exactly when the lists admit the address, or it comes
      from an open host, without a passkey, and could receive mail: a normal one and a
      guest's, dated now and for that address. */
  lemma SignInExactly(cfg: Config, domains: seq<string>, admins: seq<string>, w: World, m: Moment)
    requires Configures(domains, admins, cfg.policy) && m.event.SignIn?
    ensures var e, w' := m.event, Step(cfg, w, m);
            var admitted := Admitted(domains, admins, e.email);
            if admitted || (e.openHost && e.pk == 0 && GuestAddress(e.email)) then
              && |w'.jar| == |w.jar| + 1 && w'.jar[..|w.jar|] == w.jar && w'.jar[|w.jar|].born == e.now
              && w'.cut == w.cut && w'.log == w.log
              && w'.steps == (if e.verified then w.steps + {(e.email, e.now)} else w.steps)
              && var id := w'.jar[|w.jar|].cookie.id;
                 && id.email == e.email && id.kind == (if admitted then NORMAL else GUEST_KIND)
                 && id.iat == e.now == id.auth && id.pk == e.pk && id.card == 0
                 && id.totp == e.verified && id.step == (if e.verified then e.now else 0)
            else w' == w
  {
    AdmittedExactly(domains, admins, cfg.policy, m.event.email);
  }

  /** Whom the lists make an administrator. */
  ghost predicate IsAdmin(admins: seq<string>, email: string) {
    Lower(Trim(email)) != "" && Lists(admins, Lower(Trim(email)))
  }

  lemma SignedInHolds(cfg: Config, routes: Routes, db: Db, email: string, role: string, remember: bool, verified: bool,
                      pk: int, now: int)
    requires IsBaseRole(role) && 1 < now
    ensures var c := SignedIn(cfg, routes, db, email, role, remember, verified, pk, now);
            var tier := if role == "admin" && cfg.totp && !verified then "user" else role;
            var life := if remember && role != "guest" then cfg.life.rememberTTL else cfg.life.ttl;
            && c.id.groups == HeaderFor(cfg, routes, email, tier, Stored(db, email))
            && c.exp == now + c.id.ttl && c.id.ttl == (if 0 < life then life else cfg.life.ttl)
            && (c.id.kind == "guest" <==> role == "guest")
  {
  }

  /** A sign-in's groups are those the database holds, under the tier it has earned, and it
      lasts as long as was asked for; a guest's never longer than usual. */
  lemma SignInHolds(cfg: Config, domains: seq<string>, admins: seq<string>, w: World, m: Moment)
    requires Configures(domains, admins, cfg.policy) && m.event.SignIn? && Step(cfg, w, m) != w && 1 < m.event.now
    ensures var e, c := m.event, Step(cfg, w, m).jar[|w.jar|].cookie;
            var tier := if c.id.kind == "guest" then "guest"
                        else if IsAdmin(admins, e.email) && (!cfg.totp || e.verified) then "admin" else "user";
            var life := if e.remember && c.id.kind != "guest" then cfg.life.rememberTTL else cfg.life.ttl;
            && c.id.groups == HeaderFor(cfg, m.routes, e.email, tier, Stored(m.db, e.email))
            && c.exp == e.now + c.id.ttl && c.id.ttl == if 0 < life then life else cfg.life.ttl
  {
    var e := m.event;
    AdmittedExactly(domains, admins, cfg.policy, e.email);
    SignedInHolds(cfg, m.routes, m.db, e.email, LoginRole(cfg.policy, e.email, e.openHost), e.remember, e.verified,
                  e.pk,
                  e.now);
  }

  /** The admin door takes exactly a live normal session of a listed administrator whose
      passkey remains and who has not the tier already; it adds the same session in the
      admin tier, with the step dated now. */
  lemma AdminDoorExactly(cfg: Config, domains: seq<string>, admins: seq<string>, w: World, m: Moment)
    requires Configures(domains, admins, cfg.policy) && m.event.AdminDoor?
    ensures var e, w' := m.event, Step(cfg, w, m);
            if e.k < |w.jar| && Honoured(cfg, w, e.k, e.now) && w.jar[e.k].cookie.id.kind == ""
               && IsAdmin(admins, w.jar[e.k].cookie.id.email) && HasItsPasskey(m.db, w.jar[e.k].cookie.id)
               && !(HasGroup(w.jar[e.k].cookie.id.groups, "admin")
                    && HoldsAdminTier(cfg, w.jar[e.k].cookie.id, e.now)) then
              var id := w.jar[e.k].cookie.id;
              && |w'.jar| == |w.jar| + 1 && w'.jar[..|w.jar|] == w.jar && w'.jar[|w.jar|].born == w.jar[e.k].born
              && w'.cut == w.cut && w'.log == w.log && w'.steps == w.steps + {(id.email, e.now)}
              && var c := w'.jar[|w.jar|].cookie;
                 && c.id.groups == HeaderFor(cfg, m.routes, id.email, "admin", Stored(m.db, id.email))
                 && c.id.email == id.email && c.id.kind == "" && c.id.totp && c.id.step == c.id.iat == e.now
                 && c.id.pk == id.pk && c.id.card == 0 && c.id.auth == (if id.auth == 0 then 1 else id.auth)
                 && c.exp == e.now + c.id.ttl && c.id.ttl == if 0 < id.ttl then id.ttl else cfg.life.ttl
            else w' == w
  {
    if m.event.k < |w.jar| {
      AdmittedExactly(domains, admins, cfg.policy, w.jar[m.event.k].cookie.id.email);
    }
  }

  /** A request adds a session exactly when its answer carries a cookie, and the session has
      its person's sign-in time. */
  lemma RequestExactly(cfg: Config, w: World, m: Moment)
    requires m.event.Request?
    ensures var e, w' := m.event, Step(cfg, w, m);
            var c := CookieOf(Verified(cfg, m.routes, m.db, w.cut, e.until,
                                       if e.k < |w.jar| then [Some(w.jar[e.k].cookie)] else [],
                                       e.header, e.now, e.cookieOk).0);
            && (c.Some? ==> e.k < |w.jar|)
            && w' == if c.Some? then w.(jar := w.jar + [Minted(c.value, w.jar[e.k].born)]) else w
  {
    var e := m.event;
    VerifyOnlyReissues(cfg, m.routes, m.db, w.cut, e.until, Token(w, e.k), e.header, e.now, e.cookieOk);
  }

  /** The other events: a scan adds the emergency session; a cutoff is in force and on the
      log exactly when the store takes it; a mark is in force at once, and stored if the
      store takes it; a restart reads back what is stored. */
  lemma OtherEventsExactly(cfg: Config, w: World, m: Moment)
    ensures var e, w' := m.event, Step(cfg, w, m);
            && (e.Scan? ==>
                  w' == w.(jar := w.jar
                           + [Minted(Scanned(cfg.life, e.title, e.group, e.card, e.configured, e.saved, e.now),
                                                  e.now)]))
            && (e.End? ==>
                  && w'.jar == w.jar && w'.log == (if e.storeOk then w.log + {(e.key, e.at)} else w.log)
                  && (!e.storeOk ==> w' == w)
                  && (e.storeOk && 0 < e.at ==>
                        && e.key in w'.cut.stored && e.key in w'.cut.ended
                        && w'.cut.stored[e.key] ==
                          (if e.key in w.cut.stored then Max(w.cut.stored[e.key], e.at) else e.at)
                        && w'.cut.ended[e.key] ==
                          (if e.key in w.cut.ended then Max(w.cut.ended[e.key], e.at) else e.at)))
            && (e.Mark? ==>
                  && w'.jar == w.jar && w'.log == w.log && w'.cut.ended == w.cut.ended
                  && w'.cut.groupsChangedAt == Max(w.cut.groupsChangedAt, e.at)
                  && (if e.storeOk then Groups in w'.cut.stored && e.at <= w'.cut.stored[Groups]
                      else w'.cut.stored == w.cut.stored))
            && (e.Restart? ==>
                  && w'.jar == w.jar && w'.log == w.log && w'.cut.stored == w'.cut.ended == w.cut.stored
                  && w'.cut.groupsChangedAt == if Groups in w.cut.stored then w.cut.stored[Groups] else 0)
  {
  }

  /** A normal session is of an address the lists admit, a guest's of another that
      could receive mail, and there is no other kind but a card's. */
  ghost predicate Entitled(domains: seq<string>, admins: seq<string>, id: Identity) {
    && (id.kind == NORMAL ==> Admitted(domains, admins, id.email))
    && (id.kind == GUEST_KIND ==> !Admitted(domains, admins, id.email) && GuestAddress(id.email))
    && id.kind in {NORMAL, GUEST_KIND, BREAK_GLASS}
  }

  ghost predicate AllEntitled(domains: seq<string>, admins: seq<string>, jar: seq<Minted>) {
    forall i :: 0 <= i < |jar| ==> Entitled(domains, admins, jar[i].cookie.id)
  }

  lemma StepEntitled(cfg: Config, domains: seq<string>, admins: seq<string>, w: World, m: Moment)
    requires Configures(domains, admins, cfg.policy) && AllEntitled(domains, admins, w.jar)
    ensures AllEntitled(domains, admins, Step(cfg, w, m).jar)
  {
    match m.event
    case SignIn(email, _, _, _, _, _) => AdmittedExactly(domains, admins, cfg.policy, email);
    case Request(k, until, header, cookieOk, now) =>
      VerifyOnlyReissues(cfg, m.routes, m.db, w.cut, until, Token(w, k), header, now, cookieOk);
    case _ =>
  }

  /** Over every run of sign-ins, renewals, second steps, scans, cutoffs and restarts,
      only those whom the lists admit ever hold a normal session. */
  lemma {:induction false} RunEntitled(cfg: Config, domains: seq<string>, admins: seq<string>, w: World,
                                       ms: seq<Moment>)
    requires Configures(domains, admins, cfg.policy) && AllEntitled(domains, admins, w.jar)
    ensures AllEntitled(domains, admins, Run(cfg, w, ms).jar)
    decreases |ms|
  {
    if ms == [] {
    } else {
      StepEntitled(cfg, domains, admins, w, ms[0]);
      RunEntitled(cfg, domains, admins, Step(cfg, w, ms[0]), ms[1..]);
    }
  }
}
