/**
 Asking for a sign-in code and checking one (internal/server/handlers.go,
 handleRequest, allowSend and handleVerifyCode), on top of the code store and
 the limiters.

 Times are nanoseconds on the request's clock; the store keeps Unix seconds.
 The policy's verdict on a call's address and destination, the new code's hash,
 and the outcomes of the mail-slot check, the audit-log reads and the store calls
 are inputs.
 */
module SignIn {
  import opened Prelude
  import RL = RateLimit
  import C = Codes

  datatype Config = Config(
    otpTTL: int, cooldown: int, caps: C.Caps,
    requestsPerIP: RL.Limit, sendsPerAddressAndIP: RL.Limit, sendsPerIP: RL.Limit,
    ceiling: RL.Limit, daily: RL.Limit, wrongCodes: RL.Limit)
  {
    /** What the configuration enforces. */
    predicate Valid() {
      && caps.Valid() && 0 < cooldown < otpTTL
      && requestsPerIP.Valid() && sendsPerAddressAndIP.Valid() && sendsPerIP.Valid()
      && ceiling.Valid() && daily.Valid() && wrongCodes.Valid()
    }
  }

  datatype Limits = Limits(
    requestsPerIP: RL.State, sendsPerAddressAndIP: RL.State, sendsPerIP: RL.State,
    ceiling: RL.State, daily: RL.State, wrongCodes: RL.State)

  datatype State = State(table: C.Table, limits: Limits)

  /** How the one code routine a request runs can fail: the generator, or the store. */
  datatype Fault = Works | GenerateFails | SaveFails

  /** A request for a code. `wellFormed` is validEmail's answer, `declined` the
      early answer for a route that names other domains, `saturated` whether
      every mail slot is taken, and `knownDevice` whether the address signed in
      from this client lately (false when that read fails). `pruneFails`,
      `recentFails` and `stateFails` say whether pruning, the cooldown read and
      the state cookie fail. `hash` is the new code's. */
  datatype Request = Request(
    email: string, ip: string, now: int, wellFormed: bool, declined: bool, saturated: bool, knownDevice: bool,
    pruneFails: bool, recentFails: bool, stateFails: bool, fault: Fault, hash: string)

  datatype Guess = Guess(email: string, ip: string, now: int, hash: string, storeFails: bool)

  datatype Response =
    | TooManyRequests | InvalidAddress | OtherDomain | EnterCode
    | TooManyGuesses | SignedIn | NotPermitted | Incorrect | LockedOut | CodeExpired | ServerError

  // ---------- the handlers as functions of the state ----------

  /** The per-(address, client) allowance, then the per-client cap, the ceiling
      and the daily cap, each later refusal giving back what was charged before. */
  function SendAllowed(cfg: Config, l: Limits, email: string, ip: string, knownDevice: bool, now: int): (Limits, bool)
    requires cfg.Valid()
  {
    var (own, okOwn) := RL.Allowed(cfg.sendsPerAddressAndIP, true, l.sendsPerAddressAndIP, email + "|" + ip, now);
    var l1 := l.(sendsPerAddressAndIP := own);
    if !okOwn then (l1, false) else
    var (perIP, okIP) := RL.Allowed(cfg.sendsPerIP, true, l1.sendsPerIP, ip, now);
    var l2 := l1.(sendsPerIP := perIP);
    if !okIP then (l2, knownDevice) else
    var (ceiling, okCeiling) := RL.Allowed(cfg.ceiling, true, l2.ceiling, email, now);
    var l3 := l2.(ceiling := ceiling);
    var (daily, okDaily) := if okCeiling then RL.Allowed(cfg.daily, true, l3.daily, email, now) else (l3.daily, false);
    var l4 := l3.(daily := daily);
    if okDaily then (l4, true) else
    var l5 := if okCeiling then l4.(ceiling := RL.Refunded(cfg.ceiling, true, l4.ceiling, email, now)) else l4;
    (l5.(sendsPerIP := RL.Refunded(cfg.sendsPerIP, true, l5.sendsPerIP, ip, now)), knownDevice)
  }

  /** A code was minted for the address within the cooldown. */
  predicate Recent(cfg: Config, t: C.Table, email: string, now: int) {
    email in t.codes && Unix(now + cfg.otpTTL - cfg.cooldown) < t.codes[email].expires
  }

  /** What a request does to its address's code. */
  datatype Choice = Refuse(answer: Response) | Leave | EnsureDecoy | Mint

  /** The choice once the request is admitted, over the pruned table. */
  function Admitted(cfg: Config, t: C.Table, l: Limits, r: Request): (Limits, Choice)
    requires cfg.Valid()
  {
    if r.saturated then (l, EnsureDecoy)
    else if r.recentFails || Recent(cfg, t, r.email, r.now) then (l, Leave)
    else
      var (l', send) := SendAllowed(cfg, l, r.email, r.ip, r.knownDevice, r.now);
      (l', if send then Mint else EnsureDecoy)
  }

  function PrunedFor(t: C.Table, r: Request): C.Table {
    if r.pruneFails then t else C.Pruned(t, Unix(r.now))
  }

  function Choose(cfg: Config, s: State, r: Request): (Limits, Choice)
    requires cfg.Valid()
  {
    var (perIP, ok) := RL.Allowed(cfg.requestsPerIP, true, s.limits.requestsPerIP, r.ip, r.now);
    var l := s.limits.(requestsPerIP := perIP);
    if !ok then (l, Refuse(TooManyRequests))
    else if !r.wellFormed then (l, Refuse(InvalidAddress))
    else if r.declined then (l, Refuse(OtherDomain))
    else Admitted(cfg, PrunedFor(s.table, r), l, r)
  }

  /** What sendCode stores for a permitted address. */
  function Sent(cfg: Config, t: C.Table, email: string, hash: string, fault: Fault, now: int): C.Table {
    if fault != Works then t else C.Saved(t, email, hash, Unix(now + cfg.otpTTL))
  }

  /** What saveDecoyCode stores for any other. */
  function DecoySaved(cfg: Config, t: C.Table, email: string, hash: string, fault: Fault, now: int): C.Table {
    if fault != Works then t else C.Saved(t, email, hash, Unix(now + cfg.otpTTL))
  }

  /** What storeDecoyCode stores for either: only where there is no code, and
      back-dated by the cooldown. */
  function DecoyEnsured(cfg: Config, t: C.Table, email: string, hash: string, fault: Fault, now: int): C.Table {
    if fault != Works then t else C.Ensured(t, email, hash, Unix(now + cfg.otpTTL - cfg.cooldown))
  }

  function Stored(cfg: Config, t: C.Table, choice: Choice, permitted: bool, email: string, hash: string, fault: Fault,
                  now: int): C.Table
  {
    match choice
    case Refuse(_) => t
    case Leave => t
    case EnsureDecoy => DecoyEnsured(cfg, t, email, hash, fault, now)
    case Mint => if permitted then Sent(cfg, t, email, hash, fault, now)
                 else DecoySaved(cfg, t, email, hash, fault, now)
  }

  function RequestedTable(cfg: Config, t: C.Table, choice: Choice, r: Request, permitted: bool): C.Table {
    if choice.Refuse? then t else Stored(cfg, PrunedFor(t, r), choice, permitted, r.email, r.hash, r.fault, r.now)
  }

  /** The state after a request, the answer, and whether mail goes out. */
  function Requested(cfg: Config, s: State, r: Request, permitted: bool): (State, Response, bool)
    requires cfg.Valid()
  {
    var (l, choice) := Choose(cfg, s, r);
    (State(RequestedTable(cfg, s.table, choice, r, permitted), l),
     if choice.Refuse? then choice.answer else if r.stateFails then ServerError else EnterCode,
     choice == Mint && permitted && r.fault == Works)
  }

  /** The state after a guess, and the answer. */
  function Guessed(cfg: Config, s: State, g: Guess, permitted: bool): (State, Response)
    requires cfg.Valid()
  {
    var (charged, ok) := RL.Allowed(cfg.wrongCodes, true, s.limits.wrongCodes, g.ip, g.now);
    var s1 := s.(limits := s.limits.(wrongCodes := charged));
    if !ok then (s1, TooManyGuesses)
    else if g.storeFails then (s1, ServerError)
    else
      var (table, r) := C.Consumed(cfg.caps, s1.table, g.email, g.ip, g.hash, Unix(g.now));
      var s2 := s1.(table := table);
      match r
      case OK =>
        (s2.(limits := s2.limits.(wrongCodes := RL.Refunded(cfg.wrongCodes, true, charged, g.ip, g.now))),
         if permitted then SignedIn else NotPermitted)
      case Mismatch => (s2, Incorrect)
      case TooManyAttempts => (s2, LockedOut)
      case Burned => (s2, LockedOut)
      case Expired => (s2, CodeExpired)
      case NoCode => (s2, CodeExpired)
  }

  // ---------- the handlers ----------

  class Server {
    const cfg: Config
    const store: C.CodeStore
    const ipLimiter: RL.Limiter
    const emailLimiter: RL.Limiter
    const sendsPerIP: RL.Limiter
    const emailCeiling: RL.Limiter
    const emailDaily: RL.Limiter
    const wrongCodes: RL.Limiter

    ghost function Repr(): set<object> {
      {store, ipLimiter, emailLimiter, sendsPerIP, emailCeiling, emailDaily, wrongCodes}
    }

    /** Six different limiters, each with its configured rate. */
    ghost predicate Valid() {
      && cfg.Valid()
      && ipLimiter.limit == cfg.requestsPerIP && emailLimiter.limit == cfg.sendsPerAddressAndIP
      && sendsPerIP.limit == cfg.sendsPerIP && emailCeiling.limit == cfg.ceiling
      && emailDaily.limit == cfg.daily && wrongCodes.limit == cfg.wrongCodes
      && ipLimiter !in {emailLimiter, sendsPerIP, emailCeiling, emailDaily, wrongCodes}
      && emailLimiter !in {sendsPerIP, emailCeiling, emailDaily, wrongCodes}
      && sendsPerIP !in {emailCeiling, emailDaily, wrongCodes}
      && emailCeiling !in {emailDaily, wrongCodes} && emailDaily != wrongCodes
    }

    ghost function Limiters(): Limits
      reads {ipLimiter, emailLimiter, sendsPerIP, emailCeiling, emailDaily, wrongCodes}
    {
      Limits(ipLimiter.Contents(), emailLimiter.Contents(), sendsPerIP.Contents(),
             emailCeiling.Contents(), emailDaily.Contents(), wrongCodes.Contents())
    }

    ghost function Contents(): State
      reads Repr()
    {
      State(store.Rows(), Limiters())
    }

    constructor (cfg: Config)
      requires cfg.Valid()
      ensures Valid() && fresh(Repr()) && this.cfg == cfg
      ensures Contents().table == C.Table(map[], map[])
    {
      this.cfg := cfg;
      store := new C.CodeStore();
      ipLimiter := new RL.Limiter(cfg.requestsPerIP.count, cfg.requestsPerIP.window);
      emailLimiter := new RL.Limiter(cfg.sendsPerAddressAndIP.count, cfg.sendsPerAddressAndIP.window);
      sendsPerIP := new RL.Limiter(cfg.sendsPerIP.count, cfg.sendsPerIP.window);
      emailCeiling := new RL.Limiter(cfg.ceiling.count, cfg.ceiling.window);
      emailDaily := new RL.Limiter(cfg.daily.count, cfg.daily.window);
      wrongCodes := new RL.Limiter(cfg.wrongCodes.count, cfg.wrongCodes.window);
    }

    method AllowSend(email: string, ip: string, knownDevice: bool, now: int) returns (ok: bool)
      requires Valid()
      modifies emailLimiter, sendsPerIP, emailCeiling, emailDaily
      ensures (Limiters(), ok) == SendAllowed(cfg, old(Limiters()), email, ip, knownDevice, now)
    {
      var own := emailLimiter.Allow(email + "|" + ip, now);
      if !own {
        return false;
      }
      var perIP := sendsPerIP.Allow(ip, now);
      if perIP {
        var ceiling := emailCeiling.Allow(email, now);
        if ceiling {
          var daily := emailDaily.Allow(email, now);
          if daily {
            return true;
          }
          emailCeiling.Refund(email, now);
        }
        sendsPerIP.Refund(ip, now);
      }
      return knownDevice;
    }

    /** `permitted` is LoginRole's verdict on the address and the destination. */
    method HandleRequest(r: Request, permitted: bool) returns (resp: Response, mailed: bool)
      requires Valid()
      modifies Repr()
      ensures (Contents(), resp, mailed) == Requested(cfg, old(Contents()), r, permitted)
    {
      mailed := false;
      var ok := ipLimiter.Allow(r.ip, r.now);
      if !ok {
        return TooManyRequests, false;
      }
      if !r.wellFormed {
        return InvalidAddress, false;
      }
      if r.declined {
        return OtherDomain, false;
      }
      if !r.pruneFails {
        store.DeleteExpiredCodes(Unix(r.now));
      }
      mailed := IssueCode(r, permitted);
      if r.stateFails {
        return ServerError, mailed;
      }
      return EnterCode, mailed;
    }

    /** Send, keep or decoy the address's code. */
    method IssueCode(r: Request, permitted: bool) returns (mailed: bool)
      requires Valid()
      modifies store, emailLimiter, sendsPerIP, emailCeiling, emailDaily
      ensures Limiters() == Admitted(cfg, old(store.Rows()), old(Limiters()), r).0
      ensures var choice := Admitted(cfg, old(store.Rows()), old(Limiters()), r).1;
              && store.Rows() == Stored(cfg, old(store.Rows()), choice, permitted, r.email, r.hash, r.fault, r.now)
              && mailed == (choice == Mint && permitted && r.fault == Works)
    {
      mailed := false;
      var recent := store.HasRecentCode(r.email, Unix(r.now + cfg.otpTTL - cfg.cooldown));
      if r.recentFails {
        recent := true;
      }
      if r.saturated {
        StoreDecoyCode(r);
      } else if !recent {
        mailed := SendOrDecoy(r, permitted);
      }
    }

    method SendOrDecoy(r: Request, permitted: bool) returns (mailed: bool)
      requires Valid()
      modifies store, emailLimiter, sendsPerIP, emailCeiling, emailDaily
      ensures Limiters() == SendAllowed(cfg, old(Limiters()), r.email, r.ip, r.knownDevice, r.now).0
      ensures var choice := if SendAllowed(cfg, old(Limiters()), r.email, r.ip, r.knownDevice, r.now).1 then Mint
                            else EnsureDecoy;
              && store.Rows() == Stored(cfg, old(store.Rows()), choice, permitted, r.email, r.hash, r.fault, r.now)
              && mailed == (choice == Mint && permitted && r.fault == Works)
    {
      var send := AllowSend(r.email, r.ip, r.knownDevice, r.now);
      mailed := RunRoutine(r, send, permitted);
    }

    method RunRoutine(r: Request, send: bool, permitted: bool) returns (mailed: bool)
      modifies store
      ensures store.Rows() ==
              Stored(cfg, old(store.Rows()), if send then Mint else EnsureDecoy, permitted, r.email, r.hash, r.fault,
                     r.now)
      ensures mailed == (send && permitted && r.fault == Works)
    {
      mailed := false;
      if !send {
        StoreDecoyCode(r);
      } else if permitted {
        mailed := SendCode(r);
      } else {
        SaveDecoyCode(r);
      }
    }

    /** A fresh code, stored over any other, and mailed. */
    method SendCode(r: Request) returns (mailed: bool)
      modifies store
      ensures store.Rows() == Sent(cfg, old(store.Rows()), r.email, r.hash, r.fault, r.now)
      ensures mailed == (r.fault == Works)
    {
      if r.fault == GenerateFails {
        return false;
      }
      if r.fault == SaveFails {
        return false;
      }
      store.SaveCode(r.email, r.hash, Unix(r.now + cfg.otpTTL));
      return true;
    }

    /** A fresh code nobody is told, stored over any other. */
    method SaveDecoyCode(r: Request)
      modifies store
      ensures store.Rows() == DecoySaved(cfg, old(store.Rows()), r.email, r.hash, r.fault, r.now)
    {
      if r.fault == GenerateFails {
        return;
      }
      if r.fault != SaveFails {
        store.SaveCode(r.email, r.hash, Unix(r.now + cfg.otpTTL));
      }
    }

    /** A fresh code nobody is told, stored only where there is none. */
    method StoreDecoyCode(r: Request)
      modifies store
      ensures store.Rows() == DecoyEnsured(cfg, old(store.Rows()), r.email, r.hash, r.fault, r.now)
    {
      if r.fault == GenerateFails {
        return;
      }
      if r.fault != SaveFails {
        store.EnsureCode(r.email, r.hash, Unix(r.now + cfg.otpTTL - cfg.cooldown));
      }
    }

    method HandleVerifyCode(g: Guess, permitted: bool) returns (resp: Response)
      requires Valid()
      modifies store, wrongCodes
      ensures (Contents(), resp) == Guessed(cfg, old(Contents()), g, permitted)
    {
      var ok := wrongCodes.Allow(g.ip, g.now);
      if !ok {
        return TooManyGuesses;
      }
      if g.storeFails {
        return ServerError;
      }
      var r := store.ConsumeCode(g.email, g.ip, g.hash, cfg.caps.perIP, cfg.caps.total, Unix(g.now));
      match r
      case OK =>
        wrongCodes.Refund(g.ip, g.now);
        return if permitted then SignedIn else NotPermitted;
      case Mismatch => return Incorrect;
      case TooManyAttempts => return LockedOut;
      case Burned => return LockedOut;
      case Expired => return CodeExpired;
      case NoCode => return CodeExpired;
    }
  }

  // ---------- two runs that differ only in who is permitted ----------

  /** A call, and the policy's verdict on its address and destination. */
  datatype Event = Ask(r: Request, permitted: bool) | Try(g: Guess, permitted: bool)

  function After(cfg: Config, s: State, e: Event): (State, Response)
    requires cfg.Valid()
  {
    match e
    case Ask(r, permitted) => var (s', resp, _) := Requested(cfg, s, r, permitted); (s', resp)
    case Try(g, permitted) => Guessed(cfg, s, g, permitted)
  }

  /** What anyone outside can see of a code: its expiry and its counters. */
  function Visible(c: C.Code): C.Code { c.(hash := "") }

  /** Two tables that differ in stored code hashes and nothing else. */
  ghost predicate TwinTables(t1: C.Table, t2: C.Table) {
    && t1.tries == t2.tries && t1.codes.Keys == t2.codes.Keys
    && forall e :: e in t1.codes ==> Visible(t1.codes[e]) == Visible(t2.codes[e])
  }

  ghost predicate Twins(s1: State, s2: State) {
    s1.limits == s2.limits && TwinTables(s1.table, s2.table)
  }

  /** The same request, whatever code each run generates; the routine it runs fails
      in both or in neither, though not always at the same point. */
  predicate SameRequest(r1: Request, r2: Request) {
    && r1.(hash := "", fault := Works) == r2.(hash := "", fault := Works)
    && (r1.fault == Works <==> r2.fault == Works)
  }

  /** The same call. The two runs may disagree on whether it is permitted. */
  predicate SameCall(e1: Event, e2: Event) {
    match (e1, e2)
    case (Ask(r1, _), Ask(r2, _)) => SameRequest(r1, r2)
    case (Try(g1, _), Try(g2, _)) => g1 == g2
    case _ => false
  }

  predicate SameCalls(es1: seq<Event>, es2: seq<Event>) {
    |es1| == |es2| && forall i :: 0 <= i < |es1| ==> SameCall(es1[i], es2[i])
  }

  /** The guess, if this is one, is wrong. */
  predicate Misses(s: State, e: Event) {
    e.Try? && e.g.email in s.table.codes ==> e.g.hash != s.table.codes[e.g.email].hash
  }

  predicate NeverMatches(cfg: Config, s: State, es: seq<Event>)
    requires cfg.Valid()
    decreases |es|
  {
    es == [] || (Misses(s, es[0]) && NeverMatches(cfg, After(cfg, s, es[0]).0, es[1..]))
  }

  function Final(cfg: Config, s: State, es: seq<Event>): State
    requires cfg.Valid()
    decreases |es|
  {
    if es == [] then s else Final(cfg, After(cfg, s, es[0]).0, es[1..])
  }

  function Responses(cfg: Config, s: State, es: seq<Event>): seq<Response>
    requires cfg.Valid()
    decreases |es|
  {
    if es == [] then [] else
      var (s', resp) := After(cfg, s, es[0]);
      [resp] + Responses(cfg, s', es[1..])
  }

  lemma TwinsConsumed(caps: C.Caps, t1: C.Table, t2: C.Table, email: string, ip: string, hash: string, now: int)
    requires TwinTables(t1, t2)
    requires email in t1.codes ==> hash != t1.codes[email].hash && hash != t2.codes[email].hash
    ensures TwinTables(C.Consumed(caps, t1, email, ip, hash, now).0, C.Consumed(caps, t2, email, ip, hash, now).0)
    ensures C.Consumed(caps, t1, email, ip, hash, now).1 == C.Consumed(caps, t2, email, ip, hash, now).1
  {
  }

  lemma TwinsPruned(t1: C.Table, t2: C.Table, now: int)
    requires TwinTables(t1, t2)
    ensures TwinTables(C.Pruned(t1, now), C.Pruned(t2, now))
  {
  }

  /** The routine for permitted addresses and the one for the others store alike:
      over tables that look alike, failing alike, they leave tables that look alike. */
  lemma RoutinesStoreAlike(cfg: Config, t1: C.Table, t2: C.Table, email: string, h1: string, h2: string, f1: Fault,
                           f2: Fault, now: int)
    requires TwinTables(t1, t2) && (f1 == Works <==> f2 == Works)
    ensures var sent1, sent2 := Sent(cfg, t1, email, h1, f1, now), Sent(cfg, t2, email, h2, f2, now);
            var decoy2 := DecoySaved(cfg, t2, email, h2, f2, now);
            TwinTables(sent1, decoy2) && TwinTables(sent1, sent2)
              && TwinTables(DecoySaved(cfg, t1, email, h1, f1, now), decoy2)
            && TwinTables(DecoySaved(cfg, t1, email, h1, f1, now), sent2)
  {
  }

  lemma TwinsStored(cfg: Config, t1: C.Table, t2: C.Table, choice: Choice, p1: bool, p2: bool,
                    email: string, h1: string, h2: string, f1: Fault, f2: Fault, now: int)
    requires TwinTables(t1, t2) && (f1 == Works <==> f2 == Works)
    ensures TwinTables(Stored(cfg, t1, choice, p1, email, h1, f1, now), Stored(cfg, t2, choice, p2, email, h2, f2, now))
  {
    if choice == Mint {
      RoutinesStoreAlike(cfg, t1, t2, email, h1, h2, f1, f2, now);
    }
  }

  lemma TwinsChoose(cfg: Config, s1: State, s2: State, r1: Request, r2: Request)
    requires cfg.Valid() && Twins(s1, s2) && SameRequest(r1, r2)
    ensures Choose(cfg, s1, r1) == Choose(cfg, s2, r2)
  {
  }

  lemma TwinsRequest(cfg: Config, s1: State, s2: State, r1: Request, r2: Request, p1: bool, p2: bool)
    requires cfg.Valid() && Twins(s1, s2) && SameRequest(r1, r2)
    ensures Twins(Requested(cfg, s1, r1, p1).0, Requested(cfg, s2, r2, p2).0)
    ensures Requested(cfg, s1, r1, p1).1 == Requested(cfg, s2, r2, p2).1
  {
    TwinsChoose(cfg, s1, s2, r1, r2);
    TwinsPruned(s1.table, s2.table, Unix(r1.now));
    TwinsStored(cfg, PrunedFor(s1.table, r1), PrunedFor(s2.table, r2), Choose(cfg, s1, r1).1, p1, p2,
                r1.email, r1.hash, r2.hash, r1.fault, r2.fault, r1.now);
  }

  lemma TwinsGuess(cfg: Config, s1: State, s2: State, g: Guess, p1: bool, p2: bool)
    requires cfg.Valid() && Twins(s1, s2) && Misses(s1, Try(g, p1)) && Misses(s2, Try(g, p2))
    ensures Twins(Guessed(cfg, s1, g, p1).0, Guessed(cfg, s2, g, p2).0)
    ensures Guessed(cfg, s1, g, p1).1 == Guessed(cfg, s2, g, p2).1
  {
    TwinsConsumed(cfg.caps, s1.table, s2.table, g.email, g.ip, g.hash, Unix(g.now));
  }

  /** Whatever two policies say of each call's address and destination, any sequence
      of requests and wrong guesses is answered alike, and leaves the same expiries,
      counters and limiters: nothing tells a permitted address from a decoy. */
  lemma {:induction false} PolicyIsInvisible(cfg: Config, s1: State, s2: State, es1: seq<Event>, es2: seq<Event>)
    requires cfg.Valid() && Twins(s1, s2) && SameCalls(es1, es2)
    requires NeverMatches(cfg, s1, es1) && NeverMatches(cfg, s2, es2)
    ensures Responses(cfg, s1, es1) == Responses(cfg, s2, es2)
    ensures Twins(Final(cfg, s1, es1), Final(cfg, s2, es2))
    decreases |es1|
  {
    if es1 == [] {
    } else {
      var e1, e2 := es1[0], es2[0];
      assert SameCall(e1, e2);
      match (e1, e2) {
        case (Ask(r1, p1), Ask(r2, p2)) => TwinsRequest(cfg, s1, s2, r1, r2, p1, p2);
        case (Try(g1, p1), Try(g2, p2)) => TwinsGuess(cfg, s1, s2, g1, p1, p2);
      }
      PolicyIsInvisible(cfg, After(cfg, s1, e1).0, After(cfg, s2, e2).0, es1[1..], es2[1..]);
    }
  }

  // ---------- the store's invariant ----------

  lemma StoredSound(cfg: Config, t: C.Table, choice: Choice, permitted: bool, email: string, hash: string, fault: Fault,
                    now: int)
    requires cfg.Valid() && C.Sound(cfg.caps, t)
    ensures C.Sound(cfg.caps, Stored(cfg, t, choice, permitted, email, hash, fault, now))
  {
    if fault == Works && choice == Mint {
      C.SavedSound(cfg.caps, t, email, hash, Unix(now + cfg.otpTTL));
    } else if fault == Works && choice == EnsureDecoy {
      C.EnsuredSound(cfg.caps, t, email, hash, Unix(now + cfg.otpTTL - cfg.cooldown));
    }
  }

  lemma RequestedTableSound(cfg: Config, t: C.Table, choice: Choice, r: Request, permitted: bool)
    requires cfg.Valid() && C.Sound(cfg.caps, t)
    ensures C.Sound(cfg.caps, RequestedTable(cfg, t, choice, r, permitted))
  {
    C.PrunedSound(cfg.caps, t, Unix(r.now));
    var p := PrunedFor(t, r);
    StoredSound(cfg, p, choice, permitted, r.email, r.hash, r.fault, r.now);
  }

  /** Every run of requests and guesses keeps the store's counters in agreement. */
  lemma {:induction false} RunSound(cfg: Config, s: State, es: seq<Event>)
    requires cfg.Valid() && C.Sound(cfg.caps, s.table)
    ensures C.Sound(cfg.caps, Final(cfg, s, es).table)
    decreases |es|
  {
    if es == [] {
    } else {
      match es[0] {
        case Ask(r, permitted) => RequestedTableSound(cfg, s.table, Choose(cfg, s, r).1, r, permitted);
        case Try(g, _) => C.StepSound(cfg.caps, s.table, C.Consume(g.email, g.ip, g.hash, Unix(g.now)));
      }
      RunSound(cfg, After(cfg, s, es[0]).0, es[1..]);
    }
  }

  // ---------- what a refused request costs ----------

  ghost predicate SameLevels(limit: RL.Limit, s: RL.State, s': RL.State, now: int)
    requires limit.Valid()
  {
    forall k :: RL.Level(limit, s', k, now) == RL.Level(limit, s, k, now)
  }

  ghost predicate LimitersSound(cfg: Config, l: Limits, now: int) {
    && RL.Sound(cfg.sendsPerAddressAndIP, l.sendsPerAddressAndIP, now) && RL.Sound(cfg.sendsPerIP, l.sendsPerIP, now)
    && RL.Sound(cfg.ceiling, l.ceiling, now) && RL.Sound(cfg.daily, l.daily, now)
  }

  /** The key has a token to spend. */
  predicate Has(limit: RL.Limit, s: RL.State, k: string, now: int)
    requires limit.Valid()
  {
    1.0 <= RL.Level(limit, s, k, now)
  }

  lemma ChargedOrKept(limit: RL.Limit, s: RL.State, k: string, now: int)
    requires RL.Sound(limit, s, now)
    ensures var (s', ok) := RL.Allowed(limit, true, s, k, now);
            && ok == Has(limit, s, k, now)
            && (if ok then SameLevels(limit, s, RL.Refunded(limit, true, s', k, now), now)
                else SameLevels(limit, s, s', now))
  {
    RL.AllowedLevels(limit, true, s, k, now);
    if RL.Allowed(limit, true, s, k, now).1 {
      RL.AllowThenRefund(limit, s, k, now);
      RL.ToppedKeepsLevels(limit, true, s, k, now);
    }
  }

  /** A request that its own allowance admits and the per-client cap, the ceiling or
      the daily cap refuses spends none of those three: every key can still spend
      what it could. All three pass exactly when each has a token, and a refused
      request is sent all the same exactly when the device is known. */
  lemma RefusedSpendsNothing(cfg: Config, l: Limits, email: string, ip: string, knownDevice: bool, now: int)
    requires cfg.Valid() && LimitersSound(cfg, l, now)
    ensures var (l', send) := SendAllowed(cfg, l, email, ip, knownDevice, now);
            var own := Has(cfg.sendsPerAddressAndIP, l.sendsPerAddressAndIP, email + "|" + ip, now);
            var all := own && Has(cfg.sendsPerIP, l.sendsPerIP, ip, now)
                       && Has(cfg.ceiling, l.ceiling, email, now) && Has(cfg.daily, l.daily, email, now);
            && (send <==> all || (own && knownDevice))
            && (!own ==> SameLevels(cfg.sendsPerAddressAndIP, l.sendsPerAddressAndIP, l'.sendsPerAddressAndIP, now))
            && if !all then
                 && SameLevels(cfg.sendsPerIP, l.sendsPerIP, l'.sendsPerIP, now)
                 && SameLevels(cfg.ceiling, l.ceiling, l'.ceiling, now)
                 && SameLevels(cfg.daily, l.daily, l'.daily, now)
               else
                 && l'.sendsPerIP == RL.Allowed(cfg.sendsPerIP, true, l.sendsPerIP, ip, now).0
                 && l'.ceiling == RL.Allowed(cfg.ceiling, true, l.ceiling, email, now).0
                 && l'.daily == RL.Allowed(cfg.daily, true, l.daily, email, now).0
  {
    ChargedOrKept(cfg.sendsPerAddressAndIP, l.sendsPerAddressAndIP, email + "|" + ip, now);
    ChargedOrKept(cfg.sendsPerIP, l.sendsPerIP, ip, now);
    ChargedOrKept(cfg.ceiling, l.ceiling, email, now);
    ChargedOrKept(cfg.daily, l.daily, email, now);
  }

  // ---------- what each answer means ----------

  lemma UnixMonotone(a: int, b: int)
    ensures a <= b ==> Unix(a) <= Unix(b)
  {
  }

  /** The guess gives the stored code, in date and with both counts below their caps. */
  predicate RightCode(cfg: Config, t: C.Table, g: Guess) {
    && g.email in t.codes && g.hash == t.codes[g.email].hash && Unix(g.now) <= t.codes[g.email].expires
    && t.codes[g.email].attempts < cfg.caps.total
    && (if (g.email, g.ip) in t.tries then t.tries[(g.email, g.ip)] else 0) < cfg.caps.perIP
  }

  /** A wrong guess at a code in date that leaves both counts below their caps. */
  predicate MayGuessAgain(cfg: Config, t: C.Table, g: Guess) {
    && g.email in t.codes && g.hash != t.codes[g.email].hash && Unix(g.now) <= t.codes[g.email].expires
    && t.codes[g.email].attempts + 1 < cfg.caps.total
    && (if (g.email, g.ip) in t.tries then t.tries[(g.email, g.ip)] else 0) + 1 < cfg.caps.perIP
  }

  /** Every answer to a guess; and the wrong-code limiter, which alone is charged, gets
      its token back exactly on a right code. */
  lemma GuessExactly(cfg: Config, s: State, g: Guess, permitted: bool)
    requires cfg.Valid() && RL.Sound(cfg.wrongCodes, s.limits.wrongCodes, g.now)
    ensures var (s', resp) := Guessed(cfg, s, g, permitted);
            var token, t := Has(cfg.wrongCodes, s.limits.wrongCodes, g.ip, g.now), s.table;
            var compared := token && !g.storeFails;
            && (resp == TooManyGuesses <==> !token)
            && (resp == ServerError <==> token && g.storeFails)
            && (resp == SignedIn <==> compared && RightCode(cfg, t, g) && permitted)
            && (resp == NotPermitted <==> compared && RightCode(cfg, t, g) && !permitted)
            && (resp == Incorrect <==> compared && MayGuessAgain(cfg, t, g))
            && (resp == CodeExpired <==>
                  compared && (g.email !in t.codes || t.codes[g.email].expires < Unix(g.now)))
            && (resp == LockedOut <==>
                  && compared && g.email in t.codes && Unix(g.now) <= t.codes[g.email].expires
                  && !RightCode(cfg, t, g) && !MayGuessAgain(cfg, t, g))
            && s'.limits == s.limits.(wrongCodes := s'.limits.wrongCodes)
            && var charged := RL.Allowed(cfg.wrongCodes, true, s.limits.wrongCodes, g.ip, g.now).0;
               if compared && RightCode(cfg, t, g) then
                 && s'.limits.wrongCodes == RL.Refunded(cfg.wrongCodes, true, charged, g.ip, g.now)
                 && SameLevels(cfg.wrongCodes, s.limits.wrongCodes, s'.limits.wrongCodes, g.now)
               else s'.limits.wrongCodes == charged
  {
    ChargedOrKept(cfg.wrongCodes, s.limits.wrongCodes, g.ip, g.now);
    C.AnswerExactly(cfg.caps, s.table, g.email, g.ip, g.hash, Unix(g.now));
  }

  /** What a guess leaves of the codes: nothing happens to any other address's; one that is
      right, out of date, or has run out of guesses is gone, counts and all; a wrong guess
      otherwise adds one to the code's count and one to its source's, unless its source has
      none left. A guess turned away before it is looked at changes nothing. */
  lemma GuessUses(cfg: Config, s: State, g: Guess, permitted: bool)
    requires cfg.Valid() && RL.Sound(cfg.wrongCodes, s.limits.wrongCodes, g.now)
    ensures var t, t' := s.table, Guessed(cfg, s, g, permitted).0.table;
            var own := if (g.email, g.ip) in t.tries then t.tries[(g.email, g.ip)] else 0;
            && (forall e :: e != g.email ==> C.SameCode(t, t', e))
            && if !Has(cfg.wrongCodes, s.limits.wrongCodes, g.ip, g.now) || g.storeFails || g.email !in t.codes then
                 t' == t
               else
                 var code := t.codes[g.email];
                 var wrong := own < cfg.caps.perIP && g.hash != code.hash;
                 if RightCode(cfg, t, g) || code.expires < Unix(g.now) || cfg.caps.total <= code.attempts
                    || (wrong && cfg.caps.total == code.attempts + 1) then C.NoTrace(t', g.email)
                 else if wrong then
                   && g.email in t'.codes && t'.codes[g.email] == code.(attempts := code.attempts + 1)
                   && t'.tries == t.tries[(g.email, g.ip) := own + 1]
                 else t' == t
  {
    ChargedOrKept(cfg.wrongCodes, s.limits.wrongCodes, g.ip, g.now);
    C.AnswerExactly(cfg.caps, s.table, g.email, g.ip, g.hash, Unix(g.now));
    C.GuessLeaves(cfg.caps, s.table, g.email, g.ip, g.hash, Unix(g.now));
  }

  ghost predicate AllLimitersSound(cfg: Config, l: Limits, now: int) {
    RL.Sound(cfg.requestsPerIP, l.requestsPerIP, now) && LimitersSound(cfg, l, now)
  }

  /** The request is let past the limiter and the checks on the address. */
  predicate Passes(cfg: Config, s: State, r: Request)
    requires cfg.Valid()
  {
    Has(cfg.requestsPerIP, s.limits.requestsPerIP, r.ip, r.now) && r.wellFormed && !r.declined
  }

  /** The address's code was minted within the cooldown, or may have been. */
  predicate TooSoon(cfg: Config, t: C.Table, r: Request) {
    r.recentFails || (r.email in t.codes && Unix(r.now + cfg.otpTTL - cfg.cooldown) < t.codes[r.email].expires)
  }

  /** Its own allowance, and either the three limits it shares or a known device. */
  predicate Affords(cfg: Config, l: Limits, r: Request)
    requires cfg.Valid()
  {
    && Has(cfg.sendsPerAddressAndIP, l.sendsPerAddressAndIP, r.email + "|" + r.ip, r.now)
    && (r.knownDevice || (&& Has(cfg.sendsPerIP, l.sendsPerIP, r.ip, r.now)
                          && Has(cfg.ceiling, l.ceiling, r.email, r.now) && Has(cfg.daily, l.daily, r.email, r.now)))
  }

  /** A code, real or not, is minted over any other. */
  predicate Replacing(cfg: Config, s: State, r: Request)
    requires cfg.Valid()
  {
    Passes(cfg, s, r) && !r.saturated && !TooSoon(cfg, s.table, r) && Affords(cfg, s.limits, r)
  }

  /** One is minted only where there is none. */
  predicate Filling(cfg: Config, s: State, r: Request)
    requires cfg.Valid()
  {
    Passes(cfg, s, r) && (r.saturated || (!TooSoon(cfg, s.table, r) && !Affords(cfg, s.limits, r)))
  }

  lemma PrunedRecently(cfg: Config, t: C.Table, r: Request)
    requires cfg.Valid()
    ensures r.recentFails || Recent(cfg, PrunedFor(t, r), r.email, r.now) <==> TooSoon(cfg, t, r)
  {
    UnixMonotone(r.now, r.now + cfg.otpTTL - cfg.cooldown);
  }

  lemma ChoiceExactly(cfg: Config, s: State, r: Request)
    requires cfg.Valid() && AllLimitersSound(cfg, s.limits, r.now)
    ensures var choice := Choose(cfg, s, r).1;
            && (choice == Mint <==> Replacing(cfg, s, r)) && (choice == EnsureDecoy <==> Filling(cfg, s, r))
            && (choice.Refuse? <==> !Passes(cfg, s, r))
  {
    RL.AllowedLevels(cfg.requestsPerIP, true, s.limits.requestsPerIP, r.ip, r.now);
    PrunedRecently(cfg, s.table, r);
    RefusedSpendsNothing(cfg, s.limits, r.email, r.ip, r.knownDevice, r.now);
    var perIP := RL.Allowed(cfg.requestsPerIP, true, s.limits.requestsPerIP, r.ip, r.now).0;
    SendsAlike(cfg, s.limits, perIP, r);
  }

  lemma SendsAlike(cfg: Config, l: Limits, perIP: RL.State, r: Request)
    requires cfg.Valid()
    ensures var l' := l.(requestsPerIP := perIP);
            SendAllowed(cfg, l', r.email, r.ip, r.knownDevice, r.now)
            == (SendAllowed(cfg, l, r.email, r.ip, r.knownDevice, r.now).0.(requestsPerIP := perIP),
                SendAllowed(cfg, l, r.email, r.ip, r.knownDevice, r.now).1)
  {
  }

  /** Every answer to a request for a code, and exactly when mail goes out: the address
      is permitted and a code is minted for it over any other. */
  lemma RequestAnswered(cfg: Config, s: State, r: Request, permitted: bool)
    requires cfg.Valid() && AllLimitersSound(cfg, s.limits, r.now)
    ensures var (s', resp, mailed) := Requested(cfg, s, r, permitted);
            var token := Has(cfg.requestsPerIP, s.limits.requestsPerIP, r.ip, r.now);
            && (resp == TooManyRequests <==> !token)
            && (resp == InvalidAddress <==> token && !r.wellFormed)
            && (resp == OtherDomain <==> token && r.wellFormed && r.declined)
            && (resp == ServerError <==> Passes(cfg, s, r) && r.stateFails)
            && (resp == EnterCode <==> Passes(cfg, s, r) && !r.stateFails)
            && (mailed <==> permitted && Replacing(cfg, s, r) && r.fault == Works)
  {
    ChoiceExactly(cfg, s, r);
    RL.AllowedLevels(cfg.requestsPerIP, true, s.limits.requestsPerIP, r.ip, r.now);
  }

  /** What a request that passes leaves of the codes: a prune that works drops those out
      of date and no others; the address's own is replaced, filled in or left; whether
      it is permitted does not show. */
  lemma RequestLeaves(cfg: Config, s: State, r: Request, permitted: bool, e: string)
    requires cfg.Valid() && AllLimitersSound(cfg, s.limits, r.now)
    ensures var t, t' := s.table, Requested(cfg, s, r, permitted).0.table;
            var kept := e in t.codes && (r.pruneFails || Unix(r.now) <= t.codes[e].expires);
            var mints := e == r.email && r.fault == Works;
            if !Passes(cfg, s, r) then t' == t
            else if mints && Replacing(cfg, s, r) then
              e in t'.codes && t'.codes[e] == C.Code(r.hash, Unix(r.now + cfg.otpTTL), 0) && NoAttempts(t', e)
            else if kept then C.SameCode(t, t', e)
            else if mints && Filling(cfg, s, r) then
              e in t'.codes && t'.codes[e] == C.Code(r.hash, Unix(r.now + cfg.otpTTL - cfg.cooldown), 0)
            else e !in t'.codes
  {
    ChoiceExactly(cfg, s, r);
    C.PruneExactly(s.table, Unix(r.now), e);
    C.StoredLeaves(PrunedFor(s.table, r), r.email, r.hash, Unix(r.now + cfg.otpTTL));
    C.StoredLeaves(PrunedFor(s.table, r), r.email, r.hash, Unix(r.now + cfg.otpTTL - cfg.cooldown));
  }

  ghost predicate NoAttempts(t: C.Table, email: string) { forall k: C.Source :: k in t.tries ==> k.0 != email }

  /** A request that is turned away, or comes too soon, or finds the mail full, spends
      nothing but its place among its client's requests. */
  lemma UnsentSpendsNothing(cfg: Config, s: State, r: Request, permitted: bool)
    requires cfg.Valid() && AllLimitersSound(cfg, s.limits, r.now)
    requires !Passes(cfg, s, r) || r.saturated || TooSoon(cfg, s.table, r)
    ensures var l, l' := s.limits, Requested(cfg, s, r, permitted).0.limits;
            l' == l.(requestsPerIP := RL.Allowed(cfg.requestsPerIP, true, l.requestsPerIP, r.ip, r.now).0)
  {
    RL.AllowedLevels(cfg.requestsPerIP, true, s.limits.requestsPerIP, r.ip, r.now);
    PrunedRecently(cfg, s.table, r);
  }

  // ---------- the cooldown ----------

  /** When a stored code was minted, whether it is an insert-if-absent decoy, and its hash. */
  datatype Issue = Issue(at: int, decoy: bool, hash: string)

  /** When it expires. */
  function Expiry(cfg: Config, i: Issue): int { i.at + cfg.otpTTL - (if i.decoy then cfg.cooldown else 0) }

  /** An observer's notes of the codes a run stores: the latest minting for each address. */
  function Noted(cfg: Config, s: State, notes: map<string, Issue>, e: Event): map<string, Issue>
    requires cfg.Valid()
  {
    if e.Try? then notes
    else NotedChoice(PrunedFor(s.table, e.r), Choose(cfg, s, e.r).1, notes, e.r)
  }

  function NotedChoice(t: C.Table, choice: Choice, notes: map<string, Issue>, r: Request): map<string, Issue> {
    if r.fault != Works then notes
    else if choice == Mint then notes[r.email := Issue(r.now, false, r.hash)]
    else if choice == EnsureDecoy && r.email !in t.codes then notes[r.email := Issue(r.now, true, r.hash)]
    else notes
  }

  function Notes(cfg: Config, s: State, notes: map<string, Issue>, es: seq<Event>): map<string, Issue>
    requires cfg.Valid()
    decreases |es|
  {
    if es == [] then notes
    else Notes(cfg, After(cfg, s, es[0]).0, Noted(cfg, s, notes, es[0]), es[1..])
  }

  /** Each stored code's expiry tells when it was minted; its hash is the one noted. */
  ghost predicate Dated(cfg: Config, t: C.Table, notes: map<string, Issue>) {
    forall x :: x in t.codes ==>
      x in notes && t.codes[x].expires == Unix(Expiry(cfg, notes[x])) && t.codes[x].hash == notes[x].hash
  }

  lemma RequestDated(cfg: Config, t: C.Table, choice: Choice, notes: map<string, Issue>, r: Request, permitted: bool)
    requires Dated(cfg, t, notes)
    ensures Dated(cfg, RequestedTable(cfg, t, choice, r, permitted),
                  NotedChoice(PrunedFor(t, r), choice, notes, r))
  {
  }

  lemma ConsumedDated(cfg: Config, t: C.Table, notes: map<string, Issue>, g: Guess)
    requires Dated(cfg, t, notes)
    ensures Dated(cfg, C.Consumed(cfg.caps, t, g.email, g.ip, g.hash, Unix(g.now)).0, notes)
  {
  }

  lemma {:induction false} RunDated(cfg: Config, s: State, notes: map<string, Issue>, es: seq<Event>)
    requires cfg.Valid() && Dated(cfg, s.table, notes)
    ensures Dated(cfg, Final(cfg, s, es).table, Notes(cfg, s, notes, es))
    decreases |es|
  {
    if es == [] {
    } else {
      match es[0] {
        case Ask(r, permitted) => RequestDated(cfg, s.table, Choose(cfg, s, r).1, notes, r, permitted);
        case Try(g, _) => ConsumedDated(cfg, s.table, notes, g);
      }
      RunDated(cfg, After(cfg, s, es[0]).0, Noted(cfg, s, notes, es[0]), es[1..]);
    }
  }

  /** Everything but the cooldown lets this request send a code. */
  predicate MaySend(cfg: Config, s: State, r: Request)
    requires cfg.Valid()
  {
    var (perIP, ok) := RL.Allowed(cfg.requestsPerIP, true, s.limits.requestsPerIP, r.ip, r.now);
    && ok && r.wellFormed && !r.declined && !r.saturated && !r.recentFails && r.fault == Works
    && SendAllowed(cfg, s.limits.(requestsPerIP := perIP), r.email, r.ip, r.knownDevice, r.now).1
  }

  /** The request replaces a code that was still there. */
  predicate Overwrites(cfg: Config, s: State, r: Request)
    requires cfg.Valid()
  {
    Choose(cfg, s, r).1 == Mint && r.fault == Works && r.email in PrunedFor(s.table, r).codes
  }

  const EMPTY := C.Table(map[], map[])

  /** After any run from an empty store, exactly when a request replaces a code that
      is still there: everything else lets it, and the store's whole seconds put the
      code's expiry no later than that of one issued a cooldown ago. So a real code
      is replaced before its cooldown is over exactly when those two fall within
      the same second; a decoy, being back-dated, never holds a request up. */
  lemma OverwriteExactly(cfg: Config, limits: Limits, es: seq<Event>, r: Request)
    requires cfg.Valid() && r.email in PrunedFor(Final(cfg, State(EMPTY, limits), es).table, r).codes
    ensures var s, notes := Final(cfg, State(EMPTY, limits), es), Notes(cfg, State(EMPTY, limits), map[], es);
            var lapsed := r.now + cfg.otpTTL - cfg.cooldown;
            && r.email in notes
            && (Overwrites(cfg, s, r) <==> MaySend(cfg, s, r) && Unix(Expiry(cfg, notes[r.email])) <= Unix(lapsed))
            && (!notes[r.email].decoy ==>
                  (Overwrites(cfg, s, r) && r.now < notes[r.email].at + cfg.cooldown <==>
                   MaySend(cfg, s, r) && lapsed < Expiry(cfg, notes[r.email])
                     && Unix(lapsed) == Unix(Expiry(cfg, notes[r.email]))))
            && (notes[r.email].decoy && notes[r.email].at <= r.now ==> (Overwrites(cfg, s, r) <==> MaySend(cfg, s, r)))
  {
    var s, notes := Final(cfg, State(EMPTY, limits), es), Notes(cfg, State(EMPTY, limits), map[], es);
    RunDated(cfg, State(EMPTY, limits), map[], es);
    assert PrunedFor(s.table, r).codes[r.email] == s.table.codes[r.email];
    UnixMonotone(r.now + cfg.otpTTL - cfg.cooldown, Expiry(cfg, notes[r.email]));
    UnixMonotone(Expiry(cfg, notes[r.email]), r.now + cfg.otpTTL - cfg.cooldown);
  }

  lemma SignedInIsRight(cfg: Config, s: State, g: Guess, permitted: bool)
    requires cfg.Valid() && Guessed(cfg, s, g, permitted).1 == SignedIn
    ensures permitted && RightCode(cfg, s.table, g)
  {
    C.AnswerExactly(cfg.caps, s.table, g.email, g.ip, g.hash, Unix(g.now));
  }

  /** After any run from an empty store, a guess signs in only where that is permitted,
      only with the hash of the code last minted for the address, and only within that
      code's lifetime, to the store's second. */
  lemma SignInNeedsItsCode(cfg: Config, limits: Limits, es: seq<Event>, g: Guess, permitted: bool)
    requires cfg.Valid() && Guessed(cfg, Final(cfg, State(EMPTY, limits), es), g, permitted).1 == SignedIn
    ensures var notes := Notes(cfg, State(EMPTY, limits), map[], es);
            && permitted && g.email in notes && notes[g.email].hash == g.hash
            && Unix(g.now) <= Unix(notes[g.email].at + cfg.otpTTL)
  {
    var s, notes := Final(cfg, State(EMPTY, limits), es), Notes(cfg, State(EMPTY, limits), map[], es);
    RunDated(cfg, State(EMPTY, limits), map[], es);
    SignedInIsRight(cfg, s, g, permitted);
    UnixMonotone(Expiry(cfg, notes[g.email]), notes[g.email].at + cfg.otpTTL);
  }

  /** To within the store's second, then, a live code waits out its cooldown. */
  lemma OverwriteWaitsForCooldown(cfg: Config, limits: Limits, es: seq<Event>, r: Request)
    requires cfg.Valid() && Overwrites(cfg, Final(cfg, State(EMPTY, limits), es), r)
    ensures var notes := Notes(cfg, State(EMPTY, limits), map[], es);
            r.email in notes && (notes[r.email].decoy || notes[r.email].at + cfg.cooldown < r.now + SECOND)
  {
    OverwriteExactly(cfg, limits, es, r);
  }

  // ---------- a code replaced a quarter of a second early ----------

  const RULE := RL.Limit(5, 600 * SECOND)

  const EXAMPLE := Config(600 * SECOND, 60 * SECOND, C.Caps(5, 20), RULE, RULE, RULE, RULE, RULE, RULE)

  const UNUSED := RL.State(map[], None)

  function AskAt(now: int): Request {
    Request("a@b.cd", "ip", now, true, false, false, false, false, false, false, Works, "")
  }

  lemma TwiceAllowed(k: string, t1: int, t2: int)
    requires 0 <= t1 <= t2
    ensures var (s1, ok1) := RL.Allowed(RULE, true, UNUSED, k, t1);
            ok1 && RL.Allowed(RULE, true, s1, k, t2).1
  {
    RL.AllowedLevels(RULE, true, UNUSED, k, t1);
    var s1 := RL.Allowed(RULE, true, UNUSED, k, t1).0;
    RL.LevelLater(RULE, s1, k, t1, t2);
    RULE.AccruedNonNegative(t2 - t1);
    RL.AllowedLevels(RULE, true, s1, k, t2);
  }

  function Once(k: string, t: int): RL.State { RL.Allowed(RULE, true, UNUSED, k, t).0 }

  const OWN := "a@b.cd" + "|" + "ip"

  /** The limiters after one request at t. */
  function Spent(t: int): Limits {
    Limits(Once("ip", t), Once(OWN, t), Once("ip", t), Once("a@b.cd", t), Once("a@b.cd", t), UNUSED)
  }

  const FRESH := Limits(UNUSED, UNUSED, UNUSED, UNUSED, UNUSED, UNUSED)

  lemma FirstSends(t: int)
    requires 0 <= t
    ensures SendAllowed(EXAMPLE, FRESH.(requestsPerIP := Once("ip", t)), "a@b.cd", "ip", false, t) == (Spent(t), true)
  {
    TwiceAllowed("ip", t, t);
    TwiceAllowed(OWN, t, t);
    TwiceAllowed("a@b.cd", t, t);
  }

  lemma SecondSends(t1: int, t2: int)
    requires 0 <= t1 <= t2
    ensures var (perIP, ok) := RL.Allowed(RULE, true, Spent(t1).requestsPerIP, "ip", t2);
            ok && SendAllowed(EXAMPLE, Spent(t1).(requestsPerIP := perIP), "a@b.cd", "ip", false, t2).1
  {
    TwiceAllowed("ip", t1, t2);
    TwiceAllowed(OWN, t1, t2);
    TwiceAllowed("a@b.cd", t1, t2);
  }

  lemma FirstMints(t: int)
    requires 0 <= t
    ensures After(EXAMPLE, State(EMPTY, FRESH), Ask(AskAt(t), true)).0
            == State(C.Table(map["a@b.cd" := C.Code("", Unix(t + EXAMPLE.otpTTL), 0)], map[]), Spent(t))
  {
    FirstSends(t);
    TwiceAllowed("ip", t, t);
    var r := AskAt(t);
    assert PrunedFor(EMPTY, r) == EMPTY;
    assert Choose(EXAMPLE, State(EMPTY, FRESH), r) == (Spent(t), Mint);
    assert C.Saved(EMPTY, "a@b.cd", "", Unix(t + EXAMPLE.otpTTL)) ==
           C.Table(map["a@b.cd" := C.Code("", Unix(t + EXAMPLE.otpTTL), 0)], map[]);
  }

  /** The code of a first request at t1 is replaced by one at t2, if the store's
      seconds say its cooldown has lapsed. */
  lemma SecondReplaces(t1: int, t2: int)
    requires 0 <= t1 <= t2 && Unix(t1 + EXAMPLE.otpTTL) <= Unix(t2 + EXAMPLE.otpTTL - EXAMPLE.cooldown)
             && Unix(t2) <= Unix(t1 + EXAMPLE.otpTTL)
    ensures Overwrites(EXAMPLE,
                       State(C.Table(map["a@b.cd" := C.Code("", Unix(t1 + EXAMPLE.otpTTL), 0)], map[]), Spent(t1)),
                         AskAt(t2))
  {
    SecondSends(t1, t2);
    var t := C.Table(map["a@b.cd" := C.Code("", Unix(t1 + EXAMPLE.otpTTL), 0)], map[]);
    assert PrunedFor(t, AskAt(t2)) == t;
  }

  /** Minted half a second past, asked for again 59.75 seconds later, and replaced. */
  lemma EarlyOverwrite()
    ensures var first, again := AskAt(SECOND / 2), AskAt(60 * SECOND + SECOND / 4);
            var s := Final(EXAMPLE, State(EMPTY, FRESH), [Ask(first, true)]);
            again.now < first.now + EXAMPLE.cooldown && Overwrites(EXAMPLE, s, again)
  {
    var t1, t2 := SECOND / 2, 60 * SECOND + SECOND / 4;
    FirstMints(t1);
    SecondReplaces(t1, t2);
    assert [Ask(AskAt(t1), true)][1..] == [];
  }
}
