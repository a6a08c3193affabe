/**
 The steps of Membership.dfy, taken by one request with nobody else at work, come
 to what the forward_auth decision of Verify.dfy says: the same answer, the same
 renewed session, the same refusal remembered.
 */
module MembershipAlone {
  import opened Prelude
  import opened Strings
  import opened Authz
  import opened Sessions
  import opened Recheck
  import V = Verify
  import opened VerifyLaws
  import XAuthPolicy = Policy
  import M = Membership

  /** Every step a request can take, in order; those that do not apply do nothing. */
  function Steps(w: M.World, k: nat, due: bool, admits: set<string>): seq<M.Action> {
    var t := |w.threads|;
    [M.StartRequest(k), M.Check(t, due, admits), M.Renew(t, admits), M.Recall(t), M.Capture(t), M.Query(t, true),
     M.Settle(t, admits)]
  }

  // ---------- one step at a time ----------

  function Staged(w: M.World, t: nat, stage: M.Stage): M.World
    requires t < |w.threads|
  {
    w.(threads := M.At(w, t, stage))
  }

  lemma DoneStays(w: M.World, t: nat, admits: set<string>)
    requires t < |w.threads| && w.threads[t].stage == M.Done
    ensures M.Step(w, M.Renew(t, admits)) == M.Step(w, M.Recall(t)) == M.Step(w, M.Capture(t)) == w
    ensures M.Step(w, M.Query(t, true)) == M.Step(w, M.Settle(t, admits)) == w
  {
  }

  lemma CheckStep(w: M.World, t: nat, k: nat, due: bool, admits: set<string>)
    requires t < |w.threads| && k < |w.tickets| && w.threads[t].stage == M.Began(k)
    ensures M.Step(w, M.Check(t, due, admits)) ==
            if due || M.Stale(w, w.tickets[k]) then Staged(w, t, M.Renewing(k))
            else if w.tickets[k].groups in admits then M.Concluded(w, t, true, w.tickets[k].seen)
            else Staged(w, t, M.Refused(k))
  {
  }

  lemma RenewStep(w: M.World, t: nat, admits: set<string>)
    requires t < |w.threads|
    ensures M.Step(w, M.Renew(t, admits)) ==
            if w.threads[t].stage.Renewing? then M.Renewed(w, t, M.Newest(w), admits) else w
  {
  }

  lemma RecallStep(w: M.World, t: nat, k: nat)
    requires t < |w.threads| && k < |w.tickets| && w.threads[t].stage == M.Refused(k)
    ensures M.Step(w, M.Recall(t)) == M.Recalled(w, t, k)
  {
  }

  lemma CaptureStep(w: M.World, t: nat, k: nat)
    requires t < |w.threads| && w.threads[t].stage == M.Missed(k)
    ensures M.Step(w, M.Capture(t)) == Staged(w, t, M.Asking(k, w.gen))
  {
  }

  lemma QueryStep(w: M.World, t: nat, k: nat, gen: nat)
    requires t < |w.threads| && w.threads[t].stage == M.Asking(k, gen)
    ensures M.Step(w, M.Query(t, true)) == Staged(w, t, M.Queried(k, gen, M.Newest(w)))
  {
  }

  lemma SettleStep(w: M.World, t: nat, k: nat, gen: nat, seen: nat, admits: set<string>)
    requires t < |w.threads| && k < |w.tickets| && w.threads[t].stage == M.Queried(k, gen, seen)
    ensures M.Step(w, M.Settle(t, admits)) == M.Settled(w, t, k, gen, seen, admits)
  {
  }

  // ---------- all of them ----------

  /** The steps of the refusal path. */
  function Refusal(w: M.World, t: nat, admits: set<string>): M.World {
    M.Step(M.Step(M.Step(M.Step(w, M.Recall(t)), M.Capture(t)), M.Query(t, true)), M.Settle(t, admits))
  }

  /** The steps after a request has begun. */
  function Onwards(w: M.World, t: nat, due: bool, admits: set<string>): M.World {
    Refusal(M.Step(M.Step(w, M.Check(t, due, admits)), M.Renew(t, admits)), t, admits)
  }

  lemma RunSteps(w: M.World, k: nat, due: bool, admits: set<string>)
    ensures var t, w1 := |w.threads|, M.Step(w, M.StartRequest(k));
            M.Run(w, Steps(w, k, due, admits))
            == Onwards(w1, t, due, admits)
  {
    var t := |w.threads|;
    var a, b, c, d := M.StartRequest(k), M.Check(t, due, admits), M.Renew(t, admits), M.Recall(t);
    var e, f, g := M.Capture(t), M.Query(t, true), M.Settle(t, admits);
    assert [a, b, c, d, e, f, g] == [a, b, c, d] + [e, f, g];
    M.RunTwice(w, [a, b, c, d], [e, f, g]);
    RunFour(w, a, b, c, d);
    RunThree(M.Run(w, [a, b, c, d]), e, f, g);
  }

  lemma RunThree(w: M.World, a: M.Action, b: M.Action, c: M.Action)
    ensures M.Run(w, [a, b, c]) == M.Step(M.Step(M.Step(w, a), b), c)
  {
    assert [a, b, c][1..] == [b, c] && [b, c][1..] == [c] && [c][1..] == [];
    assert M.Run(M.Step(w, a), [b, c]) == M.Run(M.Step(M.Step(w, a), b), [c]);
    assert M.Run(M.Step(M.Step(w, a), b), [c]) == M.Step(M.Step(M.Step(w, a), b), c);
  }

  lemma RunFour(w: M.World, a: M.Action, b: M.Action, c: M.Action, d: M.Action)
    ensures M.Run(w, [a, b, c, d]) == M.Step(M.Step(M.Step(M.Step(w, a), b), c), d)
  {
    assert [a, b, c, d][1..] == [b, c, d];
    RunThree(M.Step(w, a), b, c, d);
  }

  lemma RefusalIdle(w: M.World, t: nat, admits: set<string>)
    requires t < |w.threads| && w.threads[t].stage == M.Done
    ensures Refusal(w, t, admits) == w
  {
    DoneStays(w, t, admits);
  }

  /** One decision more, with these sessions and this memory. */
  ghost predicate EndsWith(w: M.World, end: M.World, granted: bool, minted: seq<M.Ticket>, until: Memory) {
    && |end.decisions| == |w.decisions| + 1 && end.decisions[|w.decisions|].granted == granted
    && end.tickets == w.tickets + minted && end.until == until
  }

  predicate Remembered(w: M.World, ticket: M.Ticket, now: int) {
    (ticket.email, ticket.groups) in w.until && now < w.until[(ticket.email, ticket.groups)]
  }

  lemma RefusalRecalls(w: M.World, t: nat, k: nat, admits: set<string>)
    requires t < |w.threads| && k < |w.tickets| && w.threads[t].stage == M.Refused(k)
    requires Remembered(w, w.tickets[k], w.threads[t].now)
    ensures EndsWith(w, Refusal(w, t, admits), false, [], w.until)
  {
    RecallStep(w, t, k);
    DoneStays(M.Recalled(w, t, k), t, admits);
  }

  lemma RefusalReads(w: M.World, t: nat, k: nat, admits: set<string>)
    requires t < |w.threads| && k < |w.tickets| && w.threads[t].stage == M.Refused(k)
    requires !Remembered(w, w.tickets[k], w.threads[t].now)
    ensures var newest := M.Newest(w);
            Refusal(w, t, admits) ==
            M.Settled(Staged(w, t, M.Queried(k, w.gen, newest)), t, k, w.gen, newest, admits)
  {
    RecallStep(w, t, k);
    CaptureStep(Staged(w, t, M.Missed(k)), t, k);
    assert Staged(Staged(w, t, M.Missed(k)), t, M.Asking(k, w.gen)) == Staged(w, t, M.Asking(k, w.gen));
    QueryStep(Staged(w, t, M.Asking(k, w.gen)), t, k, w.gen);
    var newest := M.Newest(w);
    assert Staged(Staged(w, t, M.Asking(k, w.gen)), t, M.Queried(k, w.gen, newest)) ==
           Staged(w, t, M.Queried(k, w.gen, newest));
    SettleStep(Staged(w, t, M.Queried(k, w.gen, newest)), t, k, w.gen, newest, admits);
  }

  lemma SettledEnds(w: M.World, w': M.World, t: nat, k: nat, admits: set<string>)
    requires t < |w.threads| && k < |w.tickets| && w.threads[t].email == w.tickets[k].email
    requires w.tickets[k].groups !in admits
    requires w' == Staged(w, t, M.Queried(k, w.gen, M.Newest(w)))
    ensures var ticket, at, newest := w.tickets[k], w.threads[t].now, M.Newest(w);
            var now, end := M.GroupsIn(w, newest, ticket.email), M.Settled(w', t, k, w.gen, newest, admits);
            if now == ticket.groups then
              EndsWith(w, end, false, [], Confirmed(w.until, (ticket.email, ticket.groups), at))
            else EndsWith(w, end, now in admits, [M.Ticket(ticket.email, now, at, newest)], w.until)
  {
  }

  lemma RenewalEnds(w: M.World, t: nat, k: nat, admits: set<string>)
    requires t < |w.threads| && w.threads[t].stage == M.Renewing(k)
    ensures var email, newest := w.threads[t].email, M.Newest(w);
            var now := M.GroupsIn(w, newest, email);
            EndsWith(w, Refusal(M.Step(w, M.Renew(t, admits)), t, admits), now in admits,
                     [M.Ticket(email, now, w.threads[t].now, newest)], w.until)
  {
    RenewStep(w, t, admits);
    RefusalIdle(M.Renewed(w, t, M.Newest(w), admits), t, admits);
  }

  /** Where a request has begun, the world is as it was. */
  ghost predicate HasBegun(w: M.World, w1: M.World, t: nat, k: nat) {
    && t < |w1.threads| && k < |w1.tickets| && w1.threads[t].stage == M.Began(k)
    && w1.threads[t].email == w1.tickets[k].email && w1.threads[t].now == w.clock
    && w1.tickets == w.tickets && w1.decisions == w.decisions && w1.until == w.until
    && w1.db == w.db && w1.cut == w.cut && w1.clock == w.clock
  }

  lemma BeginStep(w: M.World, k: nat)
    requires k < |w.tickets|
    ensures HasBegun(w, M.Step(w, M.StartRequest(k)), |w.threads|, k)
  {
  }

  /** What the steps come to: the decision, the session minted, and the memory. */
  ghost predicate ComesTo(w: M.World, end: M.World, k: nat, due: bool, admits: set<string>)
    requires k < |w.tickets|
  {
    var ticket := w.tickets[k];
    var now := M.GroupsIn(w, M.Newest(w), ticket.email);
    var minted := [M.Ticket(ticket.email, now, w.clock, M.Newest(w))];
    if due || (w.cut.groupsChangedAt != 0 && ticket.iat <= w.cut.groupsChangedAt) then
      EndsWith(w, end, now in admits, minted, w.until)
    else if ticket.groups in admits then EndsWith(w, end, true, [], w.until)
    else if Remembered(w, ticket, w.clock) then EndsWith(w, end, false, [], w.until)
    else if now == ticket.groups then
      EndsWith(w, end, false, [], Confirmed(w.until, (ticket.email, ticket.groups), w.clock))
    else EndsWith(w, end, now in admits, minted, w.until)
  }

  /** What the refusal path ends with. */
  ghost predicate RefusedTo(w: M.World, end: M.World, k: nat, at: int, admits: set<string>)
    requires k < |w.tickets|
  {
    var ticket, newest := w.tickets[k], M.Newest(w);
    var now := M.GroupsIn(w, newest, ticket.email);
    if Remembered(w, ticket, at) then EndsWith(w, end, false, [], w.until)
    else if now == ticket.groups then
      EndsWith(w, end, false, [], Confirmed(w.until, (ticket.email, ticket.groups), at))
    else EndsWith(w, end, now in admits, [M.Ticket(ticket.email, now, at, newest)], w.until)
  }

  lemma RefusedEnds(w: M.World, t: nat, k: nat, admits: set<string>)
    requires t < |w.threads| && k < |w.tickets| && w.threads[t].stage == M.Refused(k)
    requires w.threads[t].email == w.tickets[k].email && w.tickets[k].groups !in admits
    ensures RefusedTo(w, Refusal(w, t, admits), k, w.threads[t].now, admits)
  {
    if Remembered(w, w.tickets[k], w.threads[t].now) {
      RefusalRecalls(w, t, k, admits);
    } else {
      RefusalReads(w, t, k, admits);
      SettledEnds(w, Staged(w, t, M.Queried(k, w.gen, M.Newest(w))), t, k, admits);
    }
  }

  lemma BegunStale(w: M.World, t: nat, k: nat, due: bool, admits: set<string>)
    requires HasBegun(w, w, t, k) && (due || M.Stale(w, w.tickets[k]))
    ensures ComesTo(w, Onwards(w, t, due, admits), k, due, admits)
  {
    CheckStep(w, t, k, due, admits);
    RenewalEnds(Staged(w, t, M.Renewing(k)), t, k, admits);
  }

  lemma BegunAdmitted(w: M.World, t: nat, k: nat, due: bool, admits: set<string>)
    requires HasBegun(w, w, t, k) && !due && !M.Stale(w, w.tickets[k]) && w.tickets[k].groups in admits
    ensures ComesTo(w, Onwards(w, t, due, admits), k, due, admits)
  {
    CheckStep(w, t, k, due, admits);
    var w2 := M.Concluded(w, t, true, w.tickets[k].seen);
    DoneStays(w2, t, admits);
    RefusalIdle(w2, t, admits);
  }

  lemma RefusedOnwards(w: M.World, t: nat, k: nat, due: bool, admits: set<string>)
    requires HasBegun(w, w, t, k) && !due && !M.Stale(w, w.tickets[k]) && w.tickets[k].groups !in admits
    ensures Onwards(w, t, due, admits) == Refusal(Staged(w, t, M.Refused(k)), t, admits)
  {
    CheckStep(w, t, k, due, admits);
    RenewStep(Staged(w, t, M.Refused(k)), t, admits);
  }

  lemma BegunRefused(w: M.World, t: nat, k: nat, due: bool, admits: set<string>)
    requires HasBegun(w, w, t, k) && !due && !M.Stale(w, w.tickets[k]) && w.tickets[k].groups !in admits
    ensures ComesTo(w, Onwards(w, t, due, admits), k, due, admits)
  {
    var w2 := Staged(w, t, M.Refused(k));
    RefusedOnwards(w, t, k, due, admits);
    RefusedEnds(w2, t, k, admits);
    RefusedComesTo(w, w2, Refusal(w2, t, admits), t, k, due, admits);
  }

  lemma RefusedComesTo(w: M.World, w2: M.World, end: M.World, t: nat, k: nat, due: bool, admits: set<string>)
    requires HasBegun(w, w, t, k) && !due && !M.Stale(w, w.tickets[k]) && w.tickets[k].groups !in admits
    requires w2 == Staged(w, t, M.Refused(k)) && RefusedTo(w2, end, k, w.clock, admits)
    ensures ComesTo(w, end, k, due, admits)
  {
  }

  lemma BegunComesTo(w: M.World, w1: M.World, t: nat, k: nat, due: bool, admits: set<string>)
    requires k < |w.tickets| && HasBegun(w, w1, t, k)
    ensures ComesTo(w, Onwards(w1, t, due, admits), k, due, admits)
  {
    if due || M.Stale(w1, w.tickets[k]) {
      BegunStale(w1, t, k, due, admits);
    } else if w.tickets[k].groups in admits {
      BegunAdmitted(w1, t, k, due, admits);
    } else {
      BegunRefused(w1, t, k, due, admits);
    }
    SameWorld(w, w1, Onwards(w1, t, due, admits), t, k, due, admits);
  }

  lemma SameWorld(w: M.World, w1: M.World, end: M.World, t: nat, k: nat, due: bool, admits: set<string>)
    requires k < |w.tickets| && HasBegun(w, w1, t, k) && ComesTo(w1, end, k, due, admits)
    ensures ComesTo(w, end, k, due, admits)
  {
  }

  lemma StepsComeTo(w: M.World, k: nat, due: bool, admits: set<string>)
    requires k < |w.tickets|
    ensures ComesTo(w, M.Run(w, Steps(w, k, due, admits)), k, due, admits)
  {
    RunSteps(w, k, due, admits);
    BeginStep(w, k);
    BegunComesTo(w, M.Step(w, M.StartRequest(k)), |w.threads|, k, due, admits);
  }

  /** A signed, live, normal session, its ticket, and a route whose rule is on groups
      and wants no second step of an administrator. */
  ghost predicate Matches(cfg: V.Config, routes: V.Routes, db: V.Db, w: M.World, k: nat, c: Cookie, header: string) {
    var id, now, p := c.id, w.clock, XAuthPolicy.Parse(header);
    && k < |w.tickets| && id.kind == "" && w.tickets[k].email == id.email
    && w.tickets[k].groups == id.groups && w.tickets[k].iat == id.iat
    && now <= c.exp && !IsOver(cfg, w.cut.ended, id, now) && StillAdmitted(cfg, id) && HasItsPasskey(db, id)
    && db.groupsOk && AllValid(V.Stored(db, id.email))
    && GroupsNow(cfg, routes, db, id, now) == M.GroupsIn(w, M.Newest(w), id.email)
    && p.ok && Trim(p.groups) != "" && !NeedsStep(cfg, routes, id, p.groups, now)
  }

  /** `admits` is the route's rule, on the two sets of groups in question. */
  ghost predicate Ruled(w: M.World, k: nat, id: Identity, header: string, admits: set<string>)
    requires k < |w.tickets|
  {
    forall g :: g == id.groups || g == M.GroupsIn(w, M.Newest(w), id.email) ==>
      (g in admits <==> Admit(id.(groups := g), XAuthPolicy.Parse(header)))
  }

  /** The answer renews the session with these groups. */
  ghost predicate Renews(a: V.Answer, email: string, groups: string, now: int) {
    var c := CookieOf(a);
    c.Some? && c.value.id.email == email && c.value.id.groups == groups && c.value.id.iat == now
  }

  ghost predicate DecidesAlike(w: M.World, k: nat, id: Identity, header: string, stale: bool, a: V.Answer,
                               confirms: bool)
    requires k < |w.tickets|
  {
    var now, p := M.GroupsIn(w, M.Newest(w), id.email), XAuthPolicy.Parse(header);
    var renews := !confirms && Renews(a, id.email, now, w.clock) && (a.Granted? <==> Admit(id.(groups := now), p));
    if stale then renews
    else if Admit(id, p) then !confirms && CookieOf(a).None? && a.Granted?
    else if Remembered(w, w.tickets[k], w.clock) then !confirms && CookieOf(a).None? && !a.Granted?
    else if now == id.groups then confirms && CookieOf(a).None? && !a.Granted?
    else renews
  }

  lemma StaleComesTo(cfg: V.Config, routes: V.Routes, db: V.Db, w: M.World, k: nat, c: Cookie, header: string,
                     a: V.Answer)
    requires Matches(cfg, routes, db, w, k, c, header)
    requires RenewedFirst(cfg, routes, db, c.id, header, w.clock, true, a)
    ensures DecidesAlike(w, k, c.id, header, true, a, false)
  {
  }

  lemma OwnComesTo(cfg: V.Config, routes: V.Routes, db: V.Db, w: M.World, k: nat, c: Cookie, header: string,
                   a: V.Answer, confirms: bool)
    requires Matches(cfg, routes, db, w, k, c, header)
    requires OnOwnGroups(cfg, routes, db, w.until, c.id, header, w.clock, true, a, confirms)
    ensures DecidesAlike(w, k, c.id, header, false, a, confirms)
  {
  }

  /** The same of the decision. */
  lemma VerifyComesTo(cfg: V.Config, routes: V.Routes, db: V.Db, w: M.World, k: nat, c: Cookie, header: string)
    requires Matches(cfg, routes, db, w, k, c, header)
    ensures var (a, confirms) := V.Verified(cfg, routes, db, w.cut, w.until, [Some(c)], header, w.clock, true);
            DecidesAlike(w, k, c.id, header, OutOfDate(cfg, w.cut.groupsChangedAt, c.id, w.clock), a, confirms)
  {
    var (a, confirms) := V.Verified(cfg, routes, db, w.cut, w.until, [Some(c)], header, w.clock, true);
    NoSessionNoAnswer(cfg, routes, db, w.cut, w.until, [Some(c)], header, w.clock, true);
    if OutOfDate(cfg, w.cut.groupsChangedAt, c.id, w.clock) {
      OutOfDateIsRenewed(cfg, routes, db, w.cut, w.until, [Some(c)], header, w.clock, true);
      StaleComesTo(cfg, routes, db, w, k, c, header, a);
    } else {
      UpToDateIsDecided(cfg, routes, db, w.cut, w.until, [Some(c)], header, w.clock, true);
      OwnComesTo(cfg, routes, db, w, k, c, header, a, confirms);
    }
  }

  /** A request alone is answered, renewed and remembered as the decision says. */
  lemma AloneAnswersAsVerify(cfg: V.Config, routes: V.Routes, db: V.Db, w: M.World, k: nat, c: Cookie, header: string,
                             due: bool, admits: set<string>)
    requires Matches(cfg, routes, db, w, k, c, header) && Ruled(w, k, c.id, header, admits)
    requires due <==> OutOfDate(cfg, 0, c.id, w.clock)
    ensures var (a, confirms) := V.Verified(cfg, routes, db, w.cut, w.until, [Some(c)], header, w.clock, true);
            var end := M.Run(w, Steps(w, k, due, admits));
            && |end.decisions| == |w.decisions| + 1
            && (end.decisions[|w.decisions|].granted <==> a.Granted?)
            && (if CookieOf(a).None? then end.tickets == w.tickets
                else
                  var n := CookieOf(a).value.id;
                  end.tickets == w.tickets + [M.Ticket(n.email, n.groups, n.iat, M.Newest(w))])
            && end.until == if confirms then Confirmed(w.until, (c.id.email, c.id.groups), w.clock) else w.until
  {
    StepsComeTo(w, k, due, admits);
    VerifyComesTo(cfg, routes, db, w, k, c, header);
  }

  // ---------- sign-ins and changes ----------

  lemma SignInSteps(w: M.World, email: string)
    ensures M.Step(M.Step(w, M.StartSignIn(email)), M.FinishSignIn(|w.threads|)).tickets
            == w.tickets + [M.Ticket(email, M.GroupsIn(w, M.Newest(w), email), w.clock, M.Newest(w))]
  {
    var w1 := M.Step(w, M.StartSignIn(email));
    assert w1.threads[|w.threads|].stage == M.SigningIn && w1.threads[|w.threads|].now == w.clock;
    assert w1.db == w.db && w1.tickets == w.tickets;
  }

  lemma SignedInNow(cfg: V.Config, routes: V.Routes, db: V.Db, email: string, role: string, remember: bool,
                    verified: bool,
                    pk: int, now: int)
    ensures var id := V.SignedIn(cfg, routes, db, email, role, remember, verified, pk, now).id;
            id.email == email && id.iat == now
  {
  }

  /** A sign-in alone mints what the gateway would: its groups as the database has them,
      dated when it began. */
  lemma AloneSignsIn(cfg: V.Config, routes: V.Routes, db: V.Db, w: M.World, email: string, role: string, remember: bool,
                     verified: bool, pk: int)
    requires V.SignedIn(cfg, routes, db, email, role, remember, verified, pk, w.clock).id.groups
             == M.GroupsIn(w, M.Newest(w), email)
    ensures var id := V.SignedIn(cfg, routes, db, email, role, remember, verified, pk, w.clock).id;
            M.Step(M.Step(w, M.StartSignIn(email)), M.FinishSignIn(|w.threads|)).tickets
            == w.tickets + [M.Ticket(id.email, id.groups, id.iat, M.Newest(w))]
  {
    SignInSteps(w, email);
    SignedInNow(cfg, routes, db, email, role, remember, verified, pk, w.clock);
  }

  /** After the change: the groups written, nothing remembered, and the cutoffs as marking
      the time leaves them, whether or not the store takes it. */
  ghost predicate ChangedTo(w: M.World, end: M.World, groups: M.Version, ok: bool) {
    && end.db == w.db + [groups] && end.until == map[] && end.gen == w.gen + 1
    && end.cut == Marked(w.cut, w.clock, ok) && end.tickets == w.tickets && end.decisions == w.decisions
  }

  function MarkSteps(w: M.World, c: nat, ok: bool): M.World {
    M.Step(M.Step(M.Step(w, M.Forget(c)), M.Record(c, ok)), M.Mark(c))
  }

  lemma MarkEnds(w: M.World, c: nat, ok: bool)
    requires c < |w.changes| && w.changes[c].Stamped?
    ensures var end := MarkSteps(w, c, ok);
            && end.db == w.db && end.until == map[] && end.gen == w.gen + 1
            && end.cut == Marked(w.cut, w.changes[c].at, ok) && end.tickets == w.tickets && end.decisions == w.decisions
            && end.changes == w.changes[c := M.Marked(w.changes[c].version, w.changes[c].at)]
  {
    var h := w.changes[c];
    var w1 := M.Step(w, M.Forget(c));
    assert w1.changes[c] == M.Forgot(h.version, h.at, h.admin);
    var w2 := M.Step(w1, M.Record(c, ok));
    assert w2.changes[c].Recorded? && w2.changes[c].at == h.at && w2.changes[c].version == h.version;
    assert w2.cut.groupsChangedAt == w.cut.groupsChangedAt;
    assert w.changes[c := w1.changes[c]][c := w2.changes[c]][c := M.Marked(h.version, h.at)]
        == w.changes[c := M.Marked(h.version, h.at)];
  }

  lemma WrittenThenStamped(w: M.World, groups: M.Version)
    ensures var w2, n := M.Step(M.Step(w, M.Write(groups)), M.Stamp(|w.changes|)), |w.db|;
            w2 == w.(db := w.db + [groups], changes := w.changes + [M.Stamped(n, w.clock, true)])
  {
    var w1 := M.Step(w, M.Write(groups));
    assert w1.changes[|w.changes|] == M.Written(|w.db|);
    assert (w.changes + [M.Written(|w.db|)])[|w.changes| := M.Stamped(|w.db|, w.clock, true)]
        == w.changes + [M.Stamped(|w.db|, w.clock, true)];
  }

  lemma SyncedThenWritten(w: M.World, groups: M.Version)
    ensures var w2, n := M.Step(M.Step(w, M.BeginSync), M.SyncWrite(|w.changes|, groups)), |w.db|;
            w2 == w.(db := w.db + [groups], changes := w.changes + [M.Stamped(n, w.clock, false)])
  {
    var w1 := M.Step(w, M.BeginSync);
    assert w1.changes[|w.changes|] == M.Syncing(w.clock);
    assert (w.changes + [M.Syncing(w.clock)])[|w.changes| := M.Stamped(|w.db|, w.clock, false)]
        == w.changes + [M.Stamped(|w.db|, w.clock, false)];
  }

  /** An administrator's change alone, and a feed's. */
  lemma AloneMarks(w: M.World, groups: M.Version, ok: bool)
    ensures var c := |w.changes|;
            && ChangedTo(w, MarkSteps(M.Step(M.Step(w, M.Write(groups)), M.Stamp(c)), c, ok), groups, ok)
            && ChangedTo(w, MarkSteps(M.Step(M.Step(w, M.BeginSync), M.SyncWrite(c, groups)), c, ok), groups, ok)
  {
    var c, n := |w.changes|, |w.db|;
    WrittenThenStamped(w, groups);
    MarkEnds(w.(db := w.db + [groups], changes := w.changes + [M.Stamped(n, w.clock, true)]), c, ok);
    SyncedThenWritten(w, groups);
    MarkEnds(w.(db := w.db + [groups], changes := w.changes + [M.Stamped(n, w.clock, false)]), c, ok);
  }
}
