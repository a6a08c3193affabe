/**
 Requests racing membership changes: the order of steps in
 internal/server/session_cutoffs.go (markGroupsChanged, groupsStale),
 internal/server/group_recheck.go and internal/server/handlers.go
 (handleVerify), against an administrator's change (internal/server/admin.go)
 and a feed's (internal/server/group_feeds.go).

 Each database read or write, each clock reading and each locked section is one
 step, and steps of different requests and changes interleave freely. The
 database is its history: version n is the groups of every person after n
 changes. Clock readings are whole Unix seconds and do not go back.
 */
module Membership {
  import opened Prelude
  import opened Sessions
  import opened Recheck

  type Version = map<string, string>

  /** A minted session: its cookie's Iat and groups, and the version its groups were read from. */
  datatype Ticket = Ticket(email: string, groups: string, iat: int, seen: nat)

  /** A sign-in or a request at work, numbered in the order they began. `owed` and
      `forgotten` are the world's when it began. */
  datatype Stage =
    | SigningIn
    | Began(k: nat)
    | Renewing(k: nat)
    | Refused(k: nat)
    | Missed(k: nat)
    | Asking(k: nat, gen: nat)
    | Queried(k: nat, gen: nat, seen: nat)
    | Done

  datatype Thread = Thread(id: nat, email: string, now: int, owed: nat, forgotten: nat, stage: Stage)

  /** A membership change at work. A feed's reads the clock before it writes. An
      administrator's writes first. `kept`: the store recorded its mark while every
      session honoured it. */
  datatype Change =
    | Syncing(at: int)
    | Written(version: nat)
    | Stamped(version: nat, at: int, admin: bool)
    | Forgot(version: nat, at: int, admin: bool)
    | Recorded(version: nat, at: int, admin: bool, kept: bool)
    | Marked(version: nat, at: int)

  /** A request's decision by group, and the version it rests on. */
  datatype Decision = Decision(id: nat, granted: bool, owed: nat, forgotten: nat, basis: nat)

  datatype World = World(
    clock: int,
    db: seq<Version>,
    cut: Cutoffs,
    until: Memory, readAt: map<Snapshot, nat>, gen: nat,
    tickets: seq<Ticket>, threads: seq<Thread>, changes: seq<Change>, decisions: seq<Decision>,
    owed: nat, storedOwed: nat, forgotten: nat, nextId: nat)

  datatype Action =
    | Tick(to: int)
    | StartSignIn(email: string)
    | StartRequest(k: nat)
    | FinishSignIn(t: nat)
    | Check(t: nat, due: bool, admits: set<string>)
    | Renew(t: nat, admits: set<string>)
    | Recall(t: nat)
    | Capture(t: nat)
    | Query(t: nat, ok: bool)
    | Settle(t: nat, admits: set<string>)
    | Write(groups: Version)
    | BeginSync
    | SyncWrite(c: nat, groups: Version)
    | Stamp(c: nat)
    | Forget(c: nat)
    | Record(c: nat, ok: bool)
    | Mark(c: nat)
    | Restart

  function Newest(w: World): nat { if w.db == [] then 0 else |w.db| - 1 }

  function GroupsIn(w: World, version: nat, email: string): string {
    if version < |w.db| && email in w.db[version] then w.db[version][email] else ""
  }

  function AsIdentity(t: Ticket): Identity { Identity(t.email, t.groups, t.iat, NORMAL, 0, false, 0, t.iat, 0, 0) }

  predicate Stale(w: World, t: Ticket) { GroupsStale(w.cut.groupsChangedAt, AsIdentity(t)) }

  predicate TicketHonours(t: Ticket, version: nat, at: int) { at < t.iat ==> version <= t.seen }

  /** A request that has read other groups than its session carries, and has still
      to mint a session from them. */
  predicate Mints(w: World, th: Thread) {
    th.stage.Queried?
      && (th.stage.k < |w.tickets| ==> GroupsIn(w, th.stage.seen, th.email) != w.tickets[th.stage.k].groups)
  }

  predicate ThreadHonours(w: World, th: Thread, version: nat, at: int) {
    Mints(w, th) && at < th.now ==> version <= th.stage.seen
  }

  /** Every session minted, or about to be, under a clock reading after `at` saw the change. */
  predicate Honours(w: World, version: nat, at: int) {
    && (forall i :: 0 <= i < |w.tickets| ==> TicketHonours(w.tickets[i], version, at))
    && (forall i :: 0 <= i < |w.threads| ==> ThreadHonours(w, w.threads[i], version, at))
  }

  // ---------- steps of a request ----------

  function At(w: World, t: nat, stage: Stage): seq<Thread>
    requires t < |w.threads|
  {
    w.threads[t := w.threads[t].(stage := stage)]
  }

  function Concluded(w: World, t: nat, granted: bool, basis: nat): World
    requires t < |w.threads|
  {
    var th := w.threads[t];
    w.(threads := At(w, t, Done), decisions := w.decisions + [Decision(th.id, granted, th.owed, th.forgotten, basis)])
  }

  /** A session minted from one version's groups, dated when its request began. */
  function Minted(w: World, t: nat, seen: nat): World
    requires t < |w.threads|
  {
    var th := w.threads[t];
    w.(tickets := w.tickets + [Ticket(th.email, GroupsIn(w, seen, th.email), th.now, seen)])
  }

  function Checked(w: World, t: nat, k: nat, due: bool, admits: set<string>): World
    requires t < |w.threads| && k < |w.tickets|
  {
    var ticket := w.tickets[k];
    if due || Stale(w, ticket) then w.(threads := At(w, t, Renewing(k)))
    else if ticket.groups in admits then Concluded(w, t, true, ticket.seen)
    else w.(threads := At(w, t, Refused(k)))
  }

  function Renewed(w: World, t: nat, seen: nat, admits: set<string>): World
    requires t < |w.threads|
  {
    Concluded(Minted(w, t, seen), t, GroupsIn(w, seen, w.threads[t].email) in admits, seen)
  }

  function Recalled(w: World, t: nat, k: nat): World
    requires t < |w.threads| && k < |w.tickets|
  {
    var snapshot := (w.tickets[k].email, w.tickets[k].groups);
    if Remembers(w.until, snapshot, w.threads[t].now) then
      Concluded(w, t, false, if snapshot in w.readAt then w.readAt[snapshot] else 0)
    else w.(threads := At(w, t, Missed(k)))
  }

  function Settled(w: World, t: nat, k: nat, gen: nat, seen: nat, admits: set<string>): World
    requires t < |w.threads| && k < |w.tickets|
  {
    var ticket := w.tickets[k];
    var snapshot := (ticket.email, ticket.groups);
    if GroupsIn(w, seen, w.threads[t].email) != ticket.groups then Renewed(w, t, seen, admits)
    else if gen != w.gen then Concluded(w, t, false, seen)
    else Concluded(w, t, false, seen).(until := Confirmed(w.until, snapshot, w.threads[t].now),
                                       readAt := w.readAt[snapshot := seen])
  }

  function RequestStep(w: World, a: Action): World {
    match a
    case StartSignIn(email) => w.(threads := w.threads
                                  + [Thread(w.nextId, email, w.clock, w.owed, w.forgotten, SigningIn)],
                                    nextId := w.nextId + 1)
    case StartRequest(k) =>
      if k < |w.tickets| then
        w.(threads := w.threads + [Thread(w.nextId, w.tickets[k].email, w.clock, w.owed, w.forgotten, Began(k))],
           nextId := w.nextId + 1)
      else w
    case FinishSignIn(t) =>
      if t < |w.threads| && w.threads[t].stage == SigningIn then Minted(w, t, Newest(w)).(threads := At(w, t, Done))
      else w
    case Check(t, due, admits) =>
      if t < |w.threads| && w.threads[t].stage.Began? && w.threads[t].stage.k < |w.tickets| then
        Checked(w, t, w.threads[t].stage.k, due, admits)
      else w
    case Renew(t, admits) =>
      if t < |w.threads| && w.threads[t].stage.Renewing? then Renewed(w, t, Newest(w), admits) else w
    case Recall(t) =>
      if t < |w.threads| && w.threads[t].stage.Refused? && w.threads[t].stage.k < |w.tickets| then
        Recalled(w, t, w.threads[t].stage.k)
      else w
    case Capture(t) =>
      if t < |w.threads| && w.threads[t].stage.Missed? then w.(threads := At(w, t, Asking(w.threads[t].stage.k, w.gen)))
      else w
    case Query(t, ok) =>
      if t < |w.threads| && w.threads[t].stage.Asking? then
        var s := w.threads[t].stage;
        w.(threads := At(w, t, if ok then Queried(s.k, s.gen, Newest(w)) else Done))
      else w
    case Settle(t, admits) =>
      if t < |w.threads| && w.threads[t].stage.Queried? && w.threads[t].stage.k < |w.tickets| then
        var s := w.threads[t].stage;
        Settled(w, t, s.k, s.gen, s.seen, admits)
      else w
    case _ => w
  }

  // ---------- steps of a change ----------

  function ChangeStep(w: World, a: Action): World {
    match a
    case Write(groups) => w.(db := w.db + [groups], changes := w.changes + [Written(|w.db|)])
    case BeginSync => w.(changes := w.changes + [Syncing(w.clock)])
    case SyncWrite(c, groups) =>
      if c < |w.changes| && w.changes[c].Syncing? then
        var at := w.changes[c].at;
        w.(db := w.db + [groups], changes := w.changes[c := Stamped(|w.db|, at, false)])
      else w
    case Stamp(c) =>
      if c < |w.changes| && w.changes[c].Written? then
        var v := w.changes[c].version;
        w.(changes := w.changes[c := Stamped(v, w.clock, true)])
      else w
    case Forget(c) =>
      if c < |w.changes| && w.changes[c].Stamped? then
        var h := w.changes[c];
        w.(until := map[], readAt := map[], gen := w.gen + 1, forgotten := Max(w.forgotten, h.version),
           changes := w.changes[c := Forgot(h.version, h.at, h.admin)])
      else w
    case Record(c, ok) =>
      if c < |w.changes| && w.changes[c].Forgot? then
        var h := w.changes[c];
        var kept := ok && Honours(w, h.version, h.at);
        w.(cut := if ok then w.cut.(stored := Upserted(w.cut.stored, Groups, h.at)) else w.cut,
           storedOwed := if kept then Max(w.storedOwed, h.version) else w.storedOwed,
           changes := w.changes[c := Recorded(h.version, h.at, h.admin, kept)])
      else w
    case Mark(c) =>
      if c < |w.changes| && w.changes[c].Recorded? then
        var h := w.changes[c];
        w.(cut := w.cut.(groupsChangedAt := Max(w.cut.groupsChangedAt, h.at)),
           owed := if Honours(w, h.version, h.at) then Max(w.owed, h.version) else w.owed,
           changes := w.changes[c := Marked(h.version, h.at)])
      else w
    case Tick(to) => if w.clock <= to then w.(clock := to) else w
    case Restart =>
      w.(cut := Loaded(w.cut.stored), until := map[], readAt := map[], gen := 0, threads := [], changes := [],
         owed := w.storedOwed)
    case _ => w
  }

  predicate OfChange(a: Action) {
    a.Write? || a.BeginSync? || a.SyncWrite? || a.Stamp? || a.Forget? || a.Record? || a.Mark? || a.Tick? || a.Restart?
  }

  function Step(w: World, a: Action): World { if OfChange(a) then ChangeStep(w, a) else RequestStep(w, a) }

  function Run(w: World, actions: seq<Action>): World
    decreases |actions|
  {
    if actions == [] then w else Run(Step(w, actions[0]), actions[1..])
  }

  // ---------- what every step keeps ----------

  /** Sessions, requests and changes carry clock readings and versions that exist. */
  ghost predicate Dated(w: World) {
    && 0 < w.clock && w.db != []
    && (forall i :: 0 <= i < |w.tickets| ==> 0 < w.tickets[i].iat <= w.clock && w.tickets[i].seen < |w.db|)
    && (forall i :: 0 <= i < |w.threads| ==> ThreadDated(w, w.threads[i]))
    && w.owed <= w.forgotten && w.storedOwed <= w.forgotten && w.forgotten < |w.db|
  }

  predicate ThreadDated(w: World, th: Thread) {
    && 0 < th.now <= w.clock && th.owed <= w.owed && th.forgotten <= w.forgotten
    && match th.stage
       case SigningIn => true
       case Done => true
       case Began(k) => k < |w.tickets|
       case Renewing(k) => k < |w.tickets|
       case Refused(k) => k < |w.tickets|
       case Missed(k) => k < |w.tickets|
       case Asking(k, _) => k < |w.tickets|
       case Queried(k, _, _) => k < |w.tickets|
  }

  ghost predicate ChangeSound(c: Change, w: World) {
    match c
    case Syncing(at) => 0 < at <= w.clock
    case Written(v) => v < |w.db|
    case Stamped(v, at, admin) => v < |w.db| && 0 < at <= w.clock && (admin ==> Honours(w, v, at))
    case Forgot(v, at, admin) => v <= w.forgotten && 0 < at && (admin ==> Honours(w, v, at))
    case Recorded(v, at, admin, kept) =>
      v <= w.forgotten && 0 < at && (admin ==> Honours(w, v, at)) && (kept ==> v <= w.storedOwed)
    case Marked(_, _) => true
  }

  ghost predicate ChangesSound(w: World) { forall c :: 0 <= c < |w.changes| ==> ChangeSound(w.changes[c], w) }

  function StoredMark(cut: Cutoffs): int { if Groups in cut.stored then cut.stored[Groups] else 0 }

  /** A session dated after the last mark saw every change that was owed to it. */
  ghost predicate MarksSound(w: World) {
    && Honours(w, w.owed, w.cut.groupsChangedAt) && (0 < w.owed ==> 0 < w.cut.groupsChangedAt)
    && Honours(w, w.storedOwed, StoredMark(w.cut)) && (0 < w.storedOwed ==> 0 < StoredMark(w.cut))
  }

  /** What is remembered, or is about to be, was read after every change forgotten for. */
  ghost predicate MemorySound(w: World) {
    && w.until.Keys <= w.readAt.Keys
    && (forall s :: s in w.readAt ==> w.forgotten <= w.readAt[s])
    && (forall i :: 0 <= i < |w.threads| ==> QuerySound(w.threads[i], w))
  }

  ghost predicate QuerySound(th: Thread, w: World) {
    && (th.stage.Asking? ==> th.stage.gen <= w.gen)
    && (th.stage.Queried? ==>
          && th.stage.gen <= w.gen && th.stage.seen < |w.db|
          && th.owed <= th.stage.seen && th.forgotten <= th.stage.seen
          && (th.stage.gen == w.gen ==> w.forgotten <= th.stage.seen))
  }

  /** Every group decision rests on groups read after the changes its request was owed. */
  ghost predicate DecisionSound(d: Decision) { if d.granted then d.owed <= d.basis else d.forgotten <= d.basis }

  ghost predicate DecisionsSound(w: World) { forall i :: 0 <= i < |w.decisions| ==> DecisionSound(w.decisions[i]) }

  ghost predicate Sound(w: World) {
    Dated(w) && ChangesSound(w) && MarksSound(w) && MemorySound(w) && DecisionsSound(w)
  }

  // ---------- the shape of a request's steps ----------

  /** A request's steps leave the clock, the database, the marks and the changes alone. */
  predicate SameBut(w: World, w': World) {
    && w'.clock == w.clock && w'.db == w.db && w'.cut == w.cut && w'.gen == w.gen && w'.changes == w.changes
    && w'.owed == w.owed && w'.storedOwed == w.storedOwed && w'.forgotten == w.forgotten
  }

  predicate StageMoves(w: World, s: Stage, s': Stage) {
    match s'
    case Done => true
    case Renewing(k) => s == Began(k)
    case Refused(k) => s == Began(k)
    case Missed(k) => s == Refused(k)
    case Asking(k, gen) => s == Missed(k) && gen == w.gen
    case Queried(k, gen, seen) => s == Asking(k, gen) && seen == Newest(w)
    case _ => false
  }

  /** One more session, from the newest groups or from those the request has read. */
  predicate MintsOne(w: World, w': World, th: Thread) {
    && |w'.tickets| == |w.tickets| + 1 && w'.tickets[..|w.tickets|] == w.tickets
    && var ticket := w'.tickets[|w.tickets|];
       && ticket.iat == th.now
       && (ticket.seen == Newest(w) || (Mints(w, th) && ticket.seen == th.stage.seen))
  }

  /** What a request may decide on: the newest groups, those it has read, those of a
      session that is not stale, or, to refuse, those remembered. */
  predicate Rests(w: World, th: Thread, d: Decision) {
    || d.basis == Newest(w)
    || (th.stage.Queried? && d.basis == th.stage.seen)
    || (d.granted && th.stage.Began? && th.stage.k < |w.tickets|
        && !Stale(w, w.tickets[th.stage.k]) && d.basis == w.tickets[th.stage.k].seen)
    || (!d.granted && th.stage.Refused? && th.stage.k < |w.tickets|
        && (var snapshot := (w.tickets[th.stage.k].email, w.tickets[th.stage.k].groups);
            snapshot in w.until && (snapshot in w.readAt ==> d.basis == w.readAt[snapshot])))
  }

  predicate DecidesOne(w: World, w': World, th: Thread) {
    && |w'.decisions| == |w.decisions| + 1 && w'.decisions[..|w.decisions|] == w.decisions
    && var d := w'.decisions[|w.decisions|];
       d.id == th.id && d.owed == th.owed && d.forgotten == th.forgotten && Rests(w, th, d)
  }

  /** The memory stays, or gains what the request has just read, if nothing was forgotten since. */
  ghost predicate MemoryMoves(w: World, w': World, th: Thread) {
    || (w'.until == w.until && w'.readAt == w.readAt)
    || (&& th.stage.Queried? && th.stage.gen == w.gen && w'.until.Keys <= w'.readAt.Keys + w.until.Keys
        && w.readAt.Keys <= w'.readAt.Keys
        && forall s :: s in w'.readAt ==>
          w'.readAt[s] == th.stage.seen || (s in w.readAt && w'.readAt[s] == w.readAt[s]))
  }

  /** One step of request t. */
  ghost predicate Moves(w: World, w': World, t: nat) {
    && t < |w.threads| == |w'.threads|
    && var th := w.threads[t];
       && SameBut(w, w') && w'.nextId == w.nextId
       && w'.threads == w.threads[t := th.(stage := w'.threads[t].stage)]
       && StageMoves(w, th.stage, w'.threads[t].stage)
       && (w'.tickets == w.tickets || MintsOne(w, w', th))
       && (w'.decisions == w.decisions || DecidesOne(w, w', th))
       && MemoryMoves(w, w', th)
  }

  predicate Begins(w: World, th: Thread) {
    && th.id == w.nextId && th.now == w.clock && th.owed == w.owed && th.forgotten == w.forgotten
    && (th.stage == SigningIn || (th.stage.Began? && th.stage.k < |w.tickets|))
  }

  /** A new request or sign-in. */
  predicate Starts(w: World, w': World) {
    && SameBut(w, w') && w'.nextId == w.nextId + 1
    && w'.tickets == w.tickets && w'.decisions == w.decisions && w'.until == w.until && w'.readAt == w.readAt
    && |w'.threads| == |w.threads| + 1 && w'.threads[..|w.threads|] == w.threads && Begins(w, w'.threads[|w.threads|])
  }

  function Actor(a: Action): nat {
    match a
    case FinishSignIn(t) => t
    case Check(t, _, _) => t
    case Renew(t, _) => t
    case Recall(t) => t
    case Capture(t) => t
    case Query(t, _) => t
    case Settle(t, _) => t
    case _ => 0
  }

  ghost predicate Works(w: World, w': World, t: nat) { w' == w || Starts(w, w') || Moves(w, w', t) }

  lemma RenewedMoves(w: World, t: nat, seen: nat, admits: set<string>)
    requires t < |w.threads| && (seen == Newest(w) || (Mints(w, w.threads[t]) && seen == w.threads[t].stage.seen))
    ensures Moves(w, Renewed(w, t, seen, admits), t)
  {
  }

  lemma ConcludedMoves(w: World, t: nat, granted: bool, basis: nat)
    requires t < |w.threads|
             && Rests(w, w.threads[t],
                      Decision(w.threads[t].id, granted, w.threads[t].owed, w.threads[t].forgotten, basis))
    ensures Moves(w, Concluded(w, t, granted, basis), t)
  {
  }

  lemma SettleMoves(w: World, a: Action)
    requires a.Settle?
    ensures Works(w, RequestStep(w, a), a.t)
  {
    if a.t < |w.threads| && w.threads[a.t].stage.Queried? && w.threads[a.t].stage.k < |w.tickets| {
      var s := w.threads[a.t].stage;
      if Mints(w, w.threads[a.t]) {
        RenewedMoves(w, a.t, s.seen, a.admits);
      } else {
        ConcludedMoves(w, a.t, false, s.seen);
        assert Moves(w, Settled(w, a.t, s.k, s.gen, s.seen, a.admits), a.t);
      }
    }
  }

  lemma CheckMoves(w: World, a: Action)
    requires a.Check? || a.Renew? || a.Recall?
    ensures Works(w, RequestStep(w, a), a.t)
  {
  }

  lemma AskMoves(w: World, a: Action)
    requires a.FinishSignIn? || a.Capture? || a.Query?
    ensures Works(w, RequestStep(w, a), a.t)
  {
  }

  lemma RequestWorks(w: World, a: Action)
    ensures Works(w, RequestStep(w, a), Actor(a))
  {
    if a.Settle? {
      SettleMoves(w, a);
    } else if a.Check? || a.Renew? || a.Recall? {
      CheckMoves(w, a);
    } else if a.FinishSignIn? || a.Capture? || a.Query? {
      AskMoves(w, a);
    }
  }

  // ---------- a request's steps keep it ----------

  lemma WorkKeepsHonours(w: World, w': World, t: nat, version: nat, at: int)
    requires Works(w, w', t) && Honours(w, version, at) && version <= Newest(w)
    ensures Honours(w', version, at)
  {
    forall i | 0 <= i < |w'.tickets| ensures TicketHonours(w'.tickets[i], version, at) {
      if i < |w.tickets| {
        assert w'.tickets[i] == w.tickets[i];
      }
    }
    forall i | 0 <= i < |w'.threads| && Mints(w', w'.threads[i]) ensures ThreadHonours(w', w'.threads[i], version, at) {
      if i < |w.threads| && w'.threads[i] == w.threads[i] {
        MintsStill(w, w', w.threads[i]);
      }
    }
  }

  /** A request that would mint a session would have before. */
  lemma MintsStill(w: World, w': World, th: Thread)
    requires |w.tickets| <= |w'.tickets| && w'.tickets[..|w.tickets|] == w.tickets && w.db <= w'.db
    requires th.stage.Queried? ==> th.stage.seen < |w.db| || w.db == w'.db
    requires Mints(w', th)
    ensures Mints(w, th)
  {
    if th.stage.k < |w.tickets| {
      assert w'.tickets[th.stage.k] == w.tickets[th.stage.k];
    }
  }

  lemma WorkKeepsDated(w: World, w': World, t: nat)
    requires Works(w, w', t) && Dated(w) && MemorySound(w)
    ensures Dated(w')
  {
    forall i | 0 <= i < |w'.tickets| ensures 0 < w'.tickets[i].iat <= w'.clock && w'.tickets[i].seen < |w'.db| {
      if i < |w.tickets| {
        assert w'.tickets[i] == w.tickets[i];
      } else {
        assert ThreadDated(w, w.threads[t]) && QuerySound(w.threads[t], w);
      }
    }
    forall i | 0 <= i < |w'.threads| ensures ThreadDated(w', w'.threads[i]) {
      if i < |w.threads| {
        assert ThreadDated(w, w.threads[i]);
      }
    }
  }

  lemma WorkKeepsMemory(w: World, w': World, t: nat)
    requires Works(w, w', t) && Dated(w) && MemorySound(w)
    ensures MemorySound(w')
  {
    if Moves(w, w', t) {
      assert QuerySound(w.threads[t], w) && ThreadDated(w, w.threads[t]);
    }
    forall i | 0 <= i < |w'.threads| ensures QuerySound(w'.threads[i], w') {
      if i < |w.threads| {
        assert QuerySound(w.threads[i], w);
      }
    }
  }

  lemma WorkKeepsDecisions(w: World, w': World, t: nat)
    requires Works(w, w', t) && Dated(w) && MarksSound(w) && MemorySound(w) && DecisionsSound(w)
    ensures DecisionsSound(w')
  {
    forall i | 0 <= i < |w'.decisions| ensures DecisionSound(w'.decisions[i]) {
      if i < |w.decisions| {
        assert w'.decisions[i] == w.decisions[i];
      } else {
        RestingIsSound(w, w.threads[t], w'.decisions[i]);
      }
    }
  }

  lemma RestingIsSound(w: World, th: Thread, d: Decision)
    requires Dated(w) && MarksSound(w) && MemorySound(w) && ThreadDated(w, th) && QuerySound(th, w)
    requires d.owed == th.owed && d.forgotten == th.forgotten && Rests(w, th, d)
    ensures DecisionSound(d)
  {
    if th.stage.Began? {
      assert TicketHonours(w.tickets[th.stage.k], w.owed, w.cut.groupsChangedAt);
    }
  }

  lemma ChangeCarries(h: Change, w: World, w': World)
    requires ChangeSound(h, w) && w'.clock == w.clock && w'.db == w.db && w'.forgotten == w.forgotten
             && w'.storedOwed == w.storedOwed
    requires (h.Stamped? || h.Forgot? || h.Recorded?) && h.admin ==> Honours(w', h.version, h.at)
    ensures ChangeSound(h, w')
  {
  }

  lemma WorkKeepsChanges(w: World, w': World, t: nat)
    requires Works(w, w', t) && Dated(w) && ChangesSound(w)
    ensures ChangesSound(w')
  {
    forall c | 0 <= c < |w'.changes| ensures ChangeSound(w'.changes[c], w') {
      var h := w.changes[c];
      assert ChangeSound(h, w);
      if (h.Stamped? || h.Forgot? || h.Recorded?) && h.admin {
        WorkKeepsHonours(w, w', t, h.version, h.at);
      }
      ChangeCarries(h, w, w');
    }
  }

  lemma WorkKeepsSound(w: World, w': World, t: nat)
    requires Works(w, w', t) && Sound(w)
    ensures Sound(w')
  {
    WorkKeepsDated(w, w', t);
    WorkKeepsChanges(w, w', t);
    WorkKeepsHonours(w, w', t, w.owed, w.cut.groupsChangedAt);
    WorkKeepsHonours(w, w', t, w.storedOwed, StoredMark(w.cut));
    WorkKeepsMemory(w, w', t);
    WorkKeepsDecisions(w, w', t);
  }

  // ---------- a change's steps keep it ----------

  /** A change's steps leave sessions and decisions alone; the database only grows. */
  predicate Frames(w: World, w': World) {
    && w'.tickets == w.tickets && w'.decisions == w.decisions && w'.nextId == w.nextId
    && (w'.threads == w.threads || w'.threads == [])
    && w.db <= w'.db && w.clock <= w'.clock && w.forgotten <= w'.forgotten && w.storedOwed <= w'.storedOwed
  }

  lemma ChangeFrames(w: World, a: Action)
    requires OfChange(a)
    ensures Frames(w, ChangeStep(w, a))
  {
  }

  lemma FramesKeepHonours(w: World, w': World, version: nat, at: int)
    requires Frames(w, w') && Honours(w, version, at) && MemorySound(w)
    ensures Honours(w', version, at)
  {
    forall i | 0 <= i < |w'.threads| && Mints(w', w'.threads[i]) ensures ThreadHonours(w', w'.threads[i], version, at) {
      assert QuerySound(w.threads[i], w);
      MintsStill(w, w', w.threads[i]);
    }
  }

  /** A change that a step leaves where it was is as sound as before. */
  lemma FramesKeepChange(w: World, w': World, h: Change)
    requires Frames(w, w') && ChangeSound(h, w) && MemorySound(w)
    ensures ChangeSound(h, w')
  {
    if (h.Stamped? || h.Forgot? || h.Recorded?) && h.admin {
      FramesKeepHonours(w, w', h.version, h.at);
    }
  }

  /** The change a step moves on is sound where it now stands. */
  lemma MovedChangeSound(w: World, a: Action, c: nat)
    requires Sound(w) && c < |w.changes| && (a == Stamp(c) || a == Forget(c) || a.SyncWrite? || a == Mark(c))
    requires a.SyncWrite? ==> a.c == c
    ensures var w' := ChangeStep(w, a); c < |w'.changes| && ChangeSound(w'.changes[c], w')
  {
    var w' := ChangeStep(w, a);
    assert ChangeSound(w.changes[c], w);
    ChangeFrames(w, a);
    if a.Stamp? && w.changes[c].Written? {
      assert Honours(w, w.changes[c].version, w.clock);
      FramesKeepHonours(w, w', w.changes[c].version, w.clock);
    } else if a.Forget? && w.changes[c].Stamped? && w.changes[c].admin {
      FramesKeepHonours(w, w', w.changes[c].version, w.changes[c].at);
    }
  }

  lemma RecordedChangeSound(w: World, c: nat, ok: bool)
    requires Sound(w) && c < |w.changes|
    ensures var w' := ChangeStep(w, Record(c, ok)); c < |w'.changes| && ChangeSound(w'.changes[c], w')
  {
    var w' := ChangeStep(w, Record(c, ok));
    assert ChangeSound(w.changes[c], w);
    ChangeFrames(w, Record(c, ok));
    if w.changes[c].Forgot? && w.changes[c].admin {
      FramesKeepHonours(w, w', w.changes[c].version, w.changes[c].at);
    }
  }

  /** Only the change a step is about moves; a new one is last. */
  lemma OtherChanges(w: World, a: Action)
    requires OfChange(a)
    ensures var w' := ChangeStep(w, a);
            && (forall c :: 0 <= c < |w'.changes| && c < |w.changes| && !(Touches(a, c)) ==>
                  w'.changes[c] == w.changes[c])
            && (forall c :: |w.changes| <= c < |w'.changes| ==>
                  w'.changes[c] == Written(|w.db|) || w'.changes[c] == Syncing(w.clock))
            && (forall c :: |w.changes| <= c < |w'.changes| && w'.changes[c].Written? ==> |w.db| < |w'.db|)
  {
  }

  predicate Touches(a: Action, c: nat) {
    match a
    case SyncWrite(d, _) => d == c
    case Stamp(d) => d == c
    case Forget(d) => d == c
    case Record(d, _) => d == c
    case Mark(d) => d == c
    case _ => false
  }

  lemma ChangeKeepsChanges(w: World, a: Action, w': World)
    requires Sound(w) && OfChange(a) && w' == ChangeStep(w, a)
    ensures ChangesSound(w')
  {
    ChangeFrames(w, a);
    OtherChanges(w, a);
    forall c | 0 <= c < |w'.changes| ensures ChangeSound(w'.changes[c], w') {
      if c < |w.changes| && Touches(a, c) {
        if a.Record? {
          RecordedChangeSound(w, c, a.ok);
        } else {
          MovedChangeSound(w, a, c);
        }
      } else if c < |w.changes| {
        FramesKeepChange(w, w', w.changes[c]);
      }
    }
  }

  lemma ChangeKeepsDated(w: World, a: Action)
    requires Sound(w) && OfChange(a)
    ensures Dated(ChangeStep(w, a))
  {
    var w' := ChangeStep(w, a);
    forall i | 0 <= i < |w'.threads| ensures ThreadDated(w', w'.threads[i]) {
      assert ThreadDated(w, w.threads[i]);
    }
    if (a.Forget? || a.Record? || a.Mark?) && a.c < |w.changes| {
      assert ChangeSound(w.changes[a.c], w);
    }
  }

  lemma MarkKeepsMarks(w: World, a: Action)
    requires Sound(w) && (a.Record? || a.Mark?) && a.c < |w.changes|
    requires if a.Record? then w.changes[a.c].Forgot? else w.changes[a.c].Recorded?
    ensures MarksSound(ChangeStep(w, a))
  {
    var w', h := ChangeStep(w, a), w.changes[a.c];
    ChangeFrames(w, a);
    assert ChangeSound(h, w);
    FramesKeepHonours(w, w', w.owed, w.cut.groupsChangedAt);
    FramesKeepHonours(w, w', w.storedOwed, StoredMark(w.cut));
    if Honours(w, h.version, h.at) {
      FramesKeepHonours(w, w', h.version, h.at);
    }
  }

  lemma ChangeKeepsMarks(w: World, a: Action)
    requires Sound(w) && OfChange(a)
    ensures MarksSound(ChangeStep(w, a))
  {
    if a.Record? && a.c < |w.changes| && w.changes[a.c].Forgot? {
      MarkKeepsMarks(w, a);
    } else if a.Mark? && a.c < |w.changes| && w.changes[a.c].Recorded? {
      MarkKeepsMarks(w, a);
    } else {
      ChangeFrames(w, a);
      FramesKeepHonours(w, ChangeStep(w, a), w.owed, w.cut.groupsChangedAt);
      FramesKeepHonours(w, ChangeStep(w, a), w.storedOwed, StoredMark(w.cut));
    }
  }

  lemma ChangeKeepsMemory(w: World, a: Action)
    requires Sound(w) && OfChange(a)
    ensures MemorySound(ChangeStep(w, a))
  {
    var w' := ChangeStep(w, a);
    forall i | 0 <= i < |w'.threads| ensures QuerySound(w'.threads[i], w') {
      assert QuerySound(w.threads[i], w);
    }
  }

  lemma StepSound(w: World, a: Action)
    requires Sound(w)
    ensures Sound(Step(w, a))
  {
    if OfChange(a) {
      ChangeKeepsDated(w, a);
      ChangeKeepsChanges(w, a, ChangeStep(w, a));
      ChangeKeepsMarks(w, a);
      ChangeKeepsMemory(w, a);
      ChangeFrames(w, a);
    } else {
      RequestWorks(w, a);
      WorkKeepsSound(w, RequestStep(w, a), Actor(a));
    }
  }

  /** Sign-ins and requests so far are numbered below the next number. */
  ghost predicate Numbered(w: World) {
    && (forall i :: 0 <= i < |w.threads| ==> w.threads[i].id < w.nextId)
    && (forall i :: 0 <= i < |w.decisions| ==> w.decisions[i].id < w.nextId)
  }

  lemma WorkKeepsNumbered(w: World, w': World, t: nat)
    requires Works(w, w', t) && Numbered(w)
    ensures Numbered(w')
  {
    forall i | 0 <= i < |w'.decisions| ensures w'.decisions[i].id < w'.nextId {
      if i < |w.decisions| {
        assert w'.decisions[i] == w.decisions[i];
      }
    }
    forall i | 0 <= i < |w'.threads| ensures w'.threads[i].id < w'.nextId {
      if i < |w.threads| {
        assert w'.threads[i].id == w.threads[i].id;
      }
    }
  }

  lemma StepKeepsNumbered(w: World, a: Action)
    requires Numbered(w)
    ensures Numbered(Step(w, a))
  {
    if OfChange(a) {
      ChangeFrames(w, a);
    } else {
      RequestWorks(w, a);
      WorkKeepsNumbered(w, RequestStep(w, a), Actor(a));
    }
  }

  /** Every reachable interleaving of requests, changes and restarts keeps it. */
  lemma {:induction false} RunSound(w: World, actions: seq<Action>)
    requires Sound(w) && Numbered(w)
    ensures Sound(Run(w, actions)) && Numbered(Run(w, actions))
    decreases |actions|
  {
    if actions == [] {
    } else {
      StepSound(w, actions[0]);
      StepKeepsNumbered(w, actions[0]);
      RunSound(Step(w, actions[0]), actions[1..]);
    }
  }

  // ---------- what a marked change guarantees ----------

  /** Requests numbered `first` or later are owed this version. */
  ghost predicate OwedFrom(w: World, first: nat, version: nat) {
    && version <= w.owed && version <= w.forgotten && first <= w.nextId
    && (forall i :: 0 <= i < |w.threads| && first <= w.threads[i].id ==>
          version <= w.threads[i].owed && version <= w.threads[i].forgotten)
    && (forall i :: 0 <= i < |w.decisions| && first <= w.decisions[i].id ==>
          version <= w.decisions[i].owed && version <= w.decisions[i].forgotten)
  }

  lemma ChangeKeepsOwed(w: World, a: Action, first: nat, version: nat)
    requires Sound(w) && OwedFrom(w, first, version) && (a.Restart? ==> version <= w.storedOwed) && OfChange(a)
    ensures OwedFrom(Step(w, a), first, version) && w.storedOwed <= Step(w, a).storedOwed
  {
    ChangeFrames(w, a);
  }

  lemma WorkKeepsOwed(w: World, w': World, t: nat, first: nat, version: nat)
    requires Works(w, w', t) && OwedFrom(w, first, version)
    ensures OwedFrom(w', first, version)
  {
    forall i | 0 <= i < |w'.decisions| && first <= w'.decisions[i].id
      ensures version <= w'.decisions[i].owed && version <= w'.decisions[i].forgotten
    {
      if i < |w.decisions| {
        assert w'.decisions[i] == w.decisions[i];
      }
    }
    forall i | 0 <= i < |w'.threads| && first <= w'.threads[i].id
      ensures version <= w'.threads[i].owed && version <= w'.threads[i].forgotten
    {
      if i < |w.threads| {
        assert w'.threads[i].id == w.threads[i].id && w'.threads[i].owed == w.threads[i].owed;
      }
    }
  }

  lemma StepKeepsOwed(w: World, a: Action, first: nat, version: nat)
    requires Sound(w) && OwedFrom(w, first, version) && (a.Restart? ==> version <= w.storedOwed)
    ensures OwedFrom(Step(w, a), first, version) && w.storedOwed <= Step(w, a).storedOwed
  {
    if OfChange(a) {
      ChangeKeepsOwed(w, a, first, version);
    } else {
      RequestWorks(w, a);
      WorkKeepsOwed(w, RequestStep(w, a), Actor(a), first, version);
    }
  }

  lemma {:induction false} RunKeepsOwed(w: World, actions: seq<Action>, first: nat, version: nat)
    requires Sound(w) && OwedFrom(w, first, version)
    requires version <= w.storedOwed || Restart !in actions
    ensures OwedFrom(Run(w, actions), first, version)
    decreases |actions|
  {
    if actions == [] {
    } else {
      assert actions[0] in actions;
      StepSound(w, actions[0]);
      StepKeepsOwed(w, actions[0], first, version);
      RunKeepsOwed(Step(w, actions[0]), actions[1..], first, version);
    }
  }

  lemma MarkOwes(w: World, c: nat)
    requires Sound(w) && Numbered(w) && c < |w.changes| && w.changes[c].Recorded?
             && Honours(w, w.changes[c].version, w.changes[c].at)
    ensures OwedFrom(Step(w, Mark(c)), w.nextId, w.changes[c].version)
  {
  }

  /** Whatever happens after the change is marked, the gateway restarting aside,
      every request that starts afterwards is decided by groups on groups read
      after the change. */
  ghost predicate Protected(w: World, c: nat)
    requires c < |w.changes| && w.changes[c].Recorded?
  {
    forall actions :: Restart !in actions ==> DecidedOn(Run(Step(w, Mark(c)), actions), w.nextId, w.changes[c].version)
  }

  /** Requests numbered `first` or later were granted or refused on groups no
      older than this version. */
  ghost predicate DecidedOn(w: World, first: nat, version: nat) {
    forall i :: 0 <= i < |w.decisions| && first <= w.decisions[i].id ==> version <= w.decisions[i].basis
  }

  lemma HonouredChangeReaches(w: World, c: nat, actions: seq<Action>)
    requires Sound(w) && Numbered(w) && c < |w.changes| && w.changes[c].Recorded?
    requires Honours(w, w.changes[c].version, w.changes[c].at)
    requires w.changes[c].kept || Restart !in actions
    ensures DecidedOn(Run(Step(w, Mark(c)), actions), w.nextId, w.changes[c].version)
  {
    var v := w.changes[c].version;
    assert ChangeSound(w.changes[c], w);
    MarkOwes(w, c);
    StepSound(w, Mark(c));
    StepKeepsNumbered(w, Mark(c));
    var w1 := Step(w, Mark(c));
    RunKeepsOwed(w1, actions, w.nextId, v);
    RunSound(w1, actions);
    var end := Run(w1, actions);
    forall i | 0 <= i < |end.decisions| && w.nextId <= end.decisions[i].id ensures v <= end.decisions[i].basis {
      assert DecisionSound(end.decisions[i]);
    }
  }

  /** Once an administrator's change is marked, every request that starts
      afterwards is decided by groups on groups read after it, granted or refused,
      from a cookie, the database or memory, however sign-ins, renewals and other
      changes interleave; and across restarts, if the mark was stored. */
  lemma MarkedChangeReachesEveryRequest(w: World, c: nat, actions: seq<Action>)
    requires Sound(w) && Numbered(w) && c < |w.changes| && w.changes[c].Recorded? && w.changes[c].admin
    requires w.changes[c].kept || Restart !in actions
    ensures DecidedOn(Run(Step(w, Mark(c)), actions), w.nextId, w.changes[c].version)
  {
    assert ChangeSound(w.changes[c], w);
    HonouredChangeReaches(w, c, actions);
  }

  /** An administrator's mark is kept whenever the store's write works. */
  lemma AdminMarkKept(w: World, c: nat, ok: bool)
    requires Sound(w) && c < |w.changes| && w.changes[c].Forgot? && w.changes[c].admin
    ensures Step(w, Record(c, ok)).changes[c] == Recorded(w.changes[c].version, w.changes[c].at, true, ok)
  {
  }

  // ---------- what any state guarantees ----------

  /** Requests numbered `first` or later were granted only on groups no older than this version. */
  ghost predicate GrantedOn(w: World, first: nat, version: nat) {
    forall i :: 0 <= i < |w.decisions| && first <= w.decisions[i].id && w.decisions[i].granted ==>
           version <= w.decisions[i].basis
  }

  /** A session dated then would not be stale now. */
  predicate Fresh(w: World, iat: int) { w.cut.groupsChangedAt == 0 || w.cut.groupsChangedAt < iat }

  /** Every session that is not stale saw the version, and so did every request that
      has still to mint one. */
  predicate AllSaw(w: World, version: nat) {
    && (forall i :: 0 <= i < |w.tickets| && !Stale(w, w.tickets[i]) ==> version <= w.tickets[i].seen)
    && (forall i :: 0 <= i < |w.threads| && Mints(w, w.threads[i]) && Fresh(w, w.threads[i].now) ==>
          version <= w.threads[i].stage.seen)
  }

  /** Nothing that requests numbered `first` or later can be granted on is older. */
  ghost predicate ReadsFrom(w: World, first: nat, version: nat) {
    && version < |w.db| && AllSaw(w, version) && GrantedOn(w, first, version)
    && forall i :: 0 <= i < |w.threads| && first <= w.threads[i].id && w.threads[i].stage.Queried? ==>
      version <= w.threads[i].stage.seen
  }

  lemma WorkKeepsReads(w: World, w': World, t: nat, first: nat, version: nat)
    requires Works(w, w', t) && Sound(w) && ReadsFrom(w, first, version)
    ensures ReadsFrom(w', first, version)
  {
    forall i | 0 <= i < |w'.tickets| && !Stale(w', w'.tickets[i]) ensures version <= w'.tickets[i].seen {
      if i < |w.tickets| {
        assert w'.tickets[i] == w.tickets[i];
      }
    }
    forall i | 0 <= i < |w'.threads| && Mints(w', w'.threads[i]) && Fresh(w', w'.threads[i].now)
      ensures version <= w'.threads[i].stage.seen
    {
      if i < |w.threads| && w'.threads[i] == w.threads[i] {
        MintsStill(w, w', w.threads[i]);
      }
    }
    forall i | 0 <= i < |w'.decisions| && first <= w'.decisions[i].id && w'.decisions[i].granted
      ensures version <= w'.decisions[i].basis
    {
      if i < |w.decisions| {
        assert w'.decisions[i] == w.decisions[i];
      }
    }
    forall i | 0 <= i < |w'.threads| && first <= w'.threads[i].id && w'.threads[i].stage.Queried?
      ensures version <= w'.threads[i].stage.seen
    {
      if i < |w.threads| {
        assert w'.threads[i].id == w.threads[i].id;
      }
    }
  }

  lemma ChangeKeepsReads(w: World, a: Action, w': World, first: nat, version: nat)
    requires OfChange(a) && !a.Restart? && w' == ChangeStep(w, a) && Sound(w) && ReadsFrom(w, first, version)
    ensures ReadsFrom(w', first, version)
  {
    ChangeFrames(w, a);
    MarkOnlyGrows(w, a);
    forall i | 0 <= i < |w'.threads| && Mints(w', w'.threads[i]) && Fresh(w', w'.threads[i].now)
      ensures version <= w'.threads[i].stage.seen
    {
      assert QuerySound(w.threads[i], w) && ThreadDated(w, w.threads[i]);
      MintsStill(w, w', w.threads[i]);
    }
  }

  lemma MarkOnlyGrows(w: World, a: Action)
    requires OfChange(a) && !a.Restart? && Sound(w)
    ensures w.cut.groupsChangedAt <= ChangeStep(w, a).cut.groupsChangedAt
    ensures w.cut.groupsChangedAt != 0 && 0 <= w.cut.groupsChangedAt ==> ChangeStep(w, a).cut.groupsChangedAt != 0
  {
  }

  lemma {:induction false} RunKeepsReads(w: World, actions: seq<Action>, first: nat, version: nat)
    requires Sound(w) && ReadsFrom(w, first, version) && Restart !in actions
    ensures ReadsFrom(Run(w, actions), first, version)
    decreases |actions|
  {
    if actions == [] {
    } else {
      var a := actions[0];
      assert a in actions;
      StepSound(w, a);
      if OfChange(a) {
        ChangeKeepsReads(w, a, ChangeStep(w, a), first, version);
      } else {
        RequestWorks(w, a);
        WorkKeepsReads(w, RequestStep(w, a), Actor(a), first, version);
      }
      RunKeepsReads(Step(w, a), actions[1..], first, version);
    }
  }

  /** A request with session k on a route that admits its groups. */
  function Presents(w: World, k: nat): seq<Action>
    requires k < |w.tickets|
  {
    [StartRequest(k), Check(|w.threads|, false, {w.tickets[k].groups})]
  }

  lemma OldSessionIsGranted(w: World, k: nat, version: nat)
    requires k < |w.tickets| && !Stale(w, w.tickets[k]) && w.tickets[k].seen < version
    ensures !GrantedOn(Run(w, Presents(w, k)), w.nextId, version)
  {
    var w1 := Step(w, StartRequest(k));
    var check := Presents(w, k)[1];
    var w2 := Step(w1, check);
    assert w1.tickets == w.tickets && w1.cut == w.cut && w1.threads[|w.threads|].stage == Began(k);
    assert w2.decisions[|w.decisions|].basis == w.tickets[k].seen && w2.decisions[|w.decisions|].id == w.nextId;
    assert Presents(w, k)[1..] == [check] && [check][1..] == [];
    assert Run(w1, [check]) == w2;
  }

  lemma MintingSessionIsGranted(w: World, t: nat, version: nat)
    requires Sound(w) && t < |w.threads| && Mints(w, w.threads[t]) && Fresh(w, w.threads[t].now)
    requires w.threads[t].stage.seen < version
    ensures var w1 := Step(w, Settle(t, {}));
            && |w.tickets| < |w1.tickets|
            && !GrantedOn(Run(w, [Settle(t, {})] + Presents(w1, |w.tickets|)), w.nextId, version)
  {
    assert ThreadDated(w, w.threads[t]);
    var w1 := Step(w, Settle(t, {}));
    assert |w1.tickets| == |w.tickets| + 1 && w1.cut == w.cut && w1.nextId == w.nextId;
    assert w1.tickets[|w.tickets|].iat == w.threads[t].now && w1.tickets[|w.tickets|].seen == w.threads[t].stage.seen;
    OldSessionIsGranted(w1, |w.tickets|, version);
    var actions := [Settle(t, {})] + Presents(w1, |w.tickets|);
    assert actions[1..] == Presents(w1, |w.tickets|);
  }

  /** Whatever happens, the gateway restarting aside, no request that starts from now
      on is granted on groups older than this version. */
  ghost predicate NeverOlder(w: World, version: nat) {
    forall actions :: Restart !in actions ==> GrantedOn(Run(w, actions), w.nextId, version)
  }

  /** Otherwise something can happen. */
  lemma OlderGrant(w: World, version: nat) returns (actions: seq<Action>)
    requires Sound(w) && !AllSaw(w, version)
    ensures Restart !in actions && !GrantedOn(Run(w, actions), w.nextId, version)
  {
    if k :| 0 <= k < |w.tickets| && !Stale(w, w.tickets[k]) && w.tickets[k].seen < version {
      OldSessionIsGranted(w, k, version);
      actions := Presents(w, k);
    } else {
      var t :| 0 <= t < |w.threads| && Mints(w, w.threads[t]) && Fresh(w, w.threads[t].now)
        && w.threads[t].stage.seen < version;
      MintingSessionIsGranted(w, t, version);
      actions := [Settle(t, {})] + Presents(Step(w, Settle(t, {})), |w.tickets|);
    }
  }

  /** In any reachable state, exactly when no request that starts later, however steps
      interleave, can be granted on groups older than a version: every session that
      is not stale saw it, and so did every request that has still to mint one. It
      matters for a change that nobody marks, such as the undo of an include. */
  lemma GrantsRestExactly(w: World, version: nat)
    requires Sound(w) && Numbered(w) && version < |w.db|
    ensures NeverOlder(w, version) <==> AllSaw(w, version)
  {
    if AllSaw(w, version) {
      forall actions | Restart !in actions ensures GrantedOn(Run(w, actions), w.nextId, version) {
        RunKeepsReads(w, actions, w.nextId, version);
      }
    } else {
      var actions := OlderGrant(w, version);
    }
  }

  /** A session dated after a change's mark, from groups older than its write, is
      granted on the old groups by the next request with it. */
  lemma LateSignInKeepsOldGroups(w: World, c: nat, k: nat)
    requires c < |w.changes| && w.changes[c].Recorded? && k < |w.tickets|
    requires Max(w.cut.groupsChangedAt, w.changes[c].at) < w.tickets[k].iat && w.tickets[k].seen < w.changes[c].version
    ensures !DecidedOn(Run(Step(w, Mark(c)), Presents(w, k)), w.nextId, w.changes[c].version)
  {
    OldSessionIsGranted(Step(w, Mark(c)), k, w.changes[c].version);
  }

  lemma MarkedSawExactly(w: World, c: nat)
    requires Sound(w) && c < |w.changes| && w.changes[c].Recorded? && w.cut.groupsChangedAt <= w.changes[c].at
             && 0 < w.changes[c].at
    ensures AllSaw(Step(w, Mark(c)), w.changes[c].version) <==> Honours(w, w.changes[c].version, w.changes[c].at)
    ensures Step(w, Mark(c)).nextId == w.nextId
  {
    var w1 := Step(w, Mark(c));
    assert w1.tickets == w.tickets && w1.threads == w.threads && w1.db == w.db
           && w1.cut.groupsChangedAt == w.changes[c].at;
    forall th ensures Mints(w1, th) == Mints(w, th) {
    }
  }

  /** Exactly when the newest mark, a feed's or an administrator's, protects every
      later request: no session dated after it was minted, or is about to be, from
      older groups. */
  lemma MarkProtectsExactly(w: World, c: nat)
    requires Sound(w) && Numbered(w) && c < |w.changes| && w.changes[c].Recorded?
    requires w.cut.groupsChangedAt <= w.changes[c].at
    ensures Protected(w, c) <==> Honours(w, w.changes[c].version, w.changes[c].at)
  {
    var v, at := w.changes[c].version, w.changes[c].at;
    if Honours(w, v, at) {
      forall actions | Restart !in actions ensures DecidedOn(Run(Step(w, Mark(c)), actions), w.nextId, v) {
        HonouredChangeReaches(w, c, actions);
      }
    } else {
      assert ChangeSound(w.changes[c], w);
      var w1 := Step(w, Mark(c));
      MarkedSawExactly(w, c);
      StepSound(w, Mark(c));
      var actions := OlderGrant(w1, v);
      assert !DecidedOn(Run(w1, actions), w.nextId, v);
    }
  }

  // ---------- what single steps do ----------

  lemma ChangeDecidesNothing(w: World, a: Action)
    requires OfChange(a)
    ensures ChangeStep(w, a).decisions == w.decisions
  {
  }

  /** The decision rests on groups that the route admits: the session's own, or those of
      the version it names. */
  ghost predicate AdmittedBy(w: World, a: Action, d: Decision) {
    && (a.Check? || a.Renew? || a.Settle?) && a.t < |w.threads|
    && var th := w.threads[a.t];
       && d.id == th.id
       && if a.Check? then
            th.stage.Began? && th.stage.k < |w.tickets| && w.tickets[th.stage.k].groups in a.admits
            && d.basis == w.tickets[th.stage.k].seen
          else GroupsIn(w, d.basis, th.email) in a.admits
  }

  lemma RequestGrants(w: World, a: Action, i: nat)
    requires |w.decisions| <= i < |RequestStep(w, a).decisions| && RequestStep(w, a).decisions[i].granted
    ensures AdmittedBy(w, a, RequestStep(w, a).decisions[i])
  {
  }

  /** A step grants a request only on groups that its route admits. */
  lemma GrantIsAdmitted(w: World, a: Action, i: nat)
    requires |w.decisions| <= i < |Step(w, a).decisions| && Step(w, a).decisions[i].granted
    ensures AdmittedBy(w, a, Step(w, a).decisions[i])
  {
    if OfChange(a) {
      ChangeDecidesNothing(w, a);
    } else {
      RequestGrants(w, a, i);
    }
  }

  /** A request whose groups cannot be read ends undecided; the clock only moves forward;
      and a restart keeps what is stored, and nothing else but the sessions people hold. */
  lemma OtherStepsExactly(w: World, t: nat, to: int)
    ensures t < |w.threads| && w.threads[t].stage.Asking? ==>
              Step(w, Query(t, false)) == w.(threads := w.threads[t := w.threads[t].(stage := Done)])
    ensures Step(w, Tick(to)) == w.(clock := if w.clock <= to then to else w.clock)
    ensures var r := Step(w, Restart);
            && r.db == w.db && r.tickets == w.tickets && r.decisions == w.decisions && r.clock == w.clock
            && r.cut.ended == r.cut.stored == w.cut.stored
            && r.cut.groupsChangedAt == (if Groups in w.cut.stored then w.cut.stored[Groups] else 0)
            && r.until == map[] && r.threads == [] && r.changes == []
  {
  }

  function Start(clock: int, groups: Version): World {
    World(clock, [groups], Loaded(map[]), map[], map[], 0, [], [], [], [], 0, 0, 0, 0)
  }

  lemma StartSound(clock: int, groups: Version)
    requires 0 < clock
    ensures Sound(Start(clock, groups)) && Numbered(Start(clock, groups))
  {
  }

  function Late(email: string): seq<Action> { [BeginSync, Tick(2), StartSignIn(email), FinishSignIn(0)] }

  const SYNC_ENDS: seq<Action> := [SyncWrite(0, map[]), Forget(0), Record(0, true)]

  lemma {:induction false} RunTwice(w: World, first: seq<Action>, second: seq<Action>)
    ensures Run(w, first + second) == Run(Run(w, first), second)
    decreases |first|
  {
    if first == [] {
      assert first + second == second;
    } else {
      assert (first + second)[1..] == first[1..] + second;
      RunTwice(Step(w, first[0]), first[1..], second);
    }
  }

  lemma LateSignIn(email: string, groups: string)
    ensures var w := Run(Start(1, map[email := groups]), Late(email));
            && w.tickets == [Ticket(email, groups, 2, 0)] && w.changes == [Syncing(1)] && |w.db| == 1
            && w.cut.groupsChangedAt == 0
  {
    var as0 := Late(email);
    var w1 := Step(Start(1, map[email := groups]), as0[0]);
    var w2 := Step(w1, as0[1]);
    var w3 := Step(w2, as0[2]);
    assert as0[1..][1..][1..] == [FinishSignIn(0)] && [FinishSignIn(0)][1..] == [];
    assert Run(w3, [FinishSignIn(0)]) == Step(w3, FinishSignIn(0));
    assert as0[1..][1..][0] == as0[2] && as0[1..][0] == as0[1];
    assert Run(w2, as0[1..][1..]) == Run(w3, [FinishSignIn(0)]);
  }

  lemma SyncEnds(w: World)
    requires w.changes == [Syncing(1)] && |w.db| == 1 && |w.tickets| == 1 && w.tickets[0].iat == 2
             && w.tickets[0].seen == 0
    ensures var end := Run(w, SYNC_ENDS);
            end.changes == [Recorded(1, 1, false, false)] && end.tickets == w.tickets
              && end.cut.groupsChangedAt == w.cut.groupsChangedAt
  {
    var w1 := Step(w, SYNC_ENDS[0]);
    assert !TicketHonours(w.tickets[0], 1, 1);
    assert w1.changes == [Stamped(1, 1, false)];
    SyncMarks(w1);
    assert SYNC_ENDS[1..] == [Forget(0), Record(0, true)];
  }

  lemma SyncMarks(w: World)
    requires w.changes == [Stamped(1, 1, false)] && !Honours(w, 1, 1)
    ensures var end := Run(w, [Forget(0), Record(0, true)]);
            end.changes == [Recorded(1, 1, false, false)] && end.tickets == w.tickets
              && end.cut.groupsChangedAt == w.cut.groupsChangedAt
  {
    var w1 := Step(w, Forget(0));
    assert w1.changes == [Forgot(1, 1, false)];
    assert [Forget(0), Record(0, true)][1..] == [Record(0, true)] && [Record(0, true)][1..] == [];
    assert Run(w1, [Record(0, true)]) == Step(w1, Record(0, true));
  }

  /** Such a sync exists: it begins, a person signs in a second later, and only
      then does it write. */
  lemma FeedMarkCanMiss(email: string, groups: string)
    ensures var end := Run(Start(1, map[email := groups]), Late(email) + SYNC_ENDS);
            && end.changes == [Recorded(1, 1, false, false)]
            && end.tickets == [Ticket(email, groups, 2, 0)] && end.cut.groupsChangedAt == 0
  {
    LateSignIn(email, groups);
    RunTwice(Start(1, map[email := groups]), Late(email), SYNC_ENDS);
    SyncEnds(Run(Start(1, map[email := groups]), Late(email)));
  }

  // ---------- an include that is undone ----------

  function Inserts(email: string, groups: string): seq<Action>
  {
    [Write(map[email := groups]), StartSignIn(email), FinishSignIn(0)]
  }

  function Undoes(email: string, before: string, groups: string): seq<Action> {
    [Write(map[email := before]), StartRequest(0), Check(1, false, {groups})]
  }

  lemma SignedInBetween(email: string, before: string, groups: string)
    ensures var w := Run(Start(1, map[email := before]), Inserts(email, groups));
            && w.db == [map[email := before], map[email := groups]] && w.tickets == [Ticket(email, groups, 1, 1)]
            && |w.threads| == 1 && w.decisions == [] && w.cut.groupsChangedAt == 0
  {
    var as0 := Inserts(email, groups);
    var w1 := Step(Start(1, map[email := before]), as0[0]);
    var w2 := Step(w1, as0[1]);
    assert as0[1..][0] == as0[1] && as0[1..][1..] == [FinishSignIn(0)] && [FinishSignIn(0)][1..] == [];
    assert Run(w2, [FinishSignIn(0)]) == Step(w2, FinishSignIn(0));
    assert Run(w1, as0[1..]) == Run(w2, [FinishSignIn(0)]);
  }

  lemma StillGranted(w: World, email: string, before: string, groups: string)
    requires w.db == [map[email := before], map[email := groups]] && w.tickets == [Ticket(email, groups, 1, 1)]
    requires |w.threads| == 1 && w.decisions == [] && w.cut.groupsChangedAt == 0
    ensures var end := Run(w, Undoes(email, before, groups));
            |end.decisions| == 1 && end.decisions[0].granted && end.decisions[0].basis == 1 && Newest(end) == 2
              && GroupsIn(end, 2, email) == before
  {
    var as0 := Undoes(email, before, groups);
    var w1 := Step(w, as0[0]);
    var w2 := Step(w1, as0[1]);
    var check := Check(1, false, {groups});
    assert w2.threads[1].stage == Began(0);
    assert as0[1..][0] == as0[1] && as0[1..][1..] == [check] && [check][1..] == [];
    assert Run(w2, [check]) == Step(w2, check);
    assert Run(w1, as0[1..]) == Run(w2, [check]);
  }

  /** The undo of a refused include marks nothing. A person who signs in between the
      insert and the undo keeps the groups it gave: not every session has seen the
      undo, and the person is granted on them after it. */
  lemma UndoneIncludeLingers(email: string, before: string, groups: string)
    ensures var start, signIn := Start(1, map[email := before]), Inserts(email, groups);
            var end := Run(start, signIn + Undoes(email, before, groups));
            && !AllSaw(Step(Run(start, signIn), Write(map[email := before])), 2)
            && |end.decisions| == 1 && end.decisions[0].granted && end.decisions[0].basis == 1
            && Newest(end) == 2 && GroupsIn(end, 2, email) == before
  {
    SignedInBetween(email, before, groups);
    RunTwice(Start(1, map[email := before]), Inserts(email, groups), Undoes(email, before, groups));
    var w := Run(Start(1, map[email := before]), Inserts(email, groups));
    StillGranted(w, email, before, groups);
    assert !Stale(Step(w, Write(map[email := before])), w.tickets[0]);
  }
}
