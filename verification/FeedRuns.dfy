/**
 What the feed's rules guarantee over every run of syncs and Keep presses
 (internal/server/group_feeds.go), whatever the feed answers.
 */
module FeedRuns {
  import opened Prelude
  import opened Feed

  datatype Event =
    | Sync(a: Attempt)
    | Keep(hash: Digest, readFails: bool, writeFails: bool)

  /** Fetched lists are de-duplicated before they are used. */
  ghost predicate WellFormed(e: Event) {
    e.Sync? && e.a.fetch.Emails? ==> Distinct(e.a.fetch.list)
  }

  /** Addresses in exactly one of two sets. */
  function Apart(a: set<string>, b: set<string>): nat { |a - b| + |b - a| }

  function After(cfg: Config, g: Group, e: Event): Group {
    match e
    case Sync(a) => Attempted(cfg, g, a).0
    case Keep(hash, readFails, writeFails) => KeptChange(g, hash, readFails, writeFails).0
  }

  function Run(cfg: Config, g: Group, es: seq<Event>): Group
    decreases |es|
  {
    if es == [] then g else Run(cfg, After(cfg, g, es[0]), es[1..])
  }

  ghost predicate AllWellFormed(es: seq<Event>) {
    forall i :: 0 <= i < |es| ==> WellFormed(es[i])
  }

  predicate WritesSucceed(es: seq<Event>) {
    forall i :: 0 <= i < |es| ==> es[i].Sync? ==> !es[i].a.faults.writeState
  }

  // ---------- applying a list ----------

  lemma JoinedDistinct(xs: seq<string>, ys: seq<string>)
    requires Distinct(xs) && Distinct(ys) && Elements(xs) !! Elements(ys)
    ensures Distinct(xs + ys) && Elements(xs + ys) == Elements(xs) + Elements(ys)
  {
    var both := xs + ys;
    forall i, j | 0 <= i < j < |both| ensures both[i] != both[j] {
      if i < |xs| <= j {
        assert both[i] in Elements(xs) && both[j] in Elements(ys);
      }
    }
  }

  lemma AddThenRemove(was: set<string>, want: set<string>)
    ensures (was + (want - was)) - (was - want) == want
  {
  }

  /** Filling leaves exactly the list as members, without repeats. */
  lemma FilledMembers(g: Group, list: seq<string>, actor: string)
    requires Distinct(g.members) && Distinct(list)
    ensures Distinct(Filled(g, list, actor).members)
    ensures Elements(Filled(g, list, actor).members) == Elements(list)
  {
    if Missing(list, g.members) == [] && Missing(g.members, list) == [] {
      SameElements(list, g.members);
    } else {
      MembersMoved(g.members, list);
    }
  }

  lemma MembersMoved(members: seq<string>, list: seq<string>)
    requires Distinct(members) && Distinct(list)
    ensures var left := Missing(Inserted(members, Missing(list, members)), Missing(members, list));
            Distinct(left) && Elements(left) == Elements(list)
  {
    var add, remove := Missing(list, members), Missing(members, list);
    MissingIsDifference(list, members);
    MissingElements(members, list);
    JoinedDistinct(members, add);
    InsertedAppends(members, add);
    MissingIsDifference(members + add, remove);
    AddThenRemove(Elements(members), Elements(list));
  }

  /** Lists differ nowhere exactly when they have the same elements. */
  lemma SameElements(xs: seq<string>, ys: seq<string>)
    requires Distinct(xs) && Distinct(ys)
    ensures Difference(xs, ys) == Apart(Elements(xs), Elements(ys))
    ensures Difference(xs, ys) == 0 <==> Elements(xs) == Elements(ys)
  {
    MissingIsDifference(xs, ys);
    MissingIsDifference(ys, xs);
    if Difference(xs, ys) == 0 {
      assert Elements(xs) - Elements(ys) == {} && Elements(ys) - Elements(xs) == {};
    }
  }

  // ---------- when the members move ----------

  /** Small enough to apply at once: it adds at most five or a quarter of the members,
      removes at most two or a quarter, and is at most three addresses or a quarter of
      the list last accepted away from that list. */
  predicate SmallChange(g: Group, list: seq<string>) {
    var members, want, accepted := Elements(g.members), Elements(list), Elements(g.record.accepted);
    && (|want - members| <= 5 || 4 * |want - members| <= |g.members|)
    && (|members - want| <= 2 || 4 * |members - want| <= |g.members|)
    && Near(g.record.accepted, want)
  }

  predicate Near(accepted: seq<string>, other: set<string>) {
    var apart := |Elements(accepted) - other| + |other - Elements(accepted)|;
    apart <= 3 || 4 * apart <= |accepted|
  }

  /** It leaves at least half of the members and of the list last accepted, and at most
      doubles the members, ten more aside. */
  predicate WithinSize(g: Group, list: seq<string>) {
    |g.members| <= 2 * |list| && |g.record.accepted| <= 2 * |list| && |list| <= 2 * |g.members| + 10
  }

  /** The change has been held for the wait, which may apply it, and nobody keeps it back. */
  predicate WaitOver(cfg: Config, g: Group, list: seq<string>, now: int) {
    && 0 < cfg.wait && (cfg.rotating || WithinSize(g, list))
    && g.record.status == Held && g.record.pending == Digest(Elements(list)) != g.record.kept
    && g.record.heldSince.Some? && g.record.heldSince.value + cfg.wait <= now
  }

  /** The list is a change, and nothing it needs fails. */
  predicate Feasible(g: Group, a: Attempt) {
    && a.fetch.Emails? && a.fetch.list != [] && Elements(a.fetch.list) != Elements(g.members)
    && !a.faults.readState && !a.faults.readGroup && !a.faults.readMembers && !a.faults.apply
  }

  /** The digest is of the change that is held, and the feed still returns it. */
  predicate AcceptsHeld(g: Group, a: Attempt) {
    a.fetch.Emails? && g.record.status == Held && a.accept == g.record.pending == Digest(Elements(a.fetch.list))
  }

  lemma NeedsHoldExactly(g: Group, list: seq<string>)
    requires Distinct(g.members) && Distinct(g.record.accepted) && Distinct(list)
    ensures NeedsHold(g, list) <==> !SmallChange(g, list)
  {
    MissingIsDifference(list, g.members);
    MissingIsDifference(g.members, list);
    SameElements(g.record.accepted, list);
  }

  lemma WaitedOutExactly(cfg: Config, g: Group, list: seq<string>, now: int)
    ensures WaitedOut(cfg, g, list, now) <==> WaitOver(cfg, g, list, now)
  {
  }

  /** Exactly when a sync moves the members: to the list fetched, when an administrator
      accepts that very change, or nobody does and it is small or has waited. */
  lemma MovesExactly(cfg: Config, g: Group, a: Attempt)
    requires Distinct(g.members) && Distinct(g.record.accepted) && WellFormed(Sync(a))
    ensures var members := Elements(Attempted(cfg, g, a).0.members);
            && (members != Elements(g.members) <==>
                  && Feasible(g, a)
                  && if a.accept != NoDigest then AcceptsHeld(g, a)
                     else SmallChange(g, a.fetch.list) || WaitOver(cfg, g, a.fetch.list, a.now))
            && (members != Elements(g.members) ==> members == Elements(a.fetch.list))
  {
    if a.fetch.Emails? && a.fetch.list != [] {
      var list := a.fetch.list;
      SameElements(list, g.members);
      NeedsHoldExactly(g, list);
      WaitedOutExactly(cfg, g, list, a.now);
      DecidedMoves(cfg, g, list, a);
    }
  }

  lemma DecidedMoves(cfg: Config, g: Group, list: seq<string>, a: Attempt)
    requires Distinct(g.members) && Distinct(list)
    ensures var members, differs := Elements(Decided(cfg, g, list, a).0.members), Difference(list, g.members) != 0;
            var applies := if a.accept != NoDigest then g.record.pending == Digest(Elements(list))
                           else !NeedsHold(g, list) || WaitedOut(cfg, g, list, a.now);
            members == if applies && differs && !a.faults.apply then Elements(list) else Elements(g.members)
  {
    FilledMembers(g, list, a.actor);
    FilledMembers(g, list, FEED_ACTOR);
    SameElements(list, g.members);
  }

  /** The administrator's digest is of no change that is held now. */
  predicate RefusesAccept(g: Group, a: Attempt) {
    a.accept != NoDigest && (g.record.status != Held || a.accept != g.record.pending)
  }

  /** The list fetched has to wait for somebody: an administrator accepts another change,
      or nobody accepts one that is not small and has not waited. */
  predicate MustHold(cfg: Config, g: Group, a: Attempt)
    requires a.fetch.Emails?
  {
    if a.accept != NoDigest then a.accept != Digest(Elements(a.fetch.list))
    else Elements(a.fetch.list) != Elements(g.members)
         && !SmallChange(g, a.fetch.list) && !WaitOver(cfg, g, a.fetch.list, a.now)
  }

  /** The status a sync records, when it records one. */
  function StatusFor(cfg: Config, g: Group, a: Attempt): Status {
    if !a.fetch.Emails? then Failed
    else if a.fetch.list == [] then Empty
    else if a.faults.readGroup || a.faults.readMembers then Failed
    else if MustHold(cfg, g, a) then Held
    else if a.faults.apply && Elements(a.fetch.list) != Elements(g.members) then Failed
    else Ok
  }

  lemma DecidedOutcome(cfg: Config, g: Group, list: seq<string>, a: Attempt)
    requires Distinct(g.members) && Distinct(g.record.accepted) && Distinct(list) && a.fetch == Emails(list)
             && list != []
    requires !a.faults.readGroup && !a.faults.readMembers && !RefusesAccept(g, a)
    ensures Decided(cfg, g, list, a).1 == if a.faults.writeState then WriteFailed else Recorded(StatusFor(cfg, g, a))
  {
    SameElements(list, g.members);
    NeedsHoldExactly(g, list);
    WaitedOutExactly(cfg, g, list, a.now);
  }

  /** Every outcome of a sync. */
  lemma OutcomeExactly(cfg: Config, g: Group, a: Attempt)
    requires Distinct(g.members) && Distinct(g.record.accepted) && WellFormed(Sync(a))
    ensures var o := Attempted(cfg, g, a).1;
            if a.faults.readState then o == StateUnreadable
            else if RefusesAccept(g, a) then o == if g.record.status != Held then NothingHeld else ChangeReplaced
            else if a.fetch == Unreachable && a.mayRetry then o == WillRetry
            else if a.faults.writeState then o == WriteFailed
            else o == Recorded(StatusFor(cfg, g, a))
  {
    if a.fetch.Emails? && a.fetch.list != [] && !a.faults.readGroup && !a.faults.readMembers && !RefusesAccept(g, a) {
      DecidedOutcome(cfg, g, a.fetch.list, a);
    }
  }

  /** This sync applies a change that somebody accepted, or one that waited. */
  predicate Decides(cfg: Config, g: Group, a: Attempt) {
    && StatusFor(cfg, g, a) == Ok
    && (a.accept != NoDigest
        || (Elements(a.fetch.list) != Elements(g.members) && !SmallChange(g, a.fetch.list)))
  }

  /** When the wait for the change began: when it was first held, if it still is. */
  function HeldFor(cfg: Config, g: Group, a: Attempt): Option<int>
    requires a.fetch.Emails?
  {
    if cfg.wait == 0 || !(cfg.rotating || WithinSize(g, a.fetch.list)) then None
    else if g.record.status == Held && g.record.pending == Digest(Elements(a.fetch.list)) && g.record.heldSince.Some?
            && a.accept == NoDigest then g.record.heldSince
    else Some(a.now)
  }

  /** The record after a sync: a held change with its wait, or none; the accepted list
      moves only when somebody decides, or it is the first; a Keep ends only then. */
  ghost predicate RecordIs(cfg: Config, g: Group, a: Attempt, st: Record) {
    var was, status := g.record, StatusFor(cfg, g, a);
    && st.status == status && st.lastAttempt == Truncated(a.now)
    && st.lastSuccess == (if status == Ok && 0 < Unix(a.now) then Truncated(a.now) else was.lastSuccess)
    && st.accepted ==
      (if Decides(cfg, g, a) || (status == Ok && was.accepted == []) then a.fetch.list else was.accepted)
    && st.kept == (if Decides(cfg, g, a) then NoDigest else was.kept)
    && if status != Held then st.pending == NoDigest && st.pendingAdd == st.pendingRemove == [] && st.heldSince == None
       else
         var since := HeldFor(cfg, g, a);
         && st.pending == Digest(Elements(a.fetch.list))
         && (st.heldSince.Some? <==> since.Some? && 0 < Unix(since.value))
         && (st.heldSince.Some? ==> st.heldSince == Some(Truncated(since.value)))
  }

  lemma HoldingRecord(cfg: Config, g: Group, list: seq<string>, a: Attempt)
    requires !a.faults.writeState && a.fetch == Emails(list) && StatusFor(cfg, g, a) == Held
    ensures RecordIs(cfg, g, a, Holding(g, list, HeldFor(cfg, g, a), a).0.record)
  {
  }

  lemma AppliedRecord(cfg: Config, g: Group, list: seq<string>, decided: bool, actor: string, a: Attempt)
    requires !a.faults.writeState && a.fetch == Emails(list) && list != []
    requires StatusFor(cfg, g, a) == if a.faults.apply && Difference(list, g.members) != 0 then Failed else Ok
    requires StatusFor(cfg, g, a) == Ok ==> decided == Decides(cfg, g, a)
    ensures RecordIs(cfg, g, a, Applied(g, list, decided, actor, a).0.record)
  {
  }

  lemma DecidedRecord(cfg: Config, g: Group, list: seq<string>, a: Attempt)
    requires Distinct(g.members) && Distinct(g.record.accepted) && Distinct(list)
    requires !a.faults.writeState && a.fetch == Emails(list) && list != [] && !RefusesAccept(g, a)
    requires !a.faults.readGroup && !a.faults.readMembers
    ensures RecordIs(cfg, g, a, Decided(cfg, g, list, a).0.record)
  {
    var accept := a.accept != NoDigest;
    SameElements(list, g.members);
    NeedsHoldExactly(g, list);
    WaitedOutExactly(cfg, g, list, a.now);
    RefusedExactly(cfg, g, list);
    if accept && g.record.pending != Digest(Elements(list)) {
      HoldingRecord(cfg, g, list, a);
    } else if !accept && Difference(list, g.members) != 0 && NeedsHold(g, list) {
      if WaitedOut(cfg, g, list, a.now) {
        AppliedRecord(cfg, g, list, true, FEED_ACTOR, a);
      } else {
        HoldingRecord(cfg, g, list, a);
      }
    } else {
      AppliedRecord(cfg, g, list, accept, a.actor, a);
    }
  }

  /** What a sync that records a result leaves on record. */
  lemma RecordExactly(cfg: Config, g: Group, a: Attempt)
    requires Distinct(g.members) && Distinct(g.record.accepted) && WellFormed(Sync(a))
    requires Attempted(cfg, g, a).1.Recorded?
    ensures RecordIs(cfg, g, a, Attempted(cfg, g, a).0.record)
  {
    OutcomeExactly(cfg, g, a);
    if a.fetch.Emails? && a.fetch.list != [] && !a.faults.readGroup && !a.faults.readMembers {
      DecidedRecord(cfg, g, a.fetch.list, a);
    }
  }

  lemma RefusedExactly(cfg: Config, g: Group, list: seq<string>)
    ensures Refused(cfg, g, list) <==> !cfg.rotating && !WithinSize(g, list)
  {
  }

  /** The trouble a sync records is new: another status, another change held, or a wait
      that starts or ends. */
  ghost predicate News(cfg: Config, g: Group, a: Attempt) {
    var status := StatusFor(cfg, g, a);
    && status != Ok
    && (g.record.status != status
        || (status == Held
            && (g.record.pending != Digest(Elements(a.fetch.list)) || g.record.heldSince != HeldFor(cfg, g, a))))
  }

  /** The alerts gained ask for attention exactly when there is news. */
  ghost predicate Attends(g: Group, g': Group, news: bool) {
    if news then |g'.alerts| == |g.alerts| + 1 && g.alerts < g'.alerts && g'.alerts[|g.alerts|].NeedsAttention?
    else g'.alerts == g.alerts || (|g'.alerts| == |g.alerts| + 1 && g'.alerts[|g.alerts|].MembersChanged?)
  }

  lemma FinishAttends(g: Group, st: Record, status: Status, a: Attempt)
    requires !a.faults.writeState
    ensures Attends(g, Finished(g, st, status, a).0,
                    status != Ok && (g.record.status != status
                      || (status == Held && (g.record.pending != st.pending || g.record.heldSince != st.heldSince))))
  {
  }

  lemma DecidedAttends(cfg: Config, g: Group, list: seq<string>, a: Attempt)
    requires Distinct(g.members) && Distinct(g.record.accepted) && Distinct(list)
    requires !a.faults.writeState && a.fetch == Emails(list) && list != [] && !RefusesAccept(g, a)
    requires !a.faults.readGroup && !a.faults.readMembers
    ensures Attends(g, Decided(cfg, g, list, a).0, News(cfg, g, a))
  {
    var accept := a.accept != NoDigest;
    SameElements(list, g.members);
    NeedsHoldExactly(g, list);
    WaitedOutExactly(cfg, g, list, a.now);
    RefusedExactly(cfg, g, list);
    if accept && g.record.pending != Digest(Elements(list)) {
      HoldAttends(g, list, HeldFor(cfg, g, a), a);
    } else if !accept && Difference(list, g.members) != 0 && NeedsHold(g, list) {
      if WaitedOut(cfg, g, list, a.now) {
        AppliedAttends(cfg, g, list, true, FEED_ACTOR, a);
      } else {
        HoldAttends(g, list, HeldFor(cfg, g, a), a);
      }
    } else {
      AppliedAttends(cfg, g, list, accept, a.actor, a);
    }
  }

  lemma AppliedAttends(cfg: Config, g: Group, list: seq<string>, decided: bool, actor: string, a: Attempt)
    requires !a.faults.writeState && a.fetch == Emails(list) && list != []
    requires StatusFor(cfg, g, a) == if a.faults.apply && Difference(list, g.members) != 0 then Failed else Ok
    ensures Attends(g, Applied(g, list, decided, actor, a).0, News(cfg, g, a))
  {
  }

  lemma HoldAttends(g: Group, list: seq<string>, since: Option<int>, a: Attempt)
    requires !a.faults.writeState
    ensures Attends(g, Holding(g, list, since, a).0,
                    g.record.status != Held || g.record.pending != Digest(Elements(list))
                      || g.record.heldSince != since)
  {
  }

  /** A sync that records a result asks for attention exactly when it is news. */
  lemma AttentionExactly(cfg: Config, g: Group, a: Attempt)
    requires Distinct(g.members) && Distinct(g.record.accepted) && WellFormed(Sync(a))
    requires Attempted(cfg, g, a).1.Recorded?
    ensures Attends(g, Attempted(cfg, g, a).0, News(cfg, g, a))
  {
    OutcomeExactly(cfg, g, a);
    if a.fetch.Emails? && a.fetch.list != [] && !a.faults.readGroup && !a.faults.readMembers {
      DecidedAttends(cfg, g, a.fetch.list, a);
    } else {
      FinishAttends(g, Blank(g, a.now), StatusFor(cfg, g, a), a);
    }
  }

  /** Every outcome of a Keep, and the one change it makes. */
  lemma KeepExactly(g: Group, hash: Digest, readFails: bool, writeFails: bool)
    ensures var (g', o) := KeptChange(g, hash, readFails, writeFails);
            var shown := g.record.status == Held && hash != NoDigest && hash == g.record.pending;
            && (o == Unreadable <==> readFails)
            && (o == AlreadyApplied <==>
                  !readFails && g.record.status != Held && hash != NoDigest
                    && hash == Digest(Elements(g.record.accepted)))
            && (o == NotHeld <==> !readFails && g.record.status != Held && hash != Digest(Elements(g.record.accepted)))
            && (o == Replaced <==> !readFails && g.record.status == Held && !shown)
            && (o == KeepFailed <==> !readFails && shown && writeFails)
            && (o == Kept <==> !readFails && shown && !writeFails)
            && g' == g.(record := g.record.(kept := if o == Kept then hash else g.record.kept))
  {
  }

  /** The feed offers the group no list but this one, and nobody accepts anything. */
  ghost predicate OnlyOffers(es: seq<Event>, list: seq<string>) {
    forall i :: 0 <= i < |es| ==> Offered(es[i], list)
  }

  ghost predicate Offered(e: Event, list: seq<string>) {
    e.Sync? ==> e.a.accept == NoDigest && WellFormed(e)
                && (e.a.fetch.Emails? ==> e.a.fetch.list == [] || Elements(e.a.fetch.list) == Elements(list))
  }

  lemma TooLargeStays(cfg: Config, g: Group, e: Event, list: seq<string>)
    requires Distinct(g.members) && Distinct(g.record.accepted) && Distinct(list) && Offered(e, list)
    requires !cfg.rotating && !WithinSize(g, list) && !SmallChange(g, list) && Elements(list) != Elements(g.members)
    ensures After(cfg, g, e).members == g.members && After(cfg, g, e).record.accepted == g.record.accepted
  {
    if e.Sync? && e.a.fetch.Emails? && e.a.fetch.list != [] {
      var other := e.a.fetch.list;
      DistinctSize(other);
      DistinctSize(list);
      NeedsHoldExactly(g, other);
      WaitedOutExactly(cfg, g, other, e.a.now);
      SameElements(other, g.members);
    }
  }

  /** A big change outside the size bounds never moves the members of a group that does
      not rotate, however often and however late the feed offers it, unless somebody
      accepts it. */
  lemma {:induction false} TooLargeNeverApplied(cfg: Config, g: Group, es: seq<Event>, list: seq<string>)
    requires Distinct(g.members) && Distinct(g.record.accepted) && Distinct(list) && OnlyOffers(es, list)
    requires !cfg.rotating && !WithinSize(g, list) && !SmallChange(g, list) && Elements(list) != Elements(g.members)
    ensures Run(cfg, g, es).members == g.members && Run(cfg, g, es).record.accepted == g.record.accepted
    decreases |es|
  {
    if es == [] {
    } else {
      assert Offered(es[0], list);
      TooLargeStays(cfg, g, es[0], list);
      TooLargeNeverApplied(cfg, After(cfg, g, es[0]), es[1..], list);
    }
  }

  // ---------- the standing facts ----------

  /** A held change's lists are exactly what applying it would do. */
  ghost predicate PendingExact(g: Group) {
    g.record.status == Held ==>
      && g.record.pending.Digest?
      && Distinct(g.record.pendingAdd) && Distinct(g.record.pendingRemove)
      && Elements(g.record.pendingAdd) == g.record.pending.of - Elements(g.members)
      && Elements(g.record.pendingRemove) == Elements(g.members) - g.record.pending.of
  }

  /** Members stay near the list last accepted. */
  ghost predicate NearAccepted(g: Group) {
    g.record.accepted != [] ==>
      Near(g.record.accepted, Elements(g.members))
  }

  ghost predicate Standing(g: Group) {
    && Distinct(g.members) && Distinct(g.record.accepted)
    && PendingExact(g) && NearAccepted(g)
  }

  lemma HoldingStands(g: Group, list: seq<string>, since: Option<int>, a: Attempt)
    requires Standing(g) && Distinct(list)
    ensures Standing(Holding(g, list, since, a).0)
  {
    MissingIsDifference(list, g.members);
    MissingIsDifference(g.members, list);
  }

  lemma AppliedResult(g: Group, list: seq<string>, decided: bool, actor: string, a: Attempt)
    requires !a.faults.writeState
    ensures var g' := Applied(g, list, decided, actor, a).0;
            var fails := Difference(list, g.members) != 0 && a.faults.apply;
            && g'.record.status == (if fails then Failed else Ok)
            && g'.members == (if fails then g else Filled(g, list, actor)).members
            && g'.record.accepted == if !fails && (decided || g.record.accepted == []) then list else g.record.accepted
  {
  }

  lemma AppliedStands(g: Group, list: seq<string>, decided: bool, actor: string, a: Attempt)
    requires Standing(g) && Distinct(list) && list != [] && !a.faults.writeState
    requires decided || Difference(list, g.members) == 0 || !NeedsHold(g, list)
    ensures Standing(Applied(g, list, decided, actor, a).0)
  {
    AppliedResult(g, list, decided, actor, a);
    FilledMembers(g, list, actor);
    SameElements(list, g.members);
    SameElements(g.record.accepted, list);
  }

  lemma DecidedStands(cfg: Config, g: Group, list: seq<string>, a: Attempt)
    requires Standing(g) && Distinct(list) && list != [] && !a.faults.writeState
    ensures Standing(Decided(cfg, g, list, a).0)
  {
    var accept := a.accept != NoDigest;
    if accept && g.record.pending != Digest(Elements(list)) {
      HoldingStands(g, list, if 0 < cfg.wait && !Refused(cfg, g, list) then Some(a.now) else None, a);
    } else if !accept && Difference(list, g.members) != 0 && NeedsHold(g, list) {
      if WaitedOut(cfg, g, list, a.now) {
        AppliedStands(g, list, true, FEED_ACTOR, a);
      } else {
        HoldingStands(g, list, WaitStart(cfg, g, list, a.now), a);
      }
    } else {
      AppliedStands(g, list, accept, a.actor, a);
    }
  }

  lemma StepStands(cfg: Config, g: Group, e: Event)
    requires Standing(g) && WellFormed(e) && (e.Sync? ==> !e.a.faults.writeState)
    ensures Standing(After(cfg, g, e))
  {
    if e.Sync? && e.a.fetch.Emails? && e.a.fetch.list != [] {
      DecidedStands(cfg, g, e.a.fetch.list, e.a);
    }
  }

  /** Over every run whose state writes succeed: a held change's add and remove
      lists are exact, and once a list has been accepted the members differ from
      it by at most max(3, a quarter of it), whatever the feed returned. */
  lemma {:induction false} RunStands(cfg: Config, g: Group, es: seq<Event>)
    requires Standing(g) && AllWellFormed(es) && WritesSucceed(es)
    ensures Standing(Run(cfg, g, es))
    decreases |es|
  {
    if es == [] {
    } else {
      StepStands(cfg, g, es[0]);
      RunStands(cfg, After(cfg, g, es[0]), es[1..]);
    }
  }

  /** A group no sync has touched starts out so. */
  lemma FreshStands(members: seq<string>)
    requires Distinct(members)
    ensures Standing(Fresh(members))
  {
  }

  /** The sync applies a change that an administrator accepted, or that waited out. */
  predicate AppliesDecided(cfg: Config, g: Group, a: Attempt) {
    && Feasible(g, a)
    && if a.accept != NoDigest then AcceptsHeld(g, a)
       else !SmallChange(g, a.fetch.list) && WaitOver(cfg, g, a.fetch.list, a.now)
  }

  /** The list is now close enough to the members and to the accepted list to be
      applied without holding it, and every store call that takes works. */
  predicate AppliesDirectly(g: Group, a: Attempt) {
    && a.fetch.Emails? && a.fetch.list != [] && Elements(a.fetch.list) != Elements(g.members)
    && !NeedsHold(g, a.fetch.list)
    && !a.faults.readState && !a.faults.readGroup && !a.faults.readMembers && !a.faults.apply
  }

  /** With the state write failing, the record stays. */
  lemma UnrecordedStays(cfg: Config, g: Group, a: Attempt)
    requires a.faults.writeState
    ensures Attempted(cfg, g, a).0.record == g.record
  {
  }

  /** A failed state write is the one way to lose the drift bound, and it does so
      exactly when the change it fails to record was accepted or waited out and is
      further from the recorded accepted list than the bound: the members move and
      the accepted list does not. */
  lemma DriftLostExactly(cfg: Config, g: Group, a: Attempt)
    requires Standing(g) && WellFormed(Sync(a))
    ensures !NearAccepted(Attempted(cfg, g, a).0) <==>
              && a.faults.writeState && g.record.accepted != [] && AppliesDecided(cfg, g, a)
              && !Near(g.record.accepted, Elements(a.fetch.list))
  {
    if !a.faults.writeState {
      StepStands(cfg, g, Sync(a));
    } else {
      MovesExactly(cfg, g, a);
      UnrecordedStays(cfg, g, a);
    }
  }

  lemma PendingIsPinned(pending: set<string>, members: set<string>, moved: set<string>)
    ensures pending - moved == pending - members && moved - pending == members - pending <==> moved == members
  {
    assert moved == (moved - pending) + (pending - (pending - moved));
    assert members == (members - pending) + (pending - (pending - members));
  }

  /** A failed state write is also the one way to leave a held change's lists out of
      date, and it does so exactly when the sync then moves the members: they move
      and the record of the held change stays. */
  lemma PendingLostExactly(cfg: Config, g: Group, a: Attempt)
    requires Standing(g) && WellFormed(Sync(a))
    ensures !PendingExact(Attempted(cfg, g, a).0) <==>
              && a.faults.writeState && g.record.status == Held
              && (AppliesDecided(cfg, g, a) || (a.accept == NoDigest && AppliesDirectly(g, a)))
  {
    if !a.faults.writeState {
      StepStands(cfg, g, Sync(a));
    } else {
      MovesExactly(cfg, g, a);
      UnrecordedStays(cfg, g, a);
      StepKeepsDistinct(cfg, g, a);
      if a.fetch.Emails? {
        NeedsHoldExactly(g, a.fetch.list);
      }
      if g.record.status == Held {
        PendingIsPinned(g.record.pending.of, Elements(g.members), Elements(Attempted(cfg, g, a).0.members));
      }
    }
  }

  const NO_FAULTS := Faults(false, false, false, false, false)

  function Plain(now: int, list: seq<string>): Attempt { Attempt(now, "x", NoDigest, false, Emails(list), NO_FAULTS) }

  /** The first list a group's feed gives, if it is the members it has, is accepted. */
  lemma FirstSync(cfg: Config, list: seq<string>, now: int)
    requires Distinct(list) && list != []
    ensures var g := Attempted(cfg, Fresh(list), Plain(now, list)).0;
            g.members == list && g.record.accepted == list && g.record.status == Ok && g.record.kept == NoDigest
  {
    SameElements(list, list);
  }

  /** A change that is big enough is held when it is first seen. */
  lemma BigSync(cfg: Config, g: Group, list: seq<string>, now: int)
    requires list != [] && g.record.status == Ok && NeedsHold(g, list) && Difference(list, g.members) != 0
    ensures var g' := Attempted(cfg, g, Plain(now, list)).0;
            && g'.record.status == Held && g'.record.pending == Digest(Elements(list))
            && g'.members == g.members && g'.record.accepted == g.record.accepted
  {
  }

  lemma RunOf2(cfg: Config, g: Group, e0: Event, e1: Event)
    ensures Run(cfg, g, [e0, e1]) == After(cfg, After(cfg, g, e0), e1)
  {
    assert [e0, e1][1..] == [e1] && [e1][1..] == [];
    assert Run(cfg, After(cfg, g, e0), [e1]) == After(cfg, After(cfg, g, e0), e1);
  }

  const DRIFTED: seq<Event> := [Sync(Plain(1, ["a"])), Sync(Plain(1, ["b", "c", "d", "e"]))]

  lemma FiveApart(was: seq<string>, list: seq<string>)
    requires was == ["a"] && list == ["b", "c", "d", "e"]
    ensures Distinct(was) && Distinct(list)
    ensures Apart(Elements(was), Elements(list)) == 5
  {
    assert was[0][0] == 'a' && list[0][0] == 'b' && list[1][0] == 'c' && list[2][0] == 'd' && list[3][0] == 'e';
    DistinctSize(was);
    DistinctSize(list);
    assert Elements(list) - Elements(was) == Elements(list) && Elements(was) - Elements(list) == Elements(was);
  }

  lemma HeldAfterTwo(was: seq<string>, list: seq<string>)
    requires was == ["a"] && list == ["b", "c", "d", "e"]
    ensures var g := Run(Config(0, false), Fresh(was), DRIFTED);
            && g.record.status == Held && g.record.pending == Digest(Elements(list))
            && g.record.accepted == was && g.members == was
  {
    var cfg := Config(0, false);
    var g0 := Fresh(was);
    var g1 := After(cfg, g0, DRIFTED[0]);
    FiveApart(was, list);
    FirstSync(cfg, was, 1);
    SameElements(was, list);
    SameElements(list, was);
    BigSync(cfg, g1, list, 1);
    var g2 := After(cfg, g1, DRIFTED[1]);
    RunOf2(cfg, g0, DRIFTED[0], DRIFTED[1]);
    assert DRIFTED == [DRIFTED[0], DRIFTED[1]];
  }

  lemma UnwrittenAccept(cfg: Config, g: Group, was: seq<string>, list: seq<string>, a: Attempt)
    requires Standing(g) && g.record.status == Held && g.record.pending == Digest(Elements(list))
    requires g.record.accepted == was == g.members && |was| == 1 && Apart(Elements(was), Elements(list)) == 5
    requires Distinct(list) && list != [] && a.accept == g.record.pending && a.fetch == Emails(list)
    requires a.faults == NO_FAULTS.(writeState := true)
    ensures !NearAccepted(Attempted(cfg, g, a).0) && !PendingExact(Attempted(cfg, g, a).0)
  {
    DriftLostExactly(cfg, g, a);
    PendingLostExactly(cfg, g, a);
  }

  /** It happens: from a fresh group, an accepted change whose record cannot be
      written leaves five addresses apart where three are allowed, and the lists of
      the change as they were before it was made. */
  lemma StandingNeedsTheWrite()
    ensures var g := Run(Config(0, false), Fresh(["a"]), DRIFTED);
            var a := Attempt(2, "x", g.record.pending, false, Emails(["b", "c", "d", "e"]),
                             NO_FAULTS.(writeState := true));
            var g' := Attempted(Config(0, false), g, a).0;
            Standing(g) && !NearAccepted(g') && !PendingExact(g')
  {
    var cfg, was, list := Config(0, false), ["a"], ["b", "c", "d", "e"];
    var g := Run(cfg, Fresh(was), DRIFTED);
    FiveApart(was, list);
    FreshStands(was);
    RunStands(cfg, Fresh(was), DRIFTED);
    HeldAfterTwo(was, list);
    var a := Attempt(2, "x", g.record.pending, false, Emails(list), NO_FAULTS.(writeState := true));
    UnwrittenAccept(cfg, g, was, list, a);
  }

  // ---------- accepting a held change ----------

  lemma {:induction false} AddEventsCount(actor: string, xs: seq<string>, e: string)
    requires Distinct(xs)
    ensures multiset(seq(|xs|, i requires 0 <= i < |xs| => AddedMember(actor, xs[i])))[AddedMember(actor, e)] ==
            if e in xs then 1 else 0
    ensures multiset(seq(|xs|, i requires 0 <= i < |xs| => AddedMember(actor, xs[i])))[RemovedMember(actor, e)] == 0
  {
    if xs == [] {
    } else {
      var front, last := xs[..|xs| - 1], xs[|xs| - 1];
      AddEventsCount(actor, front, e);
      assert seq(|xs|, i requires 0 <= i < |xs| => AddedMember(actor, xs[i]))
          == seq(|front|, i requires 0 <= i < |front| => AddedMember(actor, front[i])) + [AddedMember(actor, last)];
      assert e in xs <==> e in front || e == last;
    }
  }

  lemma {:induction false} RemoveEventsCount(actor: string, xs: seq<string>, e: string)
    requires Distinct(xs)
    ensures multiset(seq(|xs|, i requires 0 <= i < |xs| => RemovedMember(actor, xs[i])))[RemovedMember(actor, e)] ==
            if e in xs then 1 else 0
    ensures multiset(seq(|xs|, i requires 0 <= i < |xs| => RemovedMember(actor, xs[i])))[AddedMember(actor, e)] == 0
  {
    if xs == [] {
    } else {
      var front, last := xs[..|xs| - 1], xs[|xs| - 1];
      RemoveEventsCount(actor, front, e);
      assert seq(|xs|, i requires 0 <= i < |xs| => RemovedMember(actor, xs[i]))
          == seq(|front|, i requires 0 <= i < |front| => RemovedMember(actor, front[i])) + [RemovedMember(actor, last)];
      assert e in xs <==> e in front || e == last;
    }
  }

  lemma AuditCounts(actor: string, add: seq<string>, remove: seq<string>, e: string)
    requires Distinct(add) && Distinct(remove)
    ensures multiset(AuditEvents(actor, add, remove))[AddedMember(actor, e)] == if e in add then 1 else 0
    ensures multiset(AuditEvents(actor, add, remove))[RemovedMember(actor, e)] == if e in remove then 1 else 0
  {
    AddEventsCount(actor, add, e);
    RemoveEventsCount(actor, remove, e);
  }

  /** Every store call an accepted change needs succeeds, and the feed still returns it. */
  predicate AcceptGoesThrough(g: Group, a: Attempt)
    requires g.record.pending.Digest?
  {
    && a.fetch.Emails? && a.fetch.list != [] && Elements(a.fetch.list) == g.record.pending.of
    && !a.faults.readState && !a.faults.readGroup && !a.faults.readMembers
    && (a.faults.apply ==> g.record.pending.of == Elements(g.members))
  }

  /** Accepting the change that was shown either makes the members exactly the set
      whose digest was shown, with one audit event for each address that comes or
      goes, which are those the page listed if its lists are up to date; or it
      changes no member. Which of the two is decided by the fetch and the store alone. */
  lemma AcceptIsExact(cfg: Config, g: Group, a: Attempt, e: string)
    requires Distinct(g.members) && WellFormed(Sync(a)) && g.record.status == Held && a.accept == g.record.pending
             && a.accept.Digest?
    ensures var g' := Attempted(cfg, g, a).0;
            var came := e in g.record.pending.of - Elements(g.members);
            var went := e in Elements(g.members) - g.record.pending.of;
            && (PendingExact(g) ==> (came <==> e in g.record.pendingAdd) && (went <==> e in g.record.pendingRemove))
            && if AcceptGoesThrough(g, a) then
                 && Elements(g'.members) == g.record.pending.of && Distinct(g'.members)
                 && g.audit <= g'.audit
                 && multiset(g'.audit[|g.audit|..])[AddedMember(a.actor, e)] == (if came then 1 else 0)
                 && multiset(g'.audit[|g.audit|..])[RemovedMember(a.actor, e)] == (if went then 1 else 0)
               else
                 g'.members == g.members && g'.audit == g.audit
  {
    assert e in g.record.pendingAdd <==> e in Elements(g.record.pendingAdd);
    assert e in g.record.pendingRemove <==> e in Elements(g.record.pendingRemove);
    if AcceptGoesThrough(g, a) {
      SameElements(a.fetch.list, g.members);
      AcceptFills(cfg, g, a);
      FilledMembers(g, a.fetch.list, a.actor);
      FilledAudit(g, a.fetch.list, a.actor, e);
    } else {
      if a.fetch.Emails? {
        SameElements(a.fetch.list, g.members);
      }
      OtherwiseNothingMoves(cfg, g, a);
    }
  }

  lemma AcceptFills(cfg: Config, g: Group, a: Attempt)
    requires g.record.status == Held && a.accept == g.record.pending && g.record.pending.Digest?
             && AcceptGoesThrough(g, a)
    requires a.faults.apply ==> Difference(a.fetch.list, g.members) == 0
    ensures Attempted(cfg, g, a).0.members == Filled(g, a.fetch.list, a.actor).members
    ensures Attempted(cfg, g, a).0.audit == Filled(g, a.fetch.list, a.actor).audit
  {
  }

  lemma OtherwiseNothingMoves(cfg: Config, g: Group, a: Attempt)
    requires g.record.status == Held && a.accept == g.record.pending && a.accept.Digest? && !AcceptGoesThrough(g, a)
    requires a.fetch.Emails? ==>
             (Difference(a.fetch.list, g.members) == 0 <==> Elements(a.fetch.list) == Elements(g.members))
    ensures Attempted(cfg, g, a).0.members == g.members && Attempted(cfg, g, a).0.audit == g.audit
  {
  }

  /** Filling writes one audit event for each address that comes or goes. */
  lemma FilledAudit(g: Group, list: seq<string>, actor: string, e: string)
    requires Distinct(g.members) && Distinct(list)
    ensures var now := Filled(g, list, actor).audit;
            && g.audit <= now
            && multiset(now[|g.audit|..])[AddedMember(actor, e)] ==
              (if e in Elements(list) - Elements(g.members) then 1 else 0)
            && multiset(now[|g.audit|..])[RemovedMember(actor, e)] ==
              (if e in Elements(g.members) - Elements(list) then 1 else 0)
  {
    var add, remove := Missing(list, g.members), Missing(g.members, list);
    MissingIsDifference(list, g.members);
    MissingIsDifference(g.members, list);
    AuditCounts(actor, add, remove, e);
    assert e in add <==> e in Elements(add);
    assert e in remove <==> e in Elements(remove);
    var now := Filled(g, list, actor).audit;
    if add == [] && remove == [] {
      assert now[|g.audit|..] == [];
    } else {
      assert now[|g.audit|..] == AuditEvents(actor, add, remove);
    }
  }

  // ---------- what the wait guarantees ----------

  /** One recorded sync, as a reader of the sync state and the alerts sees it. */
  datatype Note = Note(at: int, status: Status, pending: Digest, alerted: bool)

  function NoteOf(cfg: Config, g: Group, e: Event): seq<Note> {
    if e.Sync? && Attempted(cfg, g, e.a).1.Recorded? then
      var g' := Attempted(cfg, g, e.a).0;
      [Note(e.a.now, g'.record.status, g'.record.pending, |g.alerts| < |g'.alerts|)]
    else []
  }

  function History(cfg: Config, g: Group, es: seq<Event>): seq<Note>
    decreases |es|
  {
    if es == [] then [] else NoteOf(cfg, g, es[0]) + History(cfg, After(cfg, g, es[0]), es[1..])
  }

  /** The sync fails and leaves the matter to a retry. */
  predicate LeftToRetry(cfg: Config, g: Group, e: Event) { e.Sync? && Attempted(cfg, g, e.a).1 == WillRetry }

  /** A run without the syncs that were left to a retry. */
  function WithoutRetries(cfg: Config, g: Group, es: seq<Event>): seq<Event>
    decreases |es|
  {
    if es == [] then []
    else (if LeftToRetry(cfg, g, es[0]) then [] else [es[0]]) + WithoutRetries(cfg, After(cfg, g, es[0]), es[1..])
  }

  lemma RetryKeeps(cfg: Config, g: Group, e: Event)
    requires LeftToRetry(cfg, g, e)
    ensures After(cfg, g, e) == g && NoteOf(cfg, g, e) == []
  {
  }

  lemma RunsOn(cfg: Config, g: Group, e: Event, rest: seq<Event>)
    ensures Run(cfg, g, [e] + rest) == Run(cfg, After(cfg, g, e), rest)
    ensures History(cfg, g, [e] + rest) == NoteOf(cfg, g, e) + History(cfg, After(cfg, g, e), rest)
  {
    assert ([e] + rest)[1..] == rest;
  }

  /** Failures left to a retry leave no trace: the group, its record, its waits and
      the history are those of the run without them, however many there are. */
  lemma {:induction false} RetriesLeaveNoTrace(cfg: Config, g: Group, es: seq<Event>)
    ensures Run(cfg, g, WithoutRetries(cfg, g, es)) == Run(cfg, g, es)
    ensures History(cfg, g, WithoutRetries(cfg, g, es)) == History(cfg, g, es)
    decreases |es|
  {
    if es == [] {
    } else {
      var e, g' := es[0], After(cfg, g, es[0]);
      var rest := WithoutRetries(cfg, g', es[1..]);
      RetriesLeaveNoTrace(cfg, g', es[1..]);
      if LeftToRetry(cfg, g, e) {
        RetryKeeps(cfg, g, e);
        assert [] + rest == rest && [] + History(cfg, g, es[1..]) == History(cfg, g, es[1..]);
      } else {
        RunsOn(cfg, g, e, rest);
      }
    }
  }

  /** From note m on, every recorded sync held the change; m sent an alert. */
  ghost predicate HeldFrom(log: seq<Note>, m: nat, change: Digest) {
    m < |log| && log[m].alerted && forall j :: m <= j < |log| ==> log[j].status == Held && log[j].pending == change
  }

  /** A running wait began at a recorded sync that alerted, and the change has been held ever since. */
  ghost predicate WaitIsReal(g: Group, log: seq<Note>) {
    g.record.status == Held && g.record.heldSince.Some? ==>
      exists m: nat :: HeldFrom(log, m, g.record.pending) && Truncated(log[m].at) == g.record.heldSince.value
  }

  /** A result leaves no wait running, or the one that was running, or starts one now with an alert. */
  ghost predicate WaitMoves(g: Group, r: (Group, Outcome), a: Attempt) {
    if r.1.Recorded? then
      r.0.record.status == Held && r.0.record.heldSince.Some? ==>
        || (g.record.status == Held && g.record.pending == r.0.record.pending
            && g.record.heldSince.Some? && r.0.record.heldSince == Some(Truncated(g.record.heldSince.value)))
        || (r.0.record.heldSince == Some(Truncated(a.now)) && |g.alerts| < |r.0.alerts|)
    else r.0.record == g.record
  }

  lemma TruncatedOnce(t: int)
    ensures Truncated(Truncated(t)) == Truncated(t) && t - SECOND < Truncated(t) <= t
  {
  }

  lemma AttemptWaitMoves(cfg: Config, g: Group, a: Attempt)
    ensures WaitMoves(g, Attempted(cfg, g, a), a)
  {
  }

  lemma StepWaitIsReal(cfg: Config, g: Group, e: Event, log: seq<Note>)
    requires WaitIsReal(g, log)
    ensures WaitIsReal(After(cfg, g, e), log + NoteOf(cfg, g, e))
  {
    match e
    case Keep(_, _, _) => assert log + [] == log;
    case Sync(a) =>
      var r := Attempted(cfg, g, a);
      AttemptWaitMoves(cfg, g, a);
      NotedWaitIsReal(g, r, a, log);
  }

  lemma NotedWaitIsReal(g: Group, r: (Group, Outcome), a: Attempt, log: seq<Note>)
    requires WaitIsReal(g, log) && WaitMoves(g, r, a)
    ensures WaitIsReal(r.0,
                       log + if r.1.Recorded? then
                               [Note(a.now, r.0.record.status, r.0.record.pending, |g.alerts| < |r.0.alerts|)] else [])
  {
    if !r.1.Recorded? {
      assert log + [] == log;
    } else if r.0.record.status == Held && r.0.record.heldSince.Some? {
      var log' := log + [Note(a.now, Held, r.0.record.pending, |g.alerts| < |r.0.alerts|)];
      if g.record.status == Held && g.record.pending == r.0.record.pending && g.record.heldSince.Some?
         && r.0.record.heldSince == Some(Truncated(g.record.heldSince.value)) {
        var m: nat :| HeldFrom(log, m, g.record.pending) && Truncated(log[m].at) == g.record.heldSince.value;
        TruncatedOnce(log[m].at);
        assert HeldFrom(log', m, r.0.record.pending);
      } else {
        assert HeldFrom(log', |log|, r.0.record.pending);
      }
    }
  }

  lemma {:induction false} RunWaitIsReal(cfg: Config, g: Group, es: seq<Event>, log: seq<Note>)
    requires WaitIsReal(g, log)
    ensures WaitIsReal(Run(cfg, g, es), log + History(cfg, g, es))
    decreases |es|
  {
    if es == [] {
      assert log + [] == log;
    } else {
      StepWaitIsReal(cfg, g, es[0], log);
      RunWaitIsReal(cfg, After(cfg, g, es[0]), es[1..], log + NoteOf(cfg, g, es[0]));
      assert log + NoteOf(cfg, g, es[0]) + History(cfg, After(cfg, g, es[0]), es[1..]) == log + History(cfg, g, es);
    }
  }

  /** This sync moves the members by a change big enough to hold, and nobody accepted it. */
  ghost predicate AppliesUnasked(cfg: Config, g: Group, a: Attempt) {
    && a.accept == NoDigest && a.fetch.Emails? && NeedsHold(g, a.fetch.list)
    && Attempted(cfg, g, a).0.members != g.members
  }

  lemma UnaskedMeansWaited(cfg: Config, g: Group, a: Attempt)
    requires AppliesUnasked(cfg, g, a)
    ensures WaitedOut(cfg, g, a.fetch.list, a.now)
  {
  }

  /** A recorded sync alerted on the change, in a second that began at least `wait`
      ago, and every one since has held it. */
  ghost predicate WatchedFor(log: seq<Note>, change: Digest, wait: nat, now: int) {
    exists m: nat :: HeldFrom(log, m, change) && Truncated(log[m].at) + wait <= now
  }

  /** However a run goes, a big change is applied unasked only after a recorded
      sync alerted on it, in a second that began at least the full wait earlier, and
      every recorded sync since has held that same set; it is not the change an administrator has
      kept, and unless the group rotates it does not more than halve or double it. */
  lemma WaitedChangeWasWatched(cfg: Config, members: seq<string>, es: seq<Event>, a: Attempt)
    requires AppliesUnasked(cfg, Run(cfg, Fresh(members), es), a)
    ensures var g, log := Run(cfg, Fresh(members), es), History(cfg, Fresh(members), es);
            var change := Digest(Elements(a.fetch.list));
            && 0 < cfg.wait && g.record.kept != change
            && (cfg.rotating || WithinSize(g, a.fetch.list))
            && WatchedFor(log, change, cfg.wait, a.now)
  {
    var g, log := Run(cfg, Fresh(members), es), History(cfg, Fresh(members), es);
    var change := Digest(Elements(a.fetch.list));
    RunWaitIsReal(cfg, Fresh(members), es, []);
    assert [] + log == log;
    UnaskedMeansWaited(cfg, g, a);
    assert g.record.status == Held && g.record.pending == change && g.record.heldSince.Some?;
    assert WaitIsReal(g, log);
    var m: nat :| HeldFrom(log, m, g.record.pending) && Truncated(log[m].at) == g.record.heldSince.value;
    assert HeldFrom(log, m, change) && Truncated(log[m].at) + cfg.wait <= a.now;
  }

  /** The wait runs from the start of the second in which the change was first held:
      exactly when the next sync to see the change applies it, with nobody accepting. */
  lemma WaitCountsWholeSeconds(cfg: Config, g: Group, list: seq<string>, t: int, u: int)
    requires Distinct(g.members) && Distinct(list) && list != [] && Elements(list) != Elements(g.members)
    requires g.record.status == Ok && Distinct(g.record.accepted) && !SmallChange(g, list)
    requires (cfg.rotating || WithinSize(g, list)) && g.record.kept != Digest(Elements(list))
    ensures var held := After(cfg, g, Sync(Plain(t, list)));
            && held.members == g.members
            && (Elements(After(cfg, held, Sync(Plain(u, list))).members) == Elements(list) <==>
                0 < cfg.wait && 0 < Unix(t) && Truncated(t) + cfg.wait <= u)
  {
    SameElements(list, g.members);
    NeedsHoldExactly(g, list);
    var held := After(cfg, g, Sync(Plain(t, list)));
    BigSync(cfg, g, list, t);
    HeldSinceItsSecond(cfg, g, list, t);
    FilledMembers(held, list, FEED_ACTOR);
    SeenAgain(cfg, held, list, u);
  }

  lemma HeldSinceItsSecond(cfg: Config, g: Group, list: seq<string>, t: int)
    requires list != [] && g.record.status == Ok && NeedsHold(g, list) && Difference(list, g.members) != 0
    requires !Refused(cfg, g, list) && g.record.kept != Digest(Elements(list))
    ensures var held := After(cfg, g, Sync(Plain(t, list)));
            && held.record.heldSince == (if 0 < cfg.wait && 0 < Unix(t) then Some(Truncated(t)) else None)
            && held.record.kept == g.record.kept
  {
  }

  /** The second sync of a held change either fills the group or moves nobody. */
  lemma SeenAgain(cfg: Config, g: Group, list: seq<string>, u: int)
    requires list != [] && g.record.status == Held && g.record.pending == Digest(Elements(list))
    requires NeedsHold(g, list) && !Refused(cfg, g, list) && Difference(list, g.members) != 0
    requires g.record.kept != Digest(Elements(list)) && (cfg.wait == 0 ==> g.record.heldSince == None)
    ensures var since := g.record.heldSince;
            After(cfg, g, Sync(Plain(u, list))).members ==
            if 0 < cfg.wait && since.Some? && since.value + cfg.wait <= u then Filled(g, list, FEED_ACTOR).members
            else g.members
  {
  }

  lemma HeldThenSeenAgain(cfg: Config, was: seq<string>, list: seq<string>, t: int, first: int, u: int)
    requires Distinct(was) && Distinct(list) && |was| == 1 && |list| == 4 && Apart(Elements(was), Elements(list)) == 5
    ensures var held := Run(cfg, Fresh(was), [Sync(Plain(t, was)), Sync(Plain(first, list))]);
            && held.members == was
            && (Elements(After(cfg, held, Sync(Plain(u, list))).members) == Elements(list) <==>
                0 < cfg.wait && 0 < Unix(first) && Truncated(first) + cfg.wait <= u)
  {
    RunOf2(cfg, Fresh(was), Sync(Plain(t, was)), Sync(Plain(first, list)));
    FirstSync(cfg, was, t);
    SameElements(was, list);
    SameElements(list, was);
    WaitCountsWholeSeconds(cfg, After(cfg, Fresh(was), Sync(Plain(t, was))), list, first, u);
  }

  lemma PartOfASecond(t: int, u: int)
    requires SECOND <= t && u == t - t % SECOND
    ensures 0 < Unix(t) && Truncated(t) == u
  {
  }

  /** So a change can be applied up to a second before it has been held for the full
      wait: four addresses for one, first held part way through a second, are let in
      by that part of a second early. */
  lemma WaitEndsEarly(cfg: Config, was: seq<string>, list: seq<string>, t: int, first: int, sooner: int)
    requires Distinct(was) && Distinct(list) && |was| == 1 && |list| == 4 && Apart(Elements(was), Elements(list)) == 5
    requires 0 < cfg.wait && SECOND <= first && sooner == first - first % SECOND + cfg.wait
    ensures var held := Run(cfg, Fresh(was), [Sync(Plain(t, was)), Sync(Plain(first, list))]);
            && held.members == was
            && Elements(After(cfg, held, Sync(Plain(sooner, list))).members) == Elements(list)
  {
    PartOfASecond(first, first - first % SECOND);
    HeldThenSeenAgain(cfg, was, list, t, first, sooner);
  }

  // ---------- what is announced ----------

  /** A change announced to the administrators. */
  predicate TellsOfMove(alert: Alert) { alert.MembersChanged? }

  /** What a result announces: nothing if somebody accepted it or nobody moved, and
      otherwise exactly who came and who went. */
  ghost predicate Announces(g: Group, g': Group, a: Attempt) {
    && g.alerts <= g'.alerts && |g'.alerts| <= |g.alerts| + 1
    && if a.accept != NoDigest || Elements(g'.members) == Elements(g.members) then
         g.alerts < g'.alerts ==> !TellsOfMove(g'.alerts[|g.alerts|])
       else
         && g.alerts < g'.alerts && TellsOfMove(g'.alerts[|g.alerts|])
         && var told := g'.alerts[|g.alerts|];
            && told.at == a.now && (a.fetch.Emails? && told.waited == NeedsHold(g, a.fetch.list))
            && Elements(told.add) == Elements(g'.members) - Elements(g.members)
            && Elements(told.remove) == Elements(g.members) - Elements(g'.members)
  }

  /** A sync announces a change exactly when it makes one that nobody accepted,
      naming exactly who came and who went and whether it had waited; also when
      the record of it cannot be written. */
  lemma MoveIsAnnounced(cfg: Config, g: Group, a: Attempt)
    requires Distinct(g.members) && WellFormed(Sync(a))
    ensures Announces(g, Attempted(cfg, g, a).0, a)
  {
    if a.fetch.Emails? && a.fetch.list != [] {
      DecidedAnnounces(cfg, g, a.fetch.list, a);
    } else {
      FinishAnnounces(g, Blank(g, a.now), Failed, a);
      FinishAnnounces(g, Blank(g, a.now), Empty, a);
    }
    FinishAnnounces(g, Blank(g, a.now), Failed, a);
  }

  lemma FinishAnnounces(g: Group, st: Record, status: Status, a: Attempt)
    ensures Announces(g, Finished(g, st, status, a).0, a)
  {
  }

  lemma AppliedAnnounces(g: Group, list: seq<string>, decided: bool, actor: string, a: Attempt)
    requires Distinct(g.members) && Distinct(list) && a.fetch == Emails(list)
    requires a.accept == NoDigest && Difference(list, g.members) != 0 ==> decided == NeedsHold(g, list)
    ensures Announces(g, Applied(g, list, decided, actor, a).0, a)
  {
    if Difference(list, g.members) != 0 && a.faults.apply {
      FinishAnnounces(g, Blank(g, a.now), Failed, a);
    } else {
      var g' := Applied(g, list, decided, actor, a).0;
      assert g'.members == Filled(g, list, actor).members && g'.alerts == Announced(g, list, decided, a).alerts;
      FilledMembers(g, list, actor);
      SameElements(list, g.members);
      MissingIsDifference(list, g.members);
      MissingIsDifference(g.members, list);
    }
  }

  lemma DecidedAnnounces(cfg: Config, g: Group, list: seq<string>, a: Attempt)
    requires Distinct(g.members) && Distinct(list) && a.fetch == Emails(list)
    ensures Announces(g, Decided(cfg, g, list, a).0, a)
  {
    var accept := a.accept != NoDigest;
    if accept && g.record.pending != Digest(Elements(list)) {
      HoldAnnounces(g, list, if 0 < cfg.wait && !Refused(cfg, g, list) then Some(a.now) else None, a);
    } else if !accept && Difference(list, g.members) != 0 && NeedsHold(g, list) {
      if WaitedOut(cfg, g, list, a.now) {
        AppliedAnnounces(g, list, true, FEED_ACTOR, a);
      } else {
        HoldAnnounces(g, list, WaitStart(cfg, g, list, a.now), a);
      }
    } else {
      AppliedAnnounces(g, list, accept, a.actor, a);
    }
  }

  lemma HoldAnnounces(g: Group, list: seq<string>, since: Option<int>, a: Attempt)
    ensures Announces(g, Holding(g, list, since, a).0, a)
  {
  }

  function In(x: string, list: seq<string>): int { if x in list then 1 else 0 }

  /** How often the alerts say that x came, less how often they say that x went. */
  function Told(alerts: seq<Alert>, x: string): int {
    if alerts == [] then 0
    else (if TellsOfMove(alerts[0]) then In(x, alerts[0].add) - In(x, alerts[0].remove) else 0) + Told(alerts[1..], x)
  }

  /** How often an accepted change brought x, less how often one took x away. */
  function AcceptedMoves(cfg: Config, g: Group, es: seq<Event>, x: string): int
    decreases |es|
  {
    if es == [] then 0
    else
      var g' := After(cfg, g, es[0]);
      (if es[0].Sync? && es[0].a.accept != NoDigest then In(x, g'.members) - In(x, g.members) else 0)
      + AcceptedMoves(cfg, g', es[1..], x)
  }

  lemma StepIsTold(cfg: Config, g: Group, e: Event, x: string)
    requires Distinct(g.members) && WellFormed(e)
    ensures var g' := After(cfg, g, e);
            && Distinct(g'.members) && g.alerts <= g'.alerts
            && Told(g'.alerts[|g.alerts|..], x) ==
               if e.Sync? && e.a.accept != NoDigest then 0 else In(x, g'.members) - In(x, g.members)
  {
    var g' := After(cfg, g, e);
    match e
    case Keep(_, _, _) => assert g'.alerts[|g.alerts|..] == [];
    case Sync(a) =>
      MoveIsAnnounced(cfg, g, a);
      StepKeepsDistinct(cfg, g, a);
      OneIsTold(g, g', a, x);
  }

  lemma StepKeepsDistinct(cfg: Config, g: Group, a: Attempt)
    requires Distinct(g.members) && WellFormed(Sync(a))
    ensures Distinct(Attempted(cfg, g, a).0.members)
  {
    if a.fetch.Emails? && a.fetch.list != [] {
      DecidedKeeps(cfg, g, a.fetch.list, a);
    }
  }

  lemma OneIsTold(g: Group, g': Group, a: Attempt, x: string)
    requires Announces(g, g', a)
    ensures Told(g'.alerts[|g.alerts|..], x) == if a.accept != NoDigest then 0 else In(x, g'.members) - In(x, g.members)
  {
    assert x in g.members <==> x in Elements(g.members);
    assert x in g'.members <==> x in Elements(g'.members);
    var more := g'.alerts[|g.alerts|..];
    if more != [] {
      assert more == [g'.alerts[|g.alerts|]] && more[1..] == [];
      if TellsOfMove(more[0]) {
        assert x in more[0].add <==> x in Elements(more[0].add);
        assert x in more[0].remove <==> x in Elements(more[0].remove);
      }
    }
  }

  lemma {:induction false} ToldAdds(xs: seq<Alert>, ys: seq<Alert>, x: string)
    ensures Told(xs + ys, x) == Told(xs, x) + Told(ys, x)
  {
    if xs == [] {
      assert xs + ys == ys;
    } else {
      ToldAdds(xs[1..], ys, x);
      assert (xs + ys)[1..] == xs[1..] + ys;
    }
  }

  /** Nobody comes or goes unseen: over every run, whatever fails, each address is a
      member as often as the alerts and the accepted changes together say. */
  lemma {:induction false} MembersAreTheLedger(cfg: Config, g: Group, es: seq<Event>, x: string)
    requires Distinct(g.members) && AllWellFormed(es)
    ensures var end := Run(cfg, g, es);
            && g.alerts <= end.alerts
            && In(x, end.members) == In(x, g.members) + Told(end.alerts[|g.alerts|..], x) + AcceptedMoves(cfg, g, es, x)
    decreases |es|
  {
    if es == [] {
      assert g.alerts[|g.alerts|..] == [];
    } else {
      var g' := After(cfg, g, es[0]);
      var end := Run(cfg, g', es[1..]);
      StepIsTold(cfg, g, es[0], x);
      MembersAreTheLedger(cfg, g', es[1..], x);
      ToldAdds(g'.alerts[|g.alerts|..], end.alerts[|g'.alerts|..], x);
      assert end.alerts[|g.alerts|..] == g'.alerts[|g.alerts|..] + end.alerts[|g'.alerts|..];
    }
  }

  // ---------- what Keep guarantees ----------

  /** A decision that ends a Keep: another Keep that was taken, an accepted change,
      or a big change the wait applied. */
  ghost predicate Supersedes(cfg: Config, g: Group, e: Event, kept: Digest) {
    match e
    case Keep(hash, readFails, writeFails) => hash != kept && KeptChange(g, hash, readFails, writeFails).1 == Kept
    case Sync(a) => Attempted(cfg, g, a).1 == Recorded(Ok) && (a.accept != NoDigest || AppliesUnasked(cfg, g, a))
  }

  /** The feed returns the kept list, and nobody is accepting it. */
  predicate Returns(e: Event, kept: Digest) {
    e.Sync? && e.a.accept == NoDigest && e.a.fetch.Emails? && Digest(Elements(e.a.fetch.list)) == kept
  }

  /** Exactly when a kept change is applied unasked: when it has become small
      enough not to be held. The wait never applies it. */
  lemma KeptAppliesExactly(cfg: Config, g: Group, a: Attempt)
    requires Returns(Sync(a), g.record.kept) && Distinct(g.members) && WellFormed(Sync(a))
    ensures Elements(Attempted(cfg, g, a).0.members) != Elements(g.members) <==> AppliesDirectly(g, a)
  {
    FilledMembers(g, a.fetch.list, a.actor);
    SameElements(a.fetch.list, g.members);
  }

  /** Until some later decision supersedes the Keep, the kept list moves the members
      exactly when it has become small enough not to be held. */
  ghost predicate Heeded(cfg: Config, g: Group, es: seq<Event>, kept: Digest)
    decreases |es|
  {
    es == [] ||
    (&& (Returns(es[0], kept) ==>
           (Elements(After(cfg, g, es[0]).members) != Elements(g.members) <==> AppliesDirectly(g, es[0].a)))
     && (Supersedes(cfg, g, es[0], kept) || Heeded(cfg, After(cfg, g, es[0]), es[1..], kept)))
  }

  /** However the feed comes and goes, a Keep stays in force until it is superseded:
      while its change is one to hold, nothing applies it unasked. */
  lemma {:induction false} KeepHolds(cfg: Config, g: Group, es: seq<Event>, kept: Digest)
    requires g.record.kept == kept != NoDigest && AllWellFormed(es) && Distinct(g.members)
    ensures Heeded(cfg, g, es, kept)
    decreases |es|
  {
    if es == [] {
    } else {
      KeepStep(cfg, g, es[0], kept);
      if Returns(es[0], kept) {
        KeptAppliesExactly(cfg, g, es[0].a);
      }
      if !Supersedes(cfg, g, es[0], kept) {
        KeepHolds(cfg, After(cfg, g, es[0]), es[1..], kept);
      }
    }
  }

  lemma KeepStep(cfg: Config, g: Group, e: Event, kept: Digest)
    requires g.record.kept == kept != NoDigest && WellFormed(e) && Distinct(g.members)
    ensures Distinct(After(cfg, g, e).members)
    ensures Supersedes(cfg, g, e, kept) || After(cfg, g, e).record.kept == kept
  {
    if e.Sync? {
      if AppliesUnasked(cfg, g, e.a) {
        UnaskedMeansWaited(cfg, g, e.a);
      }
      if e.a.fetch.Emails? && e.a.fetch.list != [] {
        DecidedKeeps(cfg, g, e.a.fetch.list, e.a);
      }
    }
  }

  /** Only an accepted change, or a waited one that moves the members, forgets what was kept. */
  lemma DecidedKeeps(cfg: Config, g: Group, list: seq<string>, a: Attempt)
    requires Distinct(g.members) && Distinct(list)
    ensures var (g', o) := Decided(cfg, g, list, a);
            && Distinct(g'.members)
            && (g'.record.kept == g.record.kept
                || (o == Recorded(Ok) && (a.accept != NoDigest || (NeedsHold(g, list) && g'.members != g.members))))
  {
    FilledMembers(g, list, a.actor);
    FilledMembers(g, list, FEED_ACTOR);
    SameElements(list, g.members);
    if a.accept != NoDigest && g.record.pending != Digest(Elements(list)) {
    } else if a.accept == NoDigest && Difference(list, g.members) != 0 && NeedsHold(g, list) {
      if WaitedOut(cfg, g, list, a.now) {
        assert Decided(cfg, g, list, a) == Applied(g, list, true, FEED_ACTOR, a);
      }
    } else {
      assert Decided(cfg, g, list, a) == Applied(g, list, a.accept != NoDigest, a.actor, a);
    }
  }

  /** The end of a list is smaller than the list by what was dropped. */
  lemma Dropped(list: seq<string>, m: nat, n: nat)
    requires Distinct(list) && m <= n <= |list|
    ensures Distinct(list[n..]) && Distinct(list[m..])
    ensures Elements(list[n..]) <= Elements(list[m..]) && |Elements(list[m..]) - Elements(list[n..])| == n - m
    ensures Elements(list[n..]) - Elements(list[m..]) == {}
  {
    var mid := list[m..n];
    assert list[m..] == mid + list[n..];
    DistinctSize(mid);
    forall x | x in mid ensures x !in list[n..] {
      var i :| m <= i < n && list[i] == x;
    }
    assert Elements(list[m..]) - Elements(list[n..]) == Elements(mid);
  }

  /** A change within every threshold is applied; the Keep and the accepted list stay. */
  lemma SmallSync(cfg: Config, g: Group, list: seq<string>, now: int)
    requires Distinct(g.members) && Distinct(g.record.accepted) && Distinct(list) && list != []
             && g.record.accepted != []
    requires |Elements(list) - Elements(g.members)| <= HoldAdds(|g.members|)
             && |Elements(g.members) - Elements(list)| <= HoldRemoves(|g.members|)
    requires Apart(Elements(g.record.accepted), Elements(list)) <= HoldDrift(|g.record.accepted|)
    ensures var g' := Attempted(cfg, g, Plain(now, list)).0;
            && g'.record.kept == g.record.kept && g'.record.accepted == g.record.accepted
            && Distinct(g'.members) && Elements(g'.members) == Elements(list)
  {
    MissingIsDifference(list, g.members);
    MissingIsDifference(g.members, list);
    SameElements(g.record.accepted, list);
    assert !NeedsHold(g, list);
    FilledMembers(g, list, "x");
  }

  lemma BigSyncThenKeep(cfg: Config, g: Group, list: seq<string>, now: int)
    requires Distinct(g.members) && Distinct(list) && list != [] && g.record.status == Ok
    requires HoldRemoves(|g.members|) < |Elements(g.members) - Elements(list)|
    ensures var g' := After(cfg, After(cfg, g, Sync(Plain(now, list))), Keep(Digest(Elements(list)), false, false));
            g'.record.kept == Digest(Elements(list)) && g'.members == g.members
              && g'.record.accepted == g.record.accepted
  {
    MissingIsDifference(g.members, list);
    BigSync(cfg, g, list, now);
  }

  /** The feed drops three of ten, which is held and kept; then only one. */
  function DropsThreeThenOne(list: seq<string>): seq<Event>
    requires |list| == 10
  {
    [Sync(Plain(1, list)), Sync(Plain(2, list[3..])), Keep(Digest(Elements(list[3..])), false, false),
     Sync(Plain(3, list[1..]))]
  }

  lemma {:induction false} RunOf4(cfg: Config, g: Group, e0: Event, e1: Event, e2: Event, e3: Event)
    ensures Run(cfg, g, [e0, e1, e2, e3]) == After(cfg, After(cfg, After(cfg, After(cfg, g, e0), e1), e2), e3)
  {
    assert [e0, e1, e2, e3][1..] == [e1, e2, e3] && [e1, e2, e3][1..] == [e2, e3] && [e2, e3][1..] == [e3]
           && [e3][1..] == [];
    var g2 := After(cfg, After(cfg, g, e0), e1);
    assert Run(cfg, g2, [e2, e3]) == Run(cfg, After(cfg, g2, e2), [e3]);
  }

  lemma AfterKeep(cfg: Config, g: Group, list: seq<string>)
    requires |list| == 10 && Distinct(list) && g.members == list && g.record.accepted == list
    ensures var g' := After(cfg, g, Sync(Plain(3, list[1..])));
            && g'.record.kept == g.record.kept && g'.record.accepted == list
            && Distinct(g'.members) && Elements(g'.members) == Elements(list[1..])
  {
    assert list[0..] == list;
    Dropped(list, 0, 1);
    SmallSync(cfg, g, list[1..], 3);
  }

  lemma AfterDrops(cfg: Config, list: seq<string>)
    requires |list| == 10 && Distinct(list)
    ensures var g := Run(cfg, Fresh(list), DropsThreeThenOne(list));
            && g.record.kept == Digest(Elements(list[3..])) && g.record.accepted == list
            && Distinct(g.members) && Elements(g.members) == Elements(list[1..])
  {
    var es := DropsThreeThenOne(list);
    RunOf4(cfg, Fresh(list), es[0], es[1], es[2], es[3]);
    assert list[0..] == list;
    Dropped(list, 0, 3);
    FirstSync(cfg, list, 1);
    BigSyncThenKeep(cfg, After(cfg, Fresh(list), es[0]), list[3..], 2);
    AfterKeep(cfg, After(cfg, After(cfg, After(cfg, Fresh(list), es[0]), es[1]), es[2]), list);
  }

  lemma KeptListReturns(cfg: Config, g: Group, list: seq<string>)
    requires |list| == 10 && Distinct(list) && g.record.accepted == list
    requires Distinct(g.members) && Elements(g.members) == Elements(list[1..])
    ensures Elements(Attempted(cfg, g, Plain(4, list[3..])).0.members) == Elements(list[3..]) != Elements(list[1..])
  {
    assert list[0..] == list;
    Dropped(list, 0, 3);
    Dropped(list, 1, 3);
    DistinctSize(list[1..]);
    DistinctSize(g.members);
    assert |g.members| == 9;
    SmallSync(cfg, g, list[3..], 4);
    assert Elements(list[1..]) - Elements(list[3..]) != {};
  }

  /** A Keep can be outlived: the kept list comes back after a smaller change has
      brought the members nearer to it, and is applied with the Keep in force. */
  lemma KeptChangeRevived(cfg: Config, list: seq<string>)
    requires |list| == 10 && Distinct(list)
    ensures var g := Run(cfg, Fresh(list), DropsThreeThenOne(list));
            && g.record.kept == Digest(Elements(list[3..]))
            && Elements(g.members) == Elements(list[1..])
            && Elements(Attempted(cfg, g, Plain(4, list[3..])).0.members) == Elements(list[3..]) != Elements(list[1..])
  {
    AfterDrops(cfg, list);
    KeptListReturns(cfg, Run(cfg, Fresh(list), DropsThreeThenOne(list)), list);
  }
}
