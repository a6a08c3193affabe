/**
 Synchronising one group with its feed (internal/server/group_feeds.go,
 syncFeedAttempt and keepHeldChange).

 A fetch is an arbitrary answer, store failures are flags of the call, and an
 alert or audit event is an entry in a log. Lists are without repeats, in no
 particular order; SHA-256 of a list is an injective digest of its elements.
 Times are nanoseconds; the store keeps whole seconds of them. The texts of
 details, audit summaries and alerts are not modelled.
 */
module Feed {
  import opened Prelude

  /** `wait` is GROUP_FEED_AUTO_APPLY_AFTER, 0 when it is off. */
  datatype Config = Config(wait: nat, rotating: bool)

  datatype Digest = NoDigest | Digest(of: set<string>)

  datatype Status = Never | Ok | Failed | Empty | Held

  /** A row of group_sync_state. */
  datatype Record = Record(
    status: Status, lastAttempt: int, lastSuccess: int,
    pending: Digest, pendingAdd: seq<string>, pendingRemove: seq<string>,
    accepted: seq<string>, heldSince: Option<int>, kept: Digest)

  datatype Audit =
    | AddedMember(actor: string, email: string)
    | RemovedMember(actor: string, email: string)
    | Synced(actor: string)

  /** A notice posted for the administrators: a sync that ended badly or was held,
      or a change made without one of them, because it was small or had `waited`. */
  datatype Alert =
    | NeedsAttention(at: int, status: Status, pending: Digest, heldSince: Option<int>)
    | MembersChanged(at: int, waited: bool, add: seq<string>, remove: seq<string>)

  /** Everything stored about the group, and the two logs. */
  datatype Group = Group(members: seq<string>, record: Record, audit: seq<Audit>, alerts: seq<Alert>)

  datatype Fetch = Emails(list: seq<string>) | Unreachable | Unusable

  /** Which store calls fail: reading the state, reading or creating the group,
      reading members, applying the change, writing the state. */
  datatype Faults = Faults(readState: bool, readGroup: bool, readMembers: bool, apply: bool, writeState: bool)

  /** One attempt. `accept` is the digest an administrator accepts, if any. */
  datatype Attempt = Attempt(now: int, actor: string, accept: Digest, mayRetry: bool, fetch: Fetch, faults: Faults)

  datatype Outcome =
    | Recorded(status: Status) | NothingHeld | ChangeReplaced | StateUnreadable | WillRetry | WriteFailed

  const FEED_ACTOR := "group feed"

  // ---------- the thresholds ----------

  function HoldAdds(current: nat): int { Max(5, current / 4) }
  function HoldRemoves(current: nat): int { Max(2, current / 4) }
  function HoldDrift(accepted: nat): int { Max(3, accepted / 4) }

  predicate TooLarge(current: nat, next: nat, accepted: nat) {
    next * 2 < current || next * 2 < accepted || 2 * current + 10 < next
  }

  // ---------- lists ----------

  /** The entries of xs that are not in ys, in order. */
  function Missing(xs: seq<string>, ys: seq<string>): seq<string> {
    if xs == [] then []
    else
      var front := Missing(xs[..|xs| - 1], ys);
      if xs[|xs| - 1] in ys then front else front + [xs[|xs| - 1]]
  }

  lemma {:induction false} MissingElements(xs: seq<string>, ys: seq<string>)
    ensures Elements(Missing(xs, ys)) == Elements(xs) - Elements(ys)
  {
    if xs == [] {
    } else {
      var front, last := xs[..|xs| - 1], xs[|xs| - 1];
      MissingElements(front, ys);
      assert Elements(xs) == Elements(front) + {last};
      assert Elements(Missing(front, ys) + [last]) == Elements(Missing(front, ys)) + {last};
    }
  }

  lemma {:induction false} MissingDistinct(xs: seq<string>, ys: seq<string>)
    requires Distinct(xs)
    ensures Distinct(Missing(xs, ys))
  {
    if xs == [] {
    } else {
      var front, last := xs[..|xs| - 1], xs[|xs| - 1];
      MissingDistinct(front, ys);
      MissingElements(front, ys);
      forall i | 0 <= i < |Missing(front, ys)| ensures Missing(front, ys)[i] != last {
        assert Missing(front, ys)[i] in Elements(Missing(front, ys));
      }
    }
  }

  /** On lists without repeats, what is missing is the set difference, each address once. */
  lemma MissingIsDifference(xs: seq<string>, ys: seq<string>)
    requires Distinct(xs)
    ensures Elements(Missing(xs, ys)) == Elements(xs) - Elements(ys)
    ensures Distinct(Missing(xs, ys)) && |Missing(xs, ys)| == |Elements(xs) - Elements(ys)|
  {
    MissingElements(xs, ys);
    MissingDistinct(xs, ys);
    DistinctSize(Missing(xs, ys));
  }

  /** How many addresses are in one list and not the other. */
  function Difference(xs: seq<string>, ys: seq<string>): nat {
    |Missing(xs, ys)| + |Missing(ys, xs)|
  }

  method DiffMembers(current: seq<string>, want: seq<string>) returns (add: seq<string>, remove: seq<string>)
    ensures add == Missing(want, current) && remove == Missing(current, want)
  {
    add, remove := [], [];
    var inWant: set<string> := {};
    for i := 0 to |want|
      invariant inWant == Elements(want[..i])
    {
      inWant := inWant + {want[i]};
    }
    assert want[..|want|] == want;
    var inCur: set<string> := {};
    for i := 0 to |current|
      invariant inCur == Elements(current[..i])
      invariant remove == Missing(current[..i], want)
    {
      inCur := inCur + {current[i]};
      assert current[..i + 1][..i] == current[..i];
      if current[i] !in inWant {
        remove := remove + [current[i]];
      }
    }
    assert current[..|current|] == current;
    for i := 0 to |want|
      invariant add == Missing(want[..i], current)
    {
      assert want[..i + 1][..i] == want[..i];
      if want[i] !in inCur {
        add := add + [want[i]];
      }
    }
  }

  // ---------- one attempt ----------

  /** A change big enough to hold: it adds or removes too many at once, or drifts
      too far from the list last accepted. */
  predicate NeedsHold(g: Group, list: seq<string>) {
    || HoldAdds(|g.members|) < |Missing(list, g.members)|
    || HoldRemoves(|g.members|) < |Missing(g.members, list)|
    || HoldDrift(|g.record.accepted|) < Difference(g.record.accepted, list)
  }

  predicate Refused(cfg: Config, g: Group, list: seq<string>) {
    !cfg.rotating && TooLarge(|g.members|, |list|, |g.record.accepted|)
  }

  /** When the wait for this change began: now, unless it is already running. */
  function WaitStart(cfg: Config, g: Group, list: seq<string>, now: int): Option<int> {
    if cfg.wait == 0 || Refused(cfg, g, list) then None
    else if g.record.status == Held && g.record.pending == Digest(Elements(list)) && g.record.heldSince.Some?
    then g.record.heldSince
    else Some(now)
  }

  /** The wait has run out and the change may be applied unasked. */
  predicate WaitedOut(cfg: Config, g: Group, list: seq<string>, now: int) {
    var start := WaitStart(cfg, g, list, now);
    start.Some? && g.record.kept != Digest(Elements(list)) && start.value != now && start.value + cfg.wait <= now
  }

  /** A new record that holds nothing and keeps the accepted list and the kept digest. */
  function Blank(g: Group, now: int): Record {
    Record(Never, now, 0, NoDigest, [], [], g.record.accepted, None, g.record.kept)
  }

  /** The last whole second up to t. */
  function Truncated(t: int): int { Unix(t) * SECOND }

  /** The row that a write of st leaves: times lose what is below a second, one that
      is not past the epoch stands for none, and no success keeps the last one. */
  function Stored(was: Record, st: Record): Record {
    st.(lastAttempt := Truncated(st.lastAttempt),
        lastSuccess := if 0 < Unix(st.lastSuccess) then Truncated(st.lastSuccess) else was.lastSuccess,
        heldSince := if st.heldSince.Some? && 0 < Unix(st.heldSince.value) then Some(Truncated(st.heldSince.value))
                     else None)
  }

  predicate NeedsAlert(prev: Record, st: Record) {
    st.status != Ok
      && (prev.status != st.status
          || (st.status == Held && (prev.pending != st.pending || prev.heldSince != st.heldSince)))
  }

  /** Record a result, and alert on it. */
  function Finished(g: Group, st: Record, status: Status, a: Attempt): (Group, Outcome) {
    var st := st.(status := status, lastSuccess := if status == Ok then a.now else st.lastSuccess);
    if a.faults.writeState then (g, WriteFailed)
    else
      (g.(record := Stored(g.record, st),
          alerts := if NeedsAlert(g.record, st) then
                      g.alerts + [NeedsAttention(a.now, status, st.pending, st.heldSince)]
                    else g.alerts),
       Recorded(status))
  }

  function Holding(g: Group, list: seq<string>, since: Option<int>, a: Attempt): (Group, Outcome) {
    Finished(g, Blank(g, a.now).(pending := Digest(Elements(list)), heldSince := since,
                                 pendingAdd := Missing(list, g.members), pendingRemove := Missing(g.members, list)),
             Held, a)
  }

  function AuditEvents(actor: string, add: seq<string>, remove: seq<string>): seq<Audit> {
    seq(|add|, i requires 0 <= i < |add| => AddedMember(actor, add[i]))
    + seq(|remove|, i requires 0 <= i < |remove| => RemovedMember(actor, remove[i]))
    + [Synced(actor)]
  }

  /** Insert each address that is not there yet. */
  function Inserted(members: seq<string>, add: seq<string>): seq<string> {
    if add == [] then members
    else
      var front, last := Inserted(members, add[..|add| - 1]), add[|add| - 1];
      if last in front then front else front + [last]
  }

  /** Addresses that are new, each listed once, are simply appended. */
  lemma {:induction false} InsertedAppends(members: seq<string>, add: seq<string>)
    requires Distinct(add) && Elements(members) !! Elements(add)
    ensures Inserted(members, add) == members + add
  {
    if add == [] {
    } else {
      var front, last := add[..|add| - 1], add[|add| - 1];
      InsertedAppends(members, front);
      assert last in Elements(add) && last !in front;
      assert add == front + [last];
    }
  }

  /** The members and the audit after applying the list. */
  function Filled(g: Group, list: seq<string>, actor: string): Group {
    var add, remove := Missing(list, g.members), Missing(g.members, list);
    if add == [] && remove == [] then g
    else g.(members := Missing(Inserted(g.members, add), remove), audit := g.audit + AuditEvents(actor, add, remove))
  }

  /** The announcement of a change made without an administrator. */
  function Announced(g: Group, list: seq<string>, waited: bool, a: Attempt): Group {
    var add, remove := Missing(list, g.members), Missing(g.members, list);
    if a.accept != NoDigest || (add == [] && remove == []) then g
    else g.(alerts := g.alerts + [MembersChanged(a.now, waited, add, remove)])
  }

  /** Apply the list. `decided` is set when an administrator accepted it or it waited out. */
  function Applied(g: Group, list: seq<string>, decided: bool, actor: string, a: Attempt): (Group, Outcome) {
    if Difference(list, g.members) != 0 && a.faults.apply then Finished(g, Blank(g, a.now), Failed, a)
    else
      var st := Blank(g, a.now);
      Finished(Filled(Announced(g, list, decided, a), list, actor),
               st.(accepted := if decided || g.record.accepted == [] then list else g.record.accepted,
                   kept := if decided then NoDigest else g.record.kept),
               Ok, a)
  }

  function Decided(cfg: Config, g: Group, list: seq<string>, a: Attempt): (Group, Outcome) {
    var accept := a.accept != NoDigest;
    if accept && g.record.pending != Digest(Elements(list)) then
      Holding(g, list, if 0 < cfg.wait && !Refused(cfg, g, list) then Some(a.now) else None, a)
    else if !accept && Difference(list, g.members) != 0 && NeedsHold(g, list) then
      if WaitedOut(cfg, g, list, a.now) then Applied(g, list, true, FEED_ACTOR, a)
      else Holding(g, list, WaitStart(cfg, g, list, a.now), a)
    else Applied(g, list, accept, a.actor, a)
  }

  function Attempted(cfg: Config, g: Group, a: Attempt): (Group, Outcome) {
    if a.faults.readState then (g, StateUnreadable)
    else if a.accept != NoDigest && g.record.status != Held then (g, NothingHeld)
    else if a.accept != NoDigest && a.accept != g.record.pending then (g, ChangeReplaced)
    else match a.fetch
      case Unreachable => if a.mayRetry then (g, WillRetry) else Finished(g, Blank(g, a.now), Failed, a)
      case Unusable => Finished(g, Blank(g, a.now), Failed, a)
      case Emails(list) =>
        if list == [] then Finished(g, Blank(g, a.now), Empty, a)
        else if a.faults.readGroup || a.faults.readMembers then Finished(g, Blank(g, a.now), Failed, a)
        else Decided(cfg, g, list, a)
  }

  datatype KeepOutcome = Kept | NotHeld | AlreadyApplied | Replaced | Unreadable | KeepFailed

  /** Keep the current members: the held change shown is not applied unasked. */
  function KeptChange(g: Group, hash: Digest, readFails: bool, writeFails: bool): (Group, KeepOutcome) {
    if readFails then (g, Unreadable)
    else if g.record.status != Held then
      (g, if hash != NoDigest && hash == Digest(Elements(g.record.accepted)) then AlreadyApplied else NotHeld)
    else if hash == NoDigest || hash != g.record.pending then (g, Replaced)
    else if writeFails then (g, KeepFailed)
    else (g.(record := g.record.(kept := hash)), Kept)
  }

  /** A group no sync has touched yet. */
  function Fresh(members: seq<string>): Group {
    Group(members, Record(Never, 0, 0, NoDigest, [], [], [], None, NoDigest), [], [])
  }

  // ---------- the code ----------

  class FeedGroup {
    const cfg: Config
    var members: seq<string>
    var record: Record
    var audit: seq<Audit>
    var alerts: seq<Alert>

    ghost function Contents(): Group
      reads this
    {
      Group(members, record, audit, alerts)
    }

    constructor (cfg: Config, members: seq<string>)
      ensures this.cfg == cfg && Contents() == Fresh(members)
    {
      this.cfg := cfg;
      this.members := members;
      record := Record(Never, 0, 0, NoDigest, [], [], [], None, NoDigest);
      audit, alerts := [], [];
    }

    method Finish(st: Record, status: Status, prev: Record, a: Attempt) returns (o: Outcome)
      requires prev == record
      modifies this
      ensures (Contents(), o) == Finished(old(Contents()), st, status, a)
    {
      var st := st.(status := status);
      if status == Ok {
        st := st.(lastSuccess := a.now);
      }
      if a.faults.writeState {
        return WriteFailed;
      }
      record := Stored(record, st);
      if status != Ok && (prev.status != status
                          || (status == Held && (prev.pending != st.pending || st.heldSince != prev.heldSince))) {
        alerts := alerts + [NeedsAttention(a.now, status, st.pending, st.heldSince)];
      }
      return Recorded(status);
    }

    /** Move the members and write the audit, in one transaction. */
    method ApplyGroupSync(actor: string, add: seq<string>, remove: seq<string>)
      modifies this
      ensures Contents() == old(Contents()).(members := Missing(Inserted(old(members), add), remove),
                                            audit := old(audit) + AuditEvents(actor, add, remove))
    {
      for i := 0 to |add|
        invariant members == Inserted(old(members), add[..i]) && audit == old(audit) && alerts == old(alerts)
                  && record == old(record)
      {
        assert add[..i + 1][..i] == add[..i];
        if add[i] !in members {
          members := members + [add[i]];
        }
      }
      assert add[..|add|] == add;
      var left := [];
      for i := 0 to |members|
        invariant members == Inserted(old(members), add) && audit == old(audit) && alerts == old(alerts)
                  && record == old(record)
        invariant left == Missing(members[..i], remove)
      {
        assert members[..i + 1][..i] == members[..i];
        if members[i] !in remove {
          left := left + [members[i]];
        }
      }
      assert members[..|members|] == members;
      members := left;
      audit := audit + AuditEvents(actor, add, remove);
    }

    method SyncFeedAttempt(a: Attempt) returns (o: Outcome)
      modifies this
      ensures (Contents(), o) == Attempted(cfg, old(Contents()), a)
    {
      var accept := a.accept != NoDigest;
      if a.faults.readState {
        return StateUnreadable;
      }
      var prev := record;
      if accept && prev.status != Held {
        return NothingHeld;
      }
      if accept && a.accept != prev.pending {
        return ChangeReplaced;
      }
      var st := Record(Never, a.now, 0, NoDigest, [], [], prev.accepted, None, prev.kept);
      if a.fetch == Unreachable && a.mayRetry {
        return WillRetry;
      }
      if !a.fetch.Emails? {
        o := Finish(st, Failed, prev, a);
        return;
      }
      if a.fetch.list == [] {
        o := Finish(st, Empty, prev, a);
        return;
      }
      if a.faults.readGroup || a.faults.readMembers {
        o := Finish(st, Failed, prev, a);
        return;
      }
      o := Decide(a.fetch.list, st, prev, a);
    }

    method Decide(emails: seq<string>, blank: Record, prev: Record, a: Attempt) returns (o: Outcome)
      requires prev == record && blank == Blank(Contents(), a.now)
      modifies this
      ensures (Contents(), o) == Decided(cfg, old(Contents()), emails, a)
    {
      var st := blank;
      var accept := a.accept != NoDigest;
      var add, remove := DiffMembers(members, emails);
      var hash := Digest(Elements(emails));
      var tooLarge := !cfg.rotating && TooLarge(|members|, |emails|, |prev.accepted|);
      var autoApplied := false;
      if accept && hash != prev.pending {
        st := st.(pending := hash, pendingAdd := add, pendingRemove := remove);
        if 0 < cfg.wait && !tooLarge {
          st := st.(heldSince := Some(a.now));
        }
        o := Finish(st, Held, prev, a);
        return;
      }
      if !accept && 0 < |add| + |remove| {
        var inA, inB := DiffMembers(prev.accepted, emails);
        if HoldAdds(|members|) < |add| || HoldRemoves(|members|) < |remove|
           || HoldDrift(|prev.accepted|) < |inA| + |inB| {
          var heldSince := None;
          if 0 < cfg.wait {
            heldSince := Some(a.now);
            if prev.status == Held && prev.pending == hash && prev.heldSince.Some? {
              heldSince := prev.heldSince;
            }
          }
          if tooLarge {
            heldSince := None;
          }
          if 0 < cfg.wait && !tooLarge && st.kept != hash && heldSince != Some(a.now)
             && heldSince.value + cfg.wait <= a.now {
            autoApplied := true;
          } else {
            st := st.(pending := hash, pendingAdd := add, pendingRemove := remove, heldSince := heldSince);
            o := Finish(st, Held, prev, a);
            return;
          }
        }
      }
      o := Apply(emails, add, remove, accept, autoApplied, st, prev, a);
    }

    method Apply(emails: seq<string>, add: seq<string>, remove: seq<string>, accept: bool, autoApplied: bool,
                 blank: Record, prev: Record, a: Attempt)
      returns (o: Outcome)
      requires prev == record && blank == Blank(Contents(), a.now)
      requires add == Missing(emails, members) && remove == Missing(members, emails)
      requires accept == (a.accept != NoDigest) && (autoApplied ==> !accept)
      modifies this
      ensures (Contents(), o) ==
              Applied(old(Contents()), emails, accept || autoApplied, if autoApplied then FEED_ACTOR else a.actor, a)
    {
      var st := blank;
      // A change the wait applies is the feed's own doing.
      var actor := if autoApplied then FEED_ACTOR else a.actor;
      if 0 < |add| + |remove| {
        if a.faults.apply {
          o := Finish(st, Failed, prev, a);
          return;
        }
        ApplyGroupSync(actor, add, remove);
        if !accept {
          alerts := alerts + [MembersChanged(a.now, autoApplied, add, remove)];
        }
      }
      if accept || autoApplied || |prev.accepted| == 0 {
        st := st.(accepted := emails);
      }
      if accept || autoApplied {
        st := st.(kept := NoDigest);
      }
      o := Finish(st, Ok, prev, a);
    }

    method KeepHeldChange(hash: Digest, readFails: bool, writeFails: bool) returns (o: KeepOutcome)
      modifies this
      ensures (Contents(), o) == KeptChange(old(Contents()), hash, readFails, writeFails)
    {
      if readFails {
        return Unreadable;
      }
      if record.status != Held {
        if hash != NoDigest && hash == Digest(Elements(record.accepted)) {
          return AlreadyApplied;
        }
        return NotHeld;
      }
      if hash == NoDigest || hash != record.pending {
        return Replaced;
      }
      if writeFails {
        return KeepFailed;
      }
      record := record.(kept := hash);
      return Kept;
    }
  }
}
