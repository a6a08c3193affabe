/**
 Single-use passkey challenges (internal/server/passkeys.go): the guard's
 counter and sweep, and its table of used challenges in the store.

 A challenge is 32 random bytes kept under its hash; here the n-th challenge
 minted is called n, so no two are the same. The cookie that carries it is
 signed, so the handlers only ever read a challenge that was minted. Times are
 Unix seconds.
 */
module Challenges {
  import opened Prelude

  const TTL := 600
  const SWEEP_EVERY := 60
  const GUARD_MAX := 50000

  type Used = map<nat, int>

  /** What a store call may do: work, fail without effect, or fail after its
      first statement took effect. */
  datatype Outcome = Works | Fails | FailsLate

  datatype Guard = Guard(used: Used, count: int, nextSweep: Option<int>)

  // ---------- the store ----------

  /** The entries not yet expired. */
  function Pruned(used: Used, now: int): Used { map h | h in used && now <= used[h] :: used[h] }

  /** The insert changes a row: the challenge is unknown, or its entry has expired. */
  predicate Fresh(used: Used, ch: nat, now: int) { ch !in used || used[ch] < now }

  predicate SweepDue(nextSweep: Option<int>, now: int) { nextSweep.None? || nextSweep.value < now }

  // ---------- the guard, as a function ----------

  function Swept(g: Guard, now: int, prune: Outcome): Guard {
    if !SweepDue(g.nextSweep, now) then g
    else if prune == Works then Guard(Pruned(g.used, now), |Pruned(g.used, now)|, Some(now + SWEEP_EVERY))
    else if prune == FailsLate then g.(used := Pruned(g.used, now))
    else g
  }

  predicate SweepOk(g: Guard, now: int, prune: Outcome) { !SweepDue(g.nextSweep, now) || prune == Works }

  /** The guard reaches the insert, and the insert works. */
  predicate Admits(g: Guard, now: int, prune: Outcome, insertOk: bool) {
    SweepOk(g, now, prune) && Swept(g, now, prune).count < GUARD_MAX && insertOk
  }

  function UsedOnce(g: Guard, ch: nat, now: int, prune: Outcome, insertOk: bool): (Guard, bool) {
    var s := Swept(g, now, prune);
    if !Admits(g, now, prune, insertOk) || !Fresh(s.used, ch, now) then (s, false)
    else (Guard(s.used[ch := now + TTL], s.count + 1, s.nextSweep), true)
  }

  function Restarted(g: Guard): Guard { Guard(g.used, 0, None) }

  class ChallengeStore {
    var used: Used

    constructor ()
      ensures used == map[]
    {
      used := map[];
    }

    method UseChallenge(ch: nat, until: int, now: int) returns (isNew: bool)
      modifies this
      ensures isNew == Fresh(old(used), ch, now)
      ensures used == if isNew then old(used)[ch := until] else old(used)
    {
      if ch !in used {
        used := used[ch := until];
        return true;
      }
      if used[ch] < now {
        used := used[ch := until];
        return true;
      }
      return false;
    }

    method PruneChallenges(now: int) returns (left: nat)
      modifies this
      ensures used == Pruned(old(used), now) && left == |used|
    {
      used := map h | h in used && now <= used[h] :: used[h];
      return |used|;
    }
  }

  class ChallengeGuard {
    const store: ChallengeStore
    var count: int
    var nextSweep: Option<int>

    ghost function View(): Guard
      reads this, store
    {
      Guard(store.used, count, nextSweep)
    }

    /** A restarted gateway: a new guard over the same table. */
    constructor (store: ChallengeStore)
      ensures this.store == store && View() == Guard(store.used, 0, None)
    {
      this.store, count, nextSweep := store, 0, None;
    }

    method Use(ch: nat, now: int, prune: Outcome, insertOk: bool) returns (isNew: bool)
      modifies this, store
      ensures (View(), isNew) == UsedOnce(old(View()), ch, now, prune, insertOk)
    {
      if nextSweep.None? || nextSweep.value < now {
        if prune == Fails {
          return false;
        }
        var n := store.PruneChallenges(now);
        if prune == FailsLate {
          return false;
        }
        count, nextSweep := n, Some(now + SWEEP_EVERY);
      }
      if GUARD_MAX <= count {
        return false;
      }
      if !insertOk {
        return false;
      }
      isNew := store.UseChallenge(ch, now + TTL, now);
      if isNew {
        count := count + 1;
      }
    }
  }

  /** The entries that still count. */
  function Unexpired(used: Used, now: int): set<nat> { set h | h in used && now <= used[h] }

  /** What the guard does with a challenge: when it is a minute past the last sweep, or has
      never swept, it sweeps first, and cannot go on unless that works. It accepts the
      challenge exactly when it is below its bound, the insert works, and the challenge has
      no entry in date; it then has one for ten minutes. Expired entries go exactly when
      the prune took effect, and the counter follows. */
  lemma UseExactly(g: Guard, ch: nat, now: int, prune: Outcome, insertOk: bool)
    ensures var (g', isNew) := UsedOnce(g, ch, now, prune, insertOk);
            var due := g.nextSweep.None? || g.nextSweep.value < now;
            var live := Unexpired(g.used, now);
            var counts := if due && prune == Works then |live| else g.count;
            && (isNew <==> (due ==> prune == Works) && counts < 50000 && insertOk && ch !in live)
            && (forall h :: h != ch || !isNew ==>
                  (h in g'.used <==> h in g.used && (due && prune != Fails ==> now <= g.used[h]))
                  && (h in g'.used ==> g'.used[h] == g.used[h]))
            && (isNew ==> ch in g'.used && g'.used[ch] == now + 600)
            && g'.count == counts + (if isNew then 1 else 0)
            && g'.nextSweep == if due && prune == Works then Some(now + 60) else g.nextSweep
  {
    PrunedKeys(g.used, now);
  }

  lemma PrunedKeys(used: Used, now: int)
    ensures Pruned(used, now).Keys == Unexpired(used, now) && |Pruned(used, now)| == |Unexpired(used, now)|
  {
    assert |Pruned(used, now)| == |Pruned(used, now).Keys|;
  }

  // ---------- runs ----------

  datatype Mint = Mint(register: bool, at: int)

  /** `minted` lists every challenge minted; `last` is when the guard last
      accepted each; `clock` is the guard's last clock reading. */
  datatype World = World(guard: Guard, minted: seq<Mint>, last: map<nat, int>, clock: int)

  /** A post checks its cookie at `now`, and the guard reads the clock at `at`. */
  datatype Event =
    | Minting(mint: Mint)
    | Post(register: bool, ch: nat, now: int, at: int, prune: Outcome, insertOk: bool)
    | Restart

  /** The cookie names a challenge of this kind and has not expired. */
  predicate CookieValid(w: World, register: bool, ch: nat, now: int) {
    ch < |w.minted| && w.minted[ch].register == register && now <= w.minted[ch].at + TTL
  }

  predicate Accepts(w: World, e: Event) {
    e.Post? && CookieValid(w, e.register, e.ch, e.now) && UsedOnce(w.guard, e.ch, e.at, e.prune, e.insertOk).1
  }

  function Step(w: World, e: Event): World {
    match e
    case Minting(m) => w.(minted := w.minted + [m])
    case Restart => w.(guard := Restarted(w.guard))
    case Post(register, ch, now, at, prune, insertOk) =>
      if !CookieValid(w, register, ch, now) then w
      else w.(guard := UsedOnce(w.guard, ch, at, prune, insertOk).0, clock := at,
              last := if Accepts(w, e) then w.last[ch := at] else w.last)
  }

  /** Clock readings do not go back: a post follows its mint, the guard reads the
      clock after the cookie check, and one post at a time. */
  predicate Timely(w: World, e: Event) {
    e.Post? ==> e.now <= e.at && w.clock <= e.at && (e.ch < |w.minted| ==> w.minted[e.ch].at <= e.now)
  }

  ghost predicate TimelyRun(w: World, es: seq<Event>)
    decreases |es|
  {
    es == [] || (Timely(w, es[0]) && TimelyRun(Step(w, es[0]), es[1..]))
  }

  function Run(w: World, es: seq<Event>): World
    decreases |es|
  {
    if es == [] then w else Run(Step(w, es[0]), es[1..])
  }

  /** How often a challenge is accepted over a run. */
  function Accepted(w: World, es: seq<Event>, ch: nat): nat
    decreases |es|
  {
    if es == [] then 0
    else (if Accepts(w, es[0]) && es[0].ch == ch then 1 else 0) + Accepted(Step(w, es[0]), es[1..], ch)
  }

  ghost predicate Remembered(used: Used, last: map<nat, int>, clock: int) {
    && used.Keys <= last.Keys
    && forall ch | ch in last ::
         last[ch] <= clock && (if ch in used then used[ch] == last[ch] + TTL else last[ch] + TTL < clock)
  }

  ghost predicate Counted(g: Guard) {
    && 0 <= g.count <= GUARD_MAX && |g.used| <= GUARD_MAX
    && (g.nextSweep.Some? ==> |g.used| <= g.count)
    && (g.nextSweep.None? ==> g.count == 0)
  }

  ghost predicate Sound(w: World) {
    Remembered(w.guard.used, w.last, w.clock) && Counted(w.guard)
  }

  lemma FreshWorldSound(clock: int)
    ensures Sound(World(Guard(map[], 0, None), [], map[], clock))
  {
  }

  lemma PrunedIsSmaller(used: Used, now: int)
    ensures |Pruned(used, now)| <= |used|
  {
    SubsetSize(Pruned(used, now).Keys, used.Keys);
  }

  lemma OneMoreEntry(used: Used, ch: nat, until: int)
    ensures |used| <= |used[ch := until]| <= |used| + 1
  {
  }

  lemma UseKeepsCount(g: Guard, ch: nat, now: int, prune: Outcome, insertOk: bool)
    requires Counted(g)
    ensures Counted(UsedOnce(g, ch, now, prune, insertOk).0)
  {
    PrunedIsSmaller(g.used, now);
    OneMoreEntry(Swept(g, now, prune).used, ch, now + TTL);
  }

  lemma UseRemembers(g: Guard, last: map<nat, int>, clock: int, ch: nat, now: int, prune: Outcome, insertOk: bool)
    requires Remembered(g.used, last, clock) && clock <= now
    ensures var (g', isNew) := UsedOnce(g, ch, now, prune, insertOk);
            Remembered(g'.used, if isNew then last[ch := now] else last, now)
  {
  }

  lemma StepSound(w: World, e: Event)
    requires Sound(w) && Timely(w, e)
    ensures Sound(Step(w, e))
  {
    if e.Post? && CookieValid(w, e.register, e.ch, e.now) {
      UseKeepsCount(w.guard, e.ch, e.at, e.prune, e.insertOk);
      UseRemembers(w.guard, w.last, w.clock, e.ch, e.at, e.prune, e.insertOk);
    }
  }

  /** Over every run, with restarts and failing sweeps: the table never holds
      more than 50000 entries, nor more than the guard's counter once the guard
      has swept, and the counter never passes 50000. */
  lemma {:induction false} RunSound(w: World, es: seq<Event>)
    requires Sound(w) && TimelyRun(w, es)
    ensures Sound(Run(w, es))
    decreases |es|
  {
    if es == [] {
    } else {
      StepSound(w, es[0]);
      RunSound(Step(w, es[0]), es[1..]);
    }
  }

  /** Exactly when a post is accepted: the cookie is in date, nothing fails, the
      guard is below its bound, and the challenge was never accepted before or
      more than ten minutes have passed on the guard's clock since it was. */
  lemma AcceptedExactly(w: World, e: Event)
    requires Sound(w) && Timely(w, e) && e.Post?
    ensures var g, live := w.guard, Unexpired(w.guard.used, e.at);
            var due := g.nextSweep.None? || g.nextSweep.value < e.at;
            Accepts(w, e) <==>
              && e.ch < |w.minted| && w.minted[e.ch].register == e.register && e.now <= w.minted[e.ch].at + 600
              && (if due then e.prune == Works && |live| < 50000 else g.count < 50000) && e.insertOk
              && (e.ch in w.last ==> w.last[e.ch] + 600 < e.at)
  {
    UseExactly(w.guard, e.ch, e.at, e.prune, e.insertOk);
  }

  /** A post whose guard reads the clock no later than its cookie's last second;
      any post that reads the clock once is one. */
  predicate InTime(w: World, e: Event) {
    e.Post? && e.ch < |w.minted| ==> e.at == e.now || e.at <= w.minted[e.ch].at + TTL
  }

  ghost predicate InTimeRun(w: World, es: seq<Event>)
    decreases |es|
  {
    es == [] || (InTime(w, es[0]) && InTimeRun(Step(w, es[0]), es[1..]))
  }

  /** Acceptance never came before the mint. */
  ghost predicate Minted(w: World) {
    forall ch | ch in w.last :: ch < |w.minted| && w.minted[ch].at <= w.last[ch]
  }

  /** A challenge is accepted at most once over any run, with prunes and
      restarts: its entry outlives its signed cookie. */
  lemma {:induction false} AcceptedOnce(w: World, es: seq<Event>, ch: nat)
    requires Sound(w) && Minted(w) && TimelyRun(w, es) && InTimeRun(w, es)
    ensures Accepted(w, es, ch) <= if ch in w.last then 0 else 1
    decreases |es|
  {
    if es == [] {
    } else {
      StepSound(w, es[0]);
      if es[0].Post? {
        AcceptedExactly(w, es[0]);
      }
      AcceptedOnce(Step(w, es[0]), es[1..], ch);
    }
  }

  /** The one way a challenge is accepted again: the post's cookie check passed
      in time, and its guard read the clock after the cookie had expired. */
  lemma SecondAcceptanceStraddlesExpiry(w: World, e: Event)
    requires Sound(w) && Minted(w) && Timely(w, e) && Accepts(w, e) && e.ch in w.last
    ensures e.now <= w.minted[e.ch].at + TTL < e.at
  {
  }

  /** Such a run: two posts of one challenge, both accepted. */
  lemma StraddlingPostAcceptedTwice()
    ensures var es := [Minting(Mint(false, 0)), Post(false, 0, 0, 0, Works, true),
                       Post(false, 0, 600, 601, Works, true)];
            var w := World(Guard(map[], 0, None), [], map[], 0);
            TimelyRun(w, es) && Accepted(w, es, 0) == 2
  {
  }

  /** Over every run, exactly when the counter covers the table: once the guard has
      swept since it started, or while the table is empty. */
  lemma CounterCoversExactly(w: World, es: seq<Event>)
    requires Sound(w) && TimelyRun(w, es)
    ensures var g := Run(w, es).guard; |g.used| <= g.count <==> g.nextSweep.Some? || g.used == map[]
  {
    RunSound(w, es);
  }

  /** Right after a restart, before its first sweep, the counter is below the table. */
  lemma CounterStartsBehind()
    ensures var w := World(Guard(map[], 0, None), [], map[], 0);
            var w' := Run(w, [Minting(Mint(false, 0)), Post(false, 0, 0, 0, Works, true), Restart]);
            w'.guard.count < |w'.guard.used|
  {
  }
}
