/**
 The in-memory token-bucket limiter (internal/ratelimit/ratelimit.go).

 Times are whole nanoseconds on a clock that never runs backwards, and tokens
 are exact reals. The source keeps a pointer to each bucket; here a bucket is
 a value in the map, and a write "through the pointer" reaches the map only
 while the key is still there, which is what the source's sweep makes
 observable: it may drop the very bucket that has just been inserted.
 */
module RateLimit {
  import opened Prelude

  const GC_THRESHOLD := 1000
  const GC_INTERVAL := 1_000_000_000

  /** count events per window nanoseconds, refilled continuously. */
  datatype Limit = Limit(count: nat, window: int) {
    predicate Valid() { 0 < window }

    function Full(): real { count as real }

    /** Tokens gained over d nanoseconds. */
    function Accrued(d: int): real
      requires Valid()
    {
      d as real * (count as real / window as real)
    }

    lemma AccruedAdds(a: int, b: int)
      requires Valid()
      ensures Accrued(a + b) == Accrued(a) + Accrued(b)
    {
      var rate := count as real / window as real;
      assert (a + b) as real * rate == a as real * rate + b as real * rate;
    }

    lemma AccruedNonNegative(d: int)
      requires Valid() && 0 <= d
      ensures 0.0 <= Accrued(d)
    {
      assert 0.0 <= count as real / window as real;
    }
  }

  datatype Bucket = Bucket(tokens: real, lastSeen: int)

  /** What a limiter holds: its buckets and when it last swept. */
  datatype State = State(buckets: map<string, Bucket>, lastGC: Option<int>)

  /** The clock has not passed `now`, and no bucket is over or under its bounds. */
  ghost predicate Sound(limit: Limit, s: State, now: int) {
    && limit.Valid()
    && (forall k :: k in s.buckets ==> s.buckets[k].lastSeen <= now && 0.0 <= s.buckets[k].tokens <= limit.Full())
    && (s.lastGC.Some? ==> s.lastGC.value <= now)
  }

  /** The tokens a key could spend at `now`. An absent key could spend a full bucket. */
  function Level(limit: Limit, s: State, k: string, now: int): real
    requires limit.Valid()
  {
    if k in s.buckets then
      MinReal(limit.Full(), s.buckets[k].tokens + limit.Accrued(now - s.buckets[k].lastSeen))
    else
      limit.Full()
  }

  predicate SweepDue(s: State, now: int) {
    && GC_THRESHOLD <= |s.buckets|
    && (s.lastGC.Some? ==> GC_INTERVAL <= now - s.lastGC.value)
  }

  predicate Refilled(limit: Limit, b: Bucket, now: int)
    requires limit.Valid()
  {
    limit.Full() <= b.tokens + limit.Accrued(now - b.lastSeen)
  }

  /** Drop every full bucket, when a sweep is due. `sweeps` is false for the
      reference limiter that never forgets. */
  function Swept(limit: Limit, sweeps: bool, s: State, now: int): State
    requires limit.Valid()
  {
    if sweeps && SweepDue(s, now) then
      State(map k | k in s.buckets && !Refilled(limit, s.buckets[k], now) :: s.buckets[k], Some(now))
    else
      s
  }

  function Inserted(limit: Limit, s: State, k: string, now: int): State {
    s.(buckets := s.buckets[k := Bucket(limit.Full(), now)])
  }

  /** A sweep runs while k itself is being inserted. */
  predicate SweptOnInsert(limit: Limit, s: State, k: string, now: int) {
    k !in s.buckets && SweepDue(Inserted(limit, s, k, now), now)
  }

  /** k's bucket topped up to now, and the limiter that then holds it, or no
      longer holds it if the insertion swept. */
  function Topped(limit: Limit, sweeps: bool, s: State, k: string, now: int): (State, Bucket)
    requires limit.Valid()
  {
    if k in s.buckets then
      var b := Bucket(Level(limit, s, k, now), now);
      (s.(buckets := s.buckets[k := b]), b)
    else
      (Swept(limit, sweeps, Inserted(limit, s, k, now), now), Bucket(limit.Full(), now))
  }

  /** A write through the bucket's pointer. */
  function Written(s: State, k: string, b: Bucket): State {
    if k in s.buckets then s.(buckets := s.buckets[k := b]) else s
  }

  function Allowed(limit: Limit, sweeps: bool, s: State, k: string, now: int): (State, bool)
    requires limit.Valid()
  {
    var (s1, b) := Topped(limit, sweeps, s, k, now);
    if 1.0 <= b.tokens then (Written(s1, k, b.(tokens := b.tokens - 1.0)), true) else (s1, false)
  }

  function Refunded(limit: Limit, sweeps: bool, s: State, k: string, now: int): State
    requires limit.Valid()
  {
    var (s1, b) := Topped(limit, sweeps, s, k, now);
    Written(s1, k, b.(tokens := MinReal(limit.Full(), b.tokens + 1.0)))
  }

  /** The limiter itself. */
  class Limiter {
    const limit: Limit
    var buckets: map<string, Bucket>
    var lastGC: Option<int>

    constructor (count: nat, window: int)
      requires 0 < window
      ensures limit == Limit(count, window) && Contents() == State(map[], None)
    {
      limit := Limit(count, window);
      buckets := map[];
      lastGC := None;
    }

    ghost function Contents(): State
      reads this
    {
      State(buckets, lastGC)
    }

    method Allow(key: string, now: int) returns (ok: bool)
      requires limit.Valid()
      modifies this
      ensures (Contents(), ok) == Allowed(limit, true, old(Contents()), key, now)
    {
      var b := Refill(key, now);
      if 1.0 <= b.tokens {
        Write(key, b.(tokens := b.tokens - 1.0));
        return true;
      }
      return false;
    }

    method Refund(key: string, now: int)
      requires limit.Valid()
      modifies this
      ensures Contents() == Refunded(limit, true, old(Contents()), key, now)
    {
      var b := Refill(key, now);
      b := b.(tokens := b.tokens + 1.0);
      if limit.count as real < b.tokens {
        b := b.(tokens := limit.count as real);
      }
      Write(key, b);
    }

    method Refill(key: string, now: int) returns (b: Bucket)
      requires limit.Valid()
      modifies this
      ensures (Contents(), b) == Topped(limit, true, old(Contents()), key, now)
    {
      if key !in buckets {
        b := Bucket(limit.count as real, now);
        buckets := buckets[key := b];
        Gc(now);
        return;
      }
      b := buckets[key];
      b := b.(tokens := b.tokens + limit.Accrued(now - b.lastSeen));
      if limit.count as real < b.tokens {
        b := b.(tokens := limit.count as real);
      }
      b := b.(lastSeen := now);
      buckets := buckets[key := b];
    }

    method Write(key: string, b: Bucket)
      modifies this
      ensures Contents() == Written(old(Contents()), key, b)
    {
      if key in buckets {
        buckets := buckets[key := b];
      }
    }

    method Gc(now: int)
      requires limit.Valid()
      modifies this
      ensures Contents() == Swept(limit, true, old(Contents()), now)
    {
      if |buckets| < GC_THRESHOLD || (lastGC.Some? && now - lastGC.value < GC_INTERVAL) {
        return;
      }
      lastGC := Some(now);
      ghost var was := buckets;
      var todo := buckets.Keys;
      while todo != {}
        invariant todo <= was.Keys && lastGC == Some(now)
        invariant buckets == map k | k in was && (k in todo || !Refilled(limit, was[k], now)) :: was[k]
        decreases todo
      {
        var k :| k in todo;
        if limit.count as real <= buckets[k].tokens + limit.Accrued(now - buckets[k].lastSeen) {
          buckets := buckets - {k};
        }
        todo := todo - {k};
      }
    }
  }

  // ---------- the rate and the sweep ----------

  /** Tokens come at `count` a window. */
  lemma AccruedExactly(limit: Limit, d: int)
    requires limit.Valid()
    ensures limit.Accrued(d) * limit.window as real == d as real * limit.count as real
  {
    var rate := limit.count as real / limit.window as real;
    assert rate * limit.window as real == limit.count as real;
    assert d as real * rate * limit.window as real == d as real * (rate * limit.window as real);
  }

  /** Over n windows or less, at most n times the count. */
  lemma AccruedInWindows(limit: Limit, d: int, n: nat)
    requires limit.Valid() && d <= n * limit.window
    ensures limit.Accrued(d) <= n as real * limit.count as real
  {
    AccruedExactly(limit, d);
    Scaled(limit.Accrued(d), limit.window as real, d as real, n as real, limit.count as real);
  }

  lemma Scaled(x: real, w: real, d: real, n: real, c: real)
    requires 0.0 < w && 0.0 <= c && x * w == d * c && d <= n * w
    ensures x <= n * c
  {
    assert d * c <= n * w * c;
    assert (x - n * c) * w <= 0.0;
    TimesPositive(x - n * c, w);
  }

  /** A sweep runs when there are a thousand buckets and none has run within a second; it
      drops exactly the buckets that are full by then. */
  lemma SweepExactly(limit: Limit, s: State, now: int)
    requires Sound(limit, s, now)
    ensures var s' := Swept(limit, true, s, now);
            if 1000 <= |s.buckets| && (s.lastGC.None? || s.lastGC.value + 1_000_000_000 <= now) then
              && s'.lastGC == Some(now)
              && forall k :: (k in s'.buckets <==> k in s.buckets && Level(limit, s, k, now) < limit.Full())
                             && (k in s'.buckets ==> s'.buckets[k] == s.buckets[k])
            else s' == s
  {
  }

  /** A key's own call sweeps when it inserts the thousandth bucket or a later one, no
      sweep having run within a second. */
  lemma OwnSweepExactly(limit: Limit, s: State, k: string, now: int)
    ensures SweptOnInsert(limit, s, k, now) <==>
              && k !in s.buckets && 999 <= |s.buckets|
              && (s.lastGC.None? || s.lastGC.value + 1_000_000_000 <= now)
  {
  }

  // ---------- one call ----------

  /** Waiting only refills: the level now is the level then plus what accrued, capped. */
  lemma LevelLater(limit: Limit, s: State, k: string, t1: int, t2: int)
    requires Sound(limit, s, t1) && t1 <= t2
    ensures Level(limit, s, k, t2) == MinReal(limit.Full(), Level(limit, s, k, t1) + limit.Accrued(t2 - t1))
    ensures 0.0 <= Level(limit, s, k, t1) <= limit.Full()
    ensures Sound(limit, s, t2)
  {
    limit.AccruedNonNegative(t2 - t1);
    if k in s.buckets {
      var seen := s.buckets[k].lastSeen;
      limit.AccruedNonNegative(t1 - seen);
      limit.AccruedAdds(t1 - seen, t2 - t1);
    }
  }

  /** Topping a bucket up, sweep or no sweep, changes no key's level. */
  lemma ToppedKeepsLevels(limit: Limit, sweeps: bool, s: State, k: string, now: int)
    requires Sound(limit, s, now)
    ensures var (s1, b) := Topped(limit, sweeps, s, k, now);
            && Sound(limit, s1, now)
            && b == Bucket(Level(limit, s, k, now), now)
            && 0.0 <= b.tokens <= limit.Full()
            && (k in s1.buckets <==> !(sweeps && SweptOnInsert(limit, s, k, now)))
            && (k in s1.buckets ==> s1.buckets[k] == b)
            && (forall j :: Level(limit, s1, j, now) == Level(limit, s, j, now))
  {
    var (s1, b) := Topped(limit, sweeps, s, k, now);
    LevelLater(limit, s, k, now, now);
    assert limit.Accrued(0) == 0.0;
    forall j ensures Level(limit, s1, j, now) == Level(limit, s, j, now) {
      if k !in s.buckets {
        var s0 := Inserted(limit, s, k, now);
        assert Level(limit, s0, j, now) == Level(limit, s, j, now);
      }
    }
  }

  /** What Allow does to the levels: it takes one token from its own key when it
      says yes, unless the sweep forgot the bucket first; nothing else moves. */
  lemma AllowedLevels(limit: Limit, sweeps: bool, s: State, k: string, now: int)
    requires Sound(limit, s, now)
    ensures var (s', ok) := Allowed(limit, sweeps, s, k, now);
            && Sound(limit, s', now)
            && (ok <==> 1.0 <= Level(limit, s, k, now))
            && Level(limit, s', k, now) == Level(limit, s, k, now)
                 - (if ok && !(sweeps && SweptOnInsert(limit, s, k, now)) then 1.0 else 0.0)
            && (forall j :: j != k ==> Level(limit, s', j, now) == Level(limit, s, j, now))
  {
    ToppedKeepsLevels(limit, sweeps, s, k, now);
    assert limit.Accrued(0) == 0.0;
  }

  lemma RefundedLevels(limit: Limit, sweeps: bool, s: State, k: string, now: int)
    requires Sound(limit, s, now)
    ensures var s' := Refunded(limit, sweeps, s, k, now);
            && Sound(limit, s', now)
            && Level(limit, s', k, now) == MinReal(limit.Full(), Level(limit, s, k, now) + 1.0)
            && (forall j :: j != k ==> Level(limit, s', j, now) == Level(limit, s, j, now))
  {
    ToppedKeepsLevels(limit, sweeps, s, k, now);
    assert limit.Accrued(0) == 0.0;
  }

  /** Spending a token and giving it back is a plain refill: every key can spend
      exactly what it could, and the limiter is the very same state unless the
      spend's own insertion swept. */
  lemma AllowThenRefund(limit: Limit, s: State, k: string, now: int)
    requires Sound(limit, s, now) && Allowed(limit, true, s, k, now).1
    ensures var plain := Topped(limit, true, s, k, now).0;
            var back := Refunded(limit, true, Allowed(limit, true, s, k, now).0, k, now);
            && (forall j :: Level(limit, back, j, now) == Level(limit, plain, j, now))
            && (back == plain <==> !SweptOnInsert(limit, s, k, now))
  {
    var plain := Topped(limit, true, s, k, now).0;
    var spent := Allowed(limit, true, s, k, now).0;
    var back := Refunded(limit, true, spent, k, now);
    ToppedKeepsLevels(limit, true, s, k, now);
    AllowedLevels(limit, true, s, k, now);
    RefundedLevels(limit, true, spent, k, now);
    assert limit.Accrued(0) == 0.0;
    if SweptOnInsert(limit, s, k, now) {
      assert k !in spent.buckets && k !in plain.buckets;
      assert k in back.buckets;
    } else {
      assert back.buckets == plain.buckets;
    }
  }

  // ---------- runs ----------

  datatype Call = Allow(key: string, at: int) | Refund(key: string, at: int)

  function Step(limit: Limit, sweeps: bool, s: State, c: Call): State
    requires limit.Valid()
  {
    match c
    case Allow(k, t) => Allowed(limit, sweeps, s, k, t).0
    case Refund(k, t) => Refunded(limit, sweeps, s, k, t)
  }

  function Run(limit: Limit, sweeps: bool, s: State, calls: seq<Call>): State
    requires limit.Valid()
    decreases |calls|
  {
    if calls == [] then s else Run(limit, sweeps, Step(limit, sweeps, s, calls[0]), calls[1..])
  }

  /** The calls are in clock order, within [from, to]. */
  ghost predicate InOrder(calls: seq<Call>, from: int, to: int) {
    if calls == [] then from <= to else from <= calls[0].at && InOrder(calls[1..], calls[0].at, to)
  }

  /** The answers key k was given over a run. */
  function Answers(limit: Limit, sweeps: bool, s: State, calls: seq<Call>, k: string): seq<bool>
    requires limit.Valid()
    decreases |calls|
  {
    if calls == [] then []
    else
      var rest := Answers(limit, sweeps, Step(limit, sweeps, s, calls[0]), calls[1..], k);
      if calls[0].Allow? && calls[0].key == k then [Allowed(limit, sweeps, s, k, calls[0].at).1] + rest else rest
  }

  function Trues(bs: seq<bool>): nat {
    if bs == [] then 0 else (if bs[0] then 1 else 0) + Trues(bs[1..])
  }

  /** Allow calls for k whose own insertion swept, over a run. */
  function Sweeps(limit: Limit, sweeps: bool, s: State, calls: seq<Call>, k: string): nat
    requires limit.Valid()
    decreases |calls|
  {
    if calls == [] then 0
    else
      (if sweeps && calls[0].Allow? && calls[0].key == k && SweptOnInsert(limit, s, k, calls[0].at) then 1 else 0)
      + Sweeps(limit, sweeps, Step(limit, sweeps, s, calls[0]), calls[1..], k)
  }

  function Refunds(calls: seq<Call>, k: string): nat {
    if calls == [] then 0
    else (if calls[0].Refund? && calls[0].key == k then 1 else 0) + Refunds(calls[1..], k)
  }

  /** What one call does to one key's level. */
  lemma StepLevel(limit: Limit, sweeps: bool, s: State, c: Call, k: string)
    requires Sound(limit, s, c.at)
    ensures Sound(limit, Step(limit, sweeps, s, c), c.at)
    ensures var before := Level(limit, s, k, c.at);
            Level(limit, Step(limit, sweeps, s, c), k, c.at) ==
            if c.key != k then before
            else if c.Refund? then MinReal(limit.Full(), before + 1.0)
            else if 1.0 <= before && !(sweeps && SweptOnInsert(limit, s, k, c.at)) then before - 1.0
            else before
  {
    if c.Allow? {
      AllowedLevels(limit, sweeps, s, c.key, c.at);
    } else {
      RefundedLevels(limit, sweeps, s, c.key, c.at);
    }
  }

  /** Conservation: tokens spent plus tokens left never exceed tokens held,
      accrued, refunded, or forgotten by a sweep of the key's own insertion. */
  lemma {:induction false} Conservation(limit: Limit, sweeps: bool, s: State, calls: seq<Call>, k: string, from: int,
                                        to: int)
    requires Sound(limit, s, from) && InOrder(calls, from, to)
    ensures Sound(limit, Run(limit, sweeps, s, calls), to) && from <= to
    ensures Trues(Answers(limit, sweeps, s, calls, k)) as real + Level(limit, Run(limit, sweeps, s, calls), k, to)
            <= Level(limit, s, k, from) + limit.Accrued(to - from)
               + Refunds(calls, k) as real + Sweeps(limit, sweeps, s, calls, k) as real
    decreases |calls|
  {
    if calls == [] {
      LevelLater(limit, s, k, from, to);
    } else {
      var c := calls[0];
      var s' := Step(limit, sweeps, s, c);
      LevelLater(limit, s, k, from, c.at);
      StepLevel(limit, sweeps, s, c, k);
      if c.Allow? && c.key == k {
        AllowedLevels(limit, sweeps, s, k, c.at);
        var rest := Answers(limit, sweeps, s', calls[1..], k);
        var first := Allowed(limit, sweeps, s, k, c.at).1;
        assert ([first] + rest)[1..] == rest;
      }
      Conservation(limit, sweeps, s', calls[1..], k, c.at, to);
      limit.AccruedAdds(c.at - from, to - c.at);
    }
  }

  /** Over any interval a key is allowed at most count + rate * length, plus its
      refunds, plus the sweeps of its own insertion. */
  lemma AllowBound(limit: Limit, s: State, calls: seq<Call>, k: string, from: int, to: int)
    requires Sound(limit, s, from) && InOrder(calls, from, to)
    ensures Trues(Answers(limit, true, s, calls, k)) as real
            <= limit.Full() + limit.Accrued(to - from)
               + Refunds(calls, k) as real + Sweeps(limit, true, s, calls, k) as real
  {
    Conservation(limit, true, s, calls, k, from, to);
    LevelLater(limit, s, k, from, from);
    LevelLater(limit, Run(limit, true, s, calls), k, to, to);
  }

  /** In plain numbers: over n windows or less, at most n + 1 times the count, and the same
      again. */
  lemma AllowBoundInWindows(limit: Limit, s: State, calls: seq<Call>, k: string, from: int, to: int, n: nat)
    requires Sound(limit, s, from) && InOrder(calls, from, to) && to - from <= n * limit.window
    ensures Trues(Answers(limit, true, s, calls, k)) as real
            <= limit.count as real + n as real * limit.count as real
               + Refunds(calls, k) as real + Sweeps(limit, true, s, calls, k) as real
  {
    AllowBound(limit, s, calls, k, from, to);
    AccruedInWindows(limit, to - from, n);
  }

  // ---------- the sweeping limiter against one that never forgets ----------

  /** One Allow on the key: the limiter that forgets nothing passes it only if the
      other does, or spends from its lead. */
  lemma KeyCallLead(limit: Limit, s: State, p: State, lead: nat, k: string, at: int)
    requires Sound(limit, s, at) && Sound(limit, p, at)
             && Level(limit, p, k, at) <= lead as real + Level(limit, s, k, at)
    ensures var (s', okS) := Allowed(limit, true, s, k, at); var (p', okP) := Allowed(limit, false, p, k, at);
            && (okP && !okS ==> 0 < lead)
            && Level(limit, p', k, at) <=
              (lead + (if okS then 1 else 0) - (if okP then 1 else 0)) as real + Level(limit, s', k, at)
  {
    AllowedLevels(limit, true, s, k, at);
    AllowedLevels(limit, false, p, k, at);
  }

  /** If `lead` allowed calls plus the level left are no fewer than the reference's
      level, the sweeping limiter never falls behind the reference. */
  lemma {:induction false} NeverBehind(limit: Limit, s: State, p: State, lead: nat, calls: seq<Call>, k: string,
                                       from: int, to: int)
    requires Sound(limit, s, from) && Sound(limit, p, from) && InOrder(calls, from, to)
    requires Level(limit, p, k, from) <= lead as real + Level(limit, s, k, from)
    ensures Trues(Answers(limit, false, p, calls, k)) <= lead + Trues(Answers(limit, true, s, calls, k))
    decreases |calls|
  {
    if calls == [] {
    } else {
      var c := calls[0];
      var s', p' := Step(limit, true, s, c), Step(limit, false, p, c);
      LevelLater(limit, s, k, from, c.at);
      LevelLater(limit, p, k, from, c.at);
      StepLevel(limit, true, s, c, k);
      StepLevel(limit, false, p, c, k);
      var lead' := lead;
      if c.Allow? && c.key == k {
        KeyCallLead(limit, s, p, lead, k, c.at);
        var okS, okP := Allowed(limit, true, s, k, c.at).1, Allowed(limit, false, p, k, c.at).1;
        var restS, restP := Answers(limit, true, s', calls[1..], k), Answers(limit, false, p', calls[1..], k);
        assert ([okS] + restS)[1..] == restS && ([okP] + restP)[1..] == restP;
        lead' := lead + (if okS then 1 else 0) - (if okP then 1 else 0);
      }
      NeverBehind(limit, s', p', lead', calls[1..], k, c.at, to);
    }
  }

  /** Counting every call so far, a limiter with sweeping has allowed each key at
      least as often as one that never forgets. */
  lemma SweepingNeverStricter(limit: Limit, s: State, calls: seq<Call>, k: string, from: int, to: int)
    requires Sound(limit, s, from) && InOrder(calls, from, to)
    ensures Trues(Answers(limit, false, s, calls, k)) <= Trues(Answers(limit, true, s, calls, k))
  {
    NeverBehind(limit, s, s, 0, calls, k, from, to);
  }

  lemma {:induction false} SameLevelsSameAnswers(limit: Limit, s: State, p: State, calls: seq<Call>, k: string,
                                                 from: int, to: int)
    requires Sound(limit, s, from) && Sound(limit, p, from) && InOrder(calls, from, to)
    requires Level(limit, s, k, from) == Level(limit, p, k, from)
    requires Sweeps(limit, true, s, calls, k) == 0
    ensures Answers(limit, true, s, calls, k) == Answers(limit, false, p, calls, k)
    decreases |calls|
  {
    if calls == [] {
    } else {
      var c := calls[0];
      LevelLater(limit, s, k, from, c.at);
      LevelLater(limit, p, k, from, c.at);
      StepLevel(limit, true, s, c, k);
      StepLevel(limit, false, p, c, k);
      if c.Allow? && c.key == k {
        AllowedLevels(limit, true, s, k, c.at);
        AllowedLevels(limit, false, p, k, c.at);
      }
      SameLevelsSameAnswers(limit, Step(limit, true, s, c), Step(limit, false, p, c), calls[1..], k, c.at, to);
    }
  }

  /** With no sweep during the key's own insertion, the two limiters give the key
      the same answers one by one, whatever sweeps other keys caused. */
  lemma NoOwnSweepSameAnswers(limit: Limit, s: State, calls: seq<Call>, k: string, from: int, to: int)
    requires Sound(limit, s, from) && InOrder(calls, from, to)
    requires Sweeps(limit, true, s, calls, k) == 0
    ensures Answers(limit, true, s, calls, k) == Answers(limit, false, s, calls, k)
  {
    SameLevelsSameAnswers(limit, s, s, calls, k, from, to);
  }

  /** n simultaneous requests for one key. */
  function Burst(k: string, t: int, n: nat): (calls: seq<Call>)
    ensures |calls| == n
  {
    if n == 0 then [] else [Allow(k, t)] + Burst(k, t, n - 1)
  }

  /** Once a key's first sighting is past, a burst spends whole tokens until none are left. */
  lemma {:induction false} BurstSpends(limit: Limit, sweeps: bool, s: State, k: string, t: int, n: nat, tokens: nat)
    requires Sound(limit, s, t) && Level(limit, s, k, t) == tokens as real
    requires sweeps ==> k in s.buckets || s.lastGC == Some(t)
    ensures Trues(Answers(limit, sweeps, s, Burst(k, t, n), k)) == if n < tokens then n else tokens
    decreases n
  {
    if n == 0 {
    } else {
      AllowedLevels(limit, sweeps, s, k, t);
      var (s', ok) := Allowed(limit, sweeps, s, k, t);
      BurstSpends(limit, sweeps, s', k, t, n - 1, if ok then tokens - 1 else tokens);
      var rest := Answers(limit, sweeps, s', Burst(k, t, n - 1), k);
      assert Burst(k, t, n)[1..] == Burst(k, t, n - 1);
      assert ([ok] + rest)[1..] == rest;
    }
  }

  /** Exactly when a key's first sighting sweeps is dropping a full bucket
      observable: count + 1 simultaneous requests are then all allowed, where a
      limiter that never forgets allows count. */
  lemma OwnSweepIsObservable(limit: Limit, s: State, k: string, t: int)
    requires Sound(limit, s, t) && k !in s.buckets && 0 < limit.count
    ensures Trues(Answers(limit, false, s, Burst(k, t, limit.count + 1), k)) == limit.count
    ensures Trues(Answers(limit, true, s, Burst(k, t, limit.count + 1), k))
            == limit.count + (if SweptOnInsert(limit, s, k, t) then 1 else 0)
  {
    var n := limit.count;
    BurstSpends(limit, false, s, k, t, n + 1, n);
    AllowedLevels(limit, true, s, k, t);
    var s' := Allowed(limit, true, s, k, t).0;
    BurstSpends(limit, true, s', k, t, n, if SweptOnInsert(limit, s, k, t) then n else n - 1);
    var rest := Answers(limit, true, s', Burst(k, t, n), k);
    assert Burst(k, t, n + 1)[1..] == Burst(k, t, n);
    assert ([true] + rest)[1..] == rest;
  }

  // ---------- "never stricter" holds for counts, not for each answer ----------

  function Name(n: nat): (s: string)
    ensures |s| == n
  {
    seq(n, _ => 'x')
  }

  /** n keys, each with a full bucket. */
  function Crowd(limit: Limit, n: nat): (m: map<string, Bucket>)
    ensures |m| == n
    ensures forall k :: k in m ==> 0 < |k| <= n && m[k] == Bucket(limit.Full(), 0)
  {
    if n == 0 then map[] else Crowd(limit, n - 1)[Name(n) := Bucket(limit.Full(), 0)]
  }

  /** A concrete run in which the sweeping limiter refuses a request that the
      reference allows, having allowed an earlier one that the reference refused. */
  lemma StricterForOneAnswer()
    ensures var limit := Limit(1, 1_000_000_000);
            var s := State(Crowd(limit, GC_THRESHOLD - 1), None);
            var calls := [Allow("", 0), Allow("", 500_000_000), Allow("", 1_000_000_000)];
            && Sound(limit, s, 0) && InOrder(calls, 0, 1_000_000_000)
            && Answers(limit, true, s, calls, "") == [true, true, false]
            && Answers(limit, false, s, calls, "") == [true, false, true]
  {
    var limit := Limit(1, 1_000_000_000);
    var s := State(Crowd(limit, GC_THRESHOLD - 1), None);
    var c1, c2, c3 := Allow("", 0), Allow("", 500_000_000), Allow("", 1_000_000_000);
    assert [c1, c2, c3][1..] == [c2, c3] && [c2, c3][1..] == [c3] && [c3][1..] == [];
    assert SweptOnInsert(limit, s, "", 0);
    ThreeAnswers(limit, true, s, c1, c2, c3);
    ThreeAnswers(limit, false, s, c1, c2, c3);
  }

  lemma ThreeAnswers(limit: Limit, sweeps: bool, s: State, c1: Call, c2: Call, c3: Call)
    requires limit == Limit(1, 1_000_000_000) && Sound(limit, s, 0) && SweptOnInsert(limit, s, "", 0)
    requires c1 == Allow("", 0) && c2 == Allow("", 500_000_000) && c3 == Allow("", 1_000_000_000)
    ensures Answers(limit, sweeps, s, [c1, c2, c3], "") == if sweeps then [true, true, false] else [true, false, true]
  {
    AllowedLevels(limit, sweeps, s, "", 0);
    var s1 := Allowed(limit, sweeps, s, "", 0).0;
    LevelLater(limit, s1, "", 0, c2.at);
    AllowedLevels(limit, sweeps, s1, "", c2.at);
    var s2 := Allowed(limit, sweeps, s1, "", c2.at).0;
    LevelLater(limit, s2, "", c2.at, c3.at);
    AllowedLevels(limit, sweeps, s2, "", c3.at);
    assert limit.Accrued(500_000_000) == 0.5;
    var s3 := Allowed(limit, sweeps, s2, "", c3.at).0;
    assert [c1, c2, c3][1..] == [c2, c3] && [c2, c3][1..] == [c3] && [c3][1..] == [];
    assert Answers(limit, sweeps, s3, [], "") == [];
    assert Answers(limit, sweeps, s2, [c3], "") == [Allowed(limit, sweeps, s2, "", c3.at).1];
    assert Answers(limit, sweeps, s1, [c2, c3], "") ==
      [Allowed(limit, sweeps, s1, "", c2.at).1] + Answers(limit, sweeps, s2, [c3], "");
  }

  // ---------- when some answer can be stricter ----------

  predicate OnlyOn(calls: seq<Call>, k: string) { forall i :: 0 <= i < |calls| ==> calls[i].key == k }

  /** The first list of answers refuses a request that the second allows. */
  ghost predicate SomeStricter(a: seq<bool>, b: seq<bool>) {
    exists i :: 0 <= i < |a| && i < |b| && !a[i] && b[i]
  }

  /** Some calls on k alone make the sweeping limiter refuse one that the other allows. */
  ghost predicate CanBeStricter(limit: Limit, s: State, k: string, from: int)
    requires limit.Valid()
  {
    exists calls, to :: InOrder(calls, from, to) && OnlyOn(calls, k)
                        && SomeStricter(Answers(limit, true, s, calls, k), Answers(limit, false, s, calls, k))
  }

  /** A key that is held, or about to be inserted below the threshold, sweeps nothing by its own calls. */
  lemma {:induction false} FewBucketsNoSweep(limit: Limit, s: State, calls: seq<Call>, k: string)
    requires limit.Valid() && OnlyOn(calls, k) && (k in s.buckets || |s.buckets| + 1 < GC_THRESHOLD)
    ensures Sweeps(limit, true, s, calls, k) == 0
    decreases |calls|
  {
    if calls == [] {
    } else {
      assert calls[0].key == k;
      FewBucketsNoSweep(limit, Step(limit, true, s, calls[0]), calls[1..], k);
    }
  }

  lemma StricterTail(a: seq<bool>, restA: seq<bool>, b: seq<bool>, restB: seq<bool>)
    requires |a| == 1 == |b| && (b[0] ==> a[0]) && !SomeStricter(restA, restB)
    ensures !SomeStricter(a + restA, b + restB)
  {
    forall i | 0 <= i < |a + restA| && i < |b + restB| && !(a + restA)[i] ensures !(b + restB)[i] {
      if 0 < i {
        assert (a + restA)[i] == restA[i - 1] && (b + restB)[i] == restB[i - 1];
      }
    }
  }

  lemma WholeAccrued(limit: Limit, d: int)
    requires limit.Valid() && limit.count % limit.window == 0
    ensures limit.Accrued(d) == (limit.count / limit.window * d) as real
  {
    var q := limit.count / limit.window;
    assert limit.count == q * limit.window;
    assert limit.count as real == q as real * limit.window as real;
    assert limit.count as real / limit.window as real == q as real;
  }

  /** One call keeps whole levels whole and in order. */
  lemma WholeStep(limit: Limit, s: State, p: State, m: int, n: int, c: Call, k: string) returns (m': int, n': int)
    requires Sound(limit, s, c.at) && Sound(limit, p, c.at) && n <= m
    requires Level(limit, s, k, c.at) == m as real && Level(limit, p, k, c.at) == n as real
    ensures Level(limit, Step(limit, true, s, c), k, c.at) == m' as real
    ensures Level(limit, Step(limit, false, p, c), k, c.at) == n' as real && n' <= m'
    ensures Sound(limit, Step(limit, true, s, c), c.at) && Sound(limit, Step(limit, false, p, c), c.at)
  {
    StepLevel(limit, true, s, c, k);
    StepLevel(limit, false, p, c, k);
    LevelLater(limit, p, k, c.at, c.at);
    m', n' := m, n;
    if c.key == k {
      if c.Refund? {
        m' := if limit.count < m + 1 then limit.count else m + 1;
        n' := if limit.count < n + 1 then limit.count else n + 1;
      } else {
        if 1 <= m && !SweptOnInsert(limit, s, k, c.at) { m' := m - 1; }
        if 1 <= n { n' := n - 1; }
      }
    }
  }

  /** So does waiting. */
  lemma WholeLater(limit: Limit, s: State, p: State, m: int, n: int, k: string, from: int, at: int)
    returns (m': int, n': int)
    requires Sound(limit, s, from) && Sound(limit, p, from) && from <= at && limit.count % limit.window == 0
    requires Level(limit, s, k, from) == m as real && Level(limit, p, k, from) == n as real && n <= m
    ensures Level(limit, s, k, at) == m' as real && Level(limit, p, k, at) == n' as real && n' <= m'
    ensures Sound(limit, s, at) && Sound(limit, p, at)
  {
    var d := limit.count / limit.window * (at - from);
    WholeAccrued(limit, at - from);
    LevelLater(limit, s, k, from, at);
    LevelLater(limit, p, k, from, at);
    m', n' := if limit.count < m + d then limit.count else m + d, if limit.count < n + d then limit.count else n + d;
  }

  /** With a whole number of tokens a tick, and whole levels no lower than the
      reference's, no answer is stricter. */
  lemma {:induction false} WholeNeverStricter(limit: Limit, s: State, p: State, m: int, n: int, calls: seq<Call>,
                                              k: string, from: int, to: int)
    requires Sound(limit, s, from) && Sound(limit, p, from) && InOrder(calls, from, to)
             && limit.count % limit.window == 0
    requires Level(limit, s, k, from) == m as real && Level(limit, p, k, from) == n as real && n <= m
    ensures !SomeStricter(Answers(limit, true, s, calls, k), Answers(limit, false, p, calls, k))
    decreases |calls|
  {
    if calls == [] {
    } else {
      var c := calls[0];
      var m1, n1 := WholeLater(limit, s, p, m, n, k, from, c.at);
      var m2, n2 := WholeStep(limit, s, p, m1, n1, c, k);
      WholeNeverStricter(limit, Step(limit, true, s, c), Step(limit, false, p, c), m2, n2, calls[1..], k, c.at, to);
      if c.Allow? && c.key == k {
        WholeAnswer(limit, s, p, m1, n1, c, k);
        StricterTail([Allowed(limit, true, s, k, c.at).1], Answers(limit, true, Step(limit, true, s, c), calls[1..], k),
                     [Allowed(limit, false, p, k, c.at).1],
                       Answers(limit, false, Step(limit, false, p, c), calls[1..], k));
      }
    }
  }

  lemma WholeAnswer(limit: Limit, s: State, p: State, m: int, n: int, c: Call, k: string)
    requires Sound(limit, s, c.at) && Sound(limit, p, c.at) && n <= m
    requires Level(limit, s, k, c.at) == m as real && Level(limit, p, k, c.at) == n as real
    ensures Allowed(limit, false, p, k, c.at).1 ==> Allowed(limit, true, s, k, c.at).1
  {
    AllowedLevels(limit, true, s, k, c.at);
    AllowedLevels(limit, false, p, k, c.at);
  }

  /** k's next call will not sweep: it is held, or a sweep has only just run. */
  predicate Calm(s: State, k: string, t: int) {
    k in s.buckets || (s.lastGC.Some? && t - s.lastGC.value < GC_INTERVAL)
  }

  /** A burst takes as many whole tokens as it asks for and there are. */
  lemma {:induction false} BurstTakes(limit: Limit, sweeps: bool, s: State, k: string, t: int, n: nat, tokens: nat)
    requires Sound(limit, s, t) && tokens as real <= Level(limit, s, k, t) < tokens as real + 1.0
    requires sweeps ==> Calm(s, k, t)
    ensures var s' := Run(limit, sweeps, s, Burst(k, t, n));
            && Sound(limit, s', t)
            && Level(limit, s', k, t) == Level(limit, s, k, t) - (if n < tokens then n else tokens) as real
            && (sweeps ==> Calm(s', k, t) && (s'.lastGC == s.lastGC) && (0 < n || k in s.buckets ==> k in s'.buckets))
    decreases n
  {
    if n == 0 {
    } else {
      AllowedLevels(limit, sweeps, s, k, t);
      var (s', ok) := Allowed(limit, sweeps, s, k, t);
      assert Burst(k, t, n)[1..] == Burst(k, t, n - 1);
      BurstTakes(limit, sweeps, s', k, t, n - 1, if ok then tokens - 1 else tokens);
    }
  }

  lemma {:induction false} RunJoins(limit: Limit, sweeps: bool, s: State, xs: seq<Call>, ys: seq<Call>)
    requires limit.Valid()
    ensures Run(limit, sweeps, s, xs + ys) == Run(limit, sweeps, Run(limit, sweeps, s, xs), ys)
    decreases |xs|
  {
    if xs == [] {
      assert xs + ys == ys;
    } else {
      assert (xs + ys)[1..] == xs[1..] + ys;
      RunJoins(limit, sweeps, Step(limit, sweeps, s, xs[0]), xs[1..], ys);
    }
  }

  lemma {:induction false} OrderJoins(xs: seq<Call>, ys: seq<Call>, from: int, mid: int, to: int)
    requires InOrder(xs, from, mid) && InOrder(ys, mid, to)
    ensures InOrder(xs + ys, from, to)
  {
    if xs == [] {
      OrderLater(ys, from, mid, to);
      assert xs + ys == ys;
    } else {
      OrderJoins(xs[1..], ys, xs[0].at, mid, to);
      assert (xs + ys)[1..] == xs[1..] + ys;
    }
  }

  lemma {:induction false} OrderLater(ys: seq<Call>, from: int, mid: int, to: int)
    requires from <= mid && InOrder(ys, mid, to)
    ensures InOrder(ys, from, to)
  {
    if ys != [] {
      assert mid <= ys[0].at;
    }
  }

  lemma {:induction false} BurstInOrder(k: string, t: int, n: nat, from: int)
    requires from <= t
    ensures InOrder(Burst(k, t, n), from, t) && OnlyOn(Burst(k, t, n), k)
    decreases n
  {
    if n == 0 {
    } else {
      BurstInOrder(k, t, n - 1, t);
      assert Burst(k, t, n)[1..] == Burst(k, t, n - 1);
    }
  }

  lemma {:induction false} SameLength(limit: Limit, s: State, p: State, calls: seq<Call>, k: string)
    requires limit.Valid()
    ensures |Answers(limit, true, s, calls, k)| == |Answers(limit, false, p, calls, k)|
    decreases |calls|
  {
    if calls == [] {
    } else {
      SameLength(limit, Step(limit, true, s, calls[0]), Step(limit, false, p, calls[0]), calls[1..], k);
    }
  }

  lemma {:induction false} LastAnswer(limit: Limit, sweeps: bool, s: State, calls: seq<Call>, k: string, t: int)
    requires limit.Valid()
    ensures Answers(limit, sweeps, s, calls + [Allow(k, t)], k)
         == Answers(limit, sweeps, s, calls, k) + [Allowed(limit, sweeps, Run(limit, sweeps, s, calls), k, t).1]
    decreases |calls|
  {
    var last := Allow(k, t);
    if calls == [] {
      assert calls + [last] == [last] && [last][1..] == [];
      assert Answers(limit, sweeps, Step(limit, sweeps, s, last), [], k) == [];
    } else {
      LastAnswer(limit, sweeps, Step(limit, sweeps, s, calls[0]), calls[1..], k, t);
      assert (calls + [last])[1..] == calls[1..] + [last];
    }
  }

  /** A fraction of a token accrues in one tick beyond the whole ones. */
  function Fraction(limit: Limit): real
    requires limit.Valid()
  {
    limit.Accrued(1) - (limit.count / limit.window) as real
  }

  function Steps(f: real, n: nat): real { if n == 0 then 0.0 else f + Steps(f, n - 1) }

  lemma {:induction false} StepsTotal(f: real, n: nat)
    ensures Steps(f, n) == n as real * f
  {
    if n == 0 {
    } else {
      StepsTotal(f, n - 1);
      assert n as real * f == (n - 1) as real * f + f;
    }
  }

  lemma FractionBounds(limit: Limit)
    requires limit.Valid() && limit.count % limit.window != 0
    ensures 0.0 < Fraction(limit) < 1.0 <= Steps(Fraction(limit), limit.window)
    ensures limit.count / limit.window + 1 <= limit.count
  {
    var q, r, w := limit.count / limit.window, limit.count % limit.window, limit.window;
    WholeTokens(limit.count, w, q, r);
    FractionTimesWindow(limit.count, w, q, r, limit.count as real / w as real);
    FractionOf(Fraction(limit), w as real, r as real);
    StepsTotal(Fraction(limit), w);
  }

  lemma WholeTokens(c: nat, w: int, q: int, r: int)
    requires 0 < w && q == c / w && r == c % w && r != 0
    ensures c == q * w + r && 1 <= r < w && q + 1 <= c
  {
    assert 2 <= w && 0 <= q;
    assert q * 2 <= q * w;
  }

  lemma FractionTimesWindow(c: nat, w: int, q: int, r: int, rate: real)
    requires 0 < w && c == q * w + r && rate == c as real / w as real
    ensures (rate - q as real) * w as real == r as real
  {
    assert rate * w as real == c as real;
    assert c as real == q as real * w as real + r as real;
  }

  lemma FractionOf(f: real, w: real, r: real)
    requires f * w == r && 1.0 <= r < w
    ensures 0.0 < f < 1.0 <= w * f
  {
    TimesPositive(f, w);
  }

  lemma TimesPositive(f: real, w: real)
    requires 0.0 < w
    ensures f <= 0.0 <==> f * w <= 0.0
    ensures 1.0 <= f ==> w <= f * w
  {
  }

  lemma TickRange(limit: Limit, low: real)
    requires limit.Valid() && limit.count % limit.window != 0 && 0.0 <= low < 1.0
    ensures var a := limit.count / limit.window;
            a as real <= MinReal(limit.Full(), low + limit.Accrued(1)) < (a + 2) as real
  {
    FractionBounds(limit);
    var a := limit.count / limit.window;
    assert limit.Accrued(1) == Fraction(limit) + a as real && (a + 1) as real <= limit.Full();
  }

  /** A tick, and then as many calls as the whole tokens it brings. */
  lemma TickDown(limit: Limit, sweeps: bool, s: State, k: string, t: int)
    requires Sound(limit, s, t) && limit.count % limit.window != 0 && Level(limit, s, k, t) < 1.0
    requires sweeps ==> k in s.buckets
    ensures var a := limit.count / limit.window;
            var s' := Run(limit, sweeps, s, Burst(k, t + 1, a));
            && Sound(limit, s', t + 1)
            && Level(limit, s', k, t + 1) == MinReal(limit.Full(), Level(limit, s, k, t) + limit.Accrued(1)) - a as real
            && (sweeps ==> k in s'.buckets)
  {
    var a := limit.count / limit.window;
    LevelLater(limit, s, k, t, t + 1);
    var level := Level(limit, s, k, t + 1);
    TickRange(limit, Level(limit, s, k, t));
    BurstTakes(limit, sweeps, s, k, t + 1, a, if level < (a + 1) as real then a else a + 1);
  }

  /** From these two states, some calls on k bring a request that the sweeping
      limiter refuses and the other allows. */
  ghost predicate Diverges(limit: Limit, s: State, p: State, k: string, from: int)
    requires limit.Valid()
  {
    exists calls, to :: InOrder(calls, from, to) && OnlyOn(calls, k) && Parted(limit, s, p, calls, k, to)
  }

  predicate Parted(limit: Limit, s: State, p: State, calls: seq<Call>, k: string, to: int)
    requires limit.Valid()
  {
    !Allowed(limit, true, Run(limit, true, s, calls), k, to).1
      && Allowed(limit, false, Run(limit, false, p, calls), k, to).1
  }

  lemma DivergesNow(limit: Limit, s: State, p: State, k: string, t: int)
    requires Sound(limit, s, t) && Sound(limit, p, t) && Level(limit, s, k, t) < 1.0 <= Level(limit, p, k, t)
    ensures Diverges(limit, s, p, k, t)
  {
    AllowedLevels(limit, true, s, k, t);
    AllowedLevels(limit, false, p, k, t);
    assert InOrder([], t, t) && OnlyOn([], k) && Parted(limit, s, p, [], k, t);
  }

  lemma DivergesLater(limit: Limit, s: State, p: State, first: seq<Call>, k: string, from: int, mid: int)
    requires limit.Valid() && InOrder(first, from, mid) && OnlyOn(first, k)
    requires Diverges(limit, Run(limit, true, s, first), Run(limit, false, p, first), k, mid)
    ensures Diverges(limit, s, p, k, from)
  {
    var s', p' := Run(limit, true, s, first), Run(limit, false, p, first);
    var rest, to :| InOrder(rest, mid, to) && OnlyOn(rest, k) && Parted(limit, s', p', rest, k, to);
    OrderJoins(first, rest, from, mid, to);
    OnlyOnJoins(first, rest, k);
    PartedLater(limit, s, p, first, rest, k, to);
  }

  lemma OnlyOnJoins(first: seq<Call>, rest: seq<Call>, k: string)
    requires OnlyOn(first, k) && OnlyOn(rest, k)
    ensures OnlyOn(first + rest, k)
  {
  }

  lemma PartedLater(limit: Limit, s: State, p: State, first: seq<Call>, rest: seq<Call>, k: string, to: int)
    requires limit.Valid()
    requires Parted(limit, Run(limit, true, s, first), Run(limit, false, p, first), rest, k, to)
    ensures Parted(limit, s, p, first + rest, k, to)
  {
    RunJoins(limit, true, s, first, rest);
    RunJoins(limit, false, p, first, rest);
  }

  /** The sweeping limiter, a fraction behind and with the reference below one
      token, is refused a token some ticks later that the reference gets. */
  lemma {:induction false} Behind(limit: Limit, s: State, p: State, k: string, t: int, n: nat)
    requires Sound(limit, s, t) && Sound(limit, p, t) && limit.count % limit.window != 0 && k in s.buckets
    requires Level(limit, p, k, t) == Level(limit, s, k, t) + Fraction(limit)
    requires 1.0 - Steps(Fraction(limit), n) <= Level(limit, p, k, t) < 1.0
    ensures Diverges(limit, s, p, k, t)
    decreases n
  {
    var tick := Burst(k, t + 1, limit.count / limit.window);
    var s', p' := Run(limit, true, s, tick), Run(limit, false, p, tick);
    TickBoth(limit, s, p, k, t, s', p');
    if 1.0 <= Level(limit, p, k, t) + Fraction(limit) {
      DivergesNow(limit, s', p', k, t + 1);
    } else {
      StepNearer(Fraction(limit), n, Level(limit, p, k, t));
      Behind(limit, s', p', k, t + 1, n - 1);
    }
    AfterTick(limit, s, p, k, t);
  }

  lemma AfterTick(limit: Limit, s: State, p: State, k: string, t: int)
    requires limit.Valid()
    requires var tick := Burst(k, t + 1, limit.count / limit.window);
             Diverges(limit, Run(limit, true, s, tick), Run(limit, false, p, tick), k, t + 1)
    ensures Diverges(limit, s, p, k, t)
  {
    BurstInOrder(k, t + 1, limit.count / limit.window, t);
    DivergesLater(limit, s, p, Burst(k, t + 1, limit.count / limit.window), k, t, t + 1);
  }

  lemma StepNearer(f: real, n: nat, level: real)
    requires 1.0 - Steps(f, n) <= level < 1.0
    ensures 0 < n && 1.0 - Steps(f, n - 1) <= level + f
  {
  }

  lemma TickLevels(limit: Limit, low: real, high: real)
    requires limit.Valid() && limit.count % limit.window != 0
    requires high == low + Fraction(limit) < 1.0
    ensures var a := (limit.count / limit.window) as real;
            && MinReal(limit.Full(), low + limit.Accrued(1)) - a == high
            && if high + Fraction(limit) < 1.0
               then MinReal(limit.Full(), high + limit.Accrued(1)) - a == high + Fraction(limit)
               else 1.0 <= MinReal(limit.Full(), high + limit.Accrued(1)) - a
  {
    FractionBounds(limit);
    var a, gained := limit.count / limit.window, limit.Accrued(1);
    assert gained == Fraction(limit) + a as real && (a + 1) as real <= limit.Full();
  }

  lemma TickBoth(limit: Limit, s: State, p: State, k: string, t: int, s': State, p': State)
    requires Sound(limit, s, t) && Sound(limit, p, t) && limit.count % limit.window != 0 && k in s.buckets
    requires Level(limit, p, k, t) == Level(limit, s, k, t) + Fraction(limit) < 1.0
    requires var tick := Burst(k, t + 1, limit.count / limit.window);
             s' == Run(limit, true, s, tick) && p' == Run(limit, false, p, tick)
    ensures Sound(limit, s', t + 1) && Sound(limit, p', t + 1) && k in s'.buckets
    ensures Level(limit, s', k, t + 1) == Level(limit, p, k, t)
    ensures var next := Level(limit, p, k, t) + Fraction(limit);
            if next < 1.0 then Level(limit, p', k, t + 1) == next else 1.0 <= Level(limit, p', k, t + 1)
  {
    FractionBounds(limit);
    TickDown(limit, true, s, k, t);
    TickDown(limit, false, p, k, t);
    TickLevels(limit, Level(limit, s, k, t), Level(limit, p, k, t));
  }

  /** A swept first sighting, a tick's worth of calls, and after the next tick a
      burst of `count`: the sweeping limiter is out of tokens, the other is not quite. */
  function Opening(limit: Limit, k: string, t: int): seq<Call>
    requires limit.Valid()
  {
    Burst(k, t, 1 + limit.count / limit.window) + Burst(k, t + 1, limit.count)
  }

  lemma FirstTick(limit: Limit, s: State, k: string, t: int)
    requires Sound(limit, s, t) && limit.count % limit.window != 0 && SweptOnInsert(limit, s, k, t)
    ensures var a := limit.count / limit.window;
            var calls := Burst(k, t, 1 + a);
            var s', p' := Run(limit, true, s, calls), Run(limit, false, s, calls);
            && Sound(limit, s', t) && Sound(limit, p', t)
            && Level(limit, s', k, t) == (limit.count - a) as real
            && Level(limit, p', k, t) == (limit.count - a - 1) as real
            && Calm(s', k, t + 1)
  {
    var a := limit.count / limit.window;
    FractionBounds(limit);
    AllowedLevels(limit, true, s, k, t);
    var s1 := Allowed(limit, true, s, k, t).0;
    assert Burst(k, t, 1 + a)[1..] == Burst(k, t, a);
    assert s1.lastGC == Some(t);
    BurstTakes(limit, true, s1, k, t, a, limit.count);
    BurstTakes(limit, false, s, k, t, 1 + a, limit.count);
  }

  lemma OpeningLeads(limit: Limit, s: State, k: string, t: int)
    requires Sound(limit, s, t) && limit.count % limit.window != 0 && SweptOnInsert(limit, s, k, t)
    ensures var calls := Opening(limit, k, t);
            var s', p' := Run(limit, true, s, calls), Run(limit, false, s, calls);
            && Sound(limit, s', t + 1) && Sound(limit, p', t + 1) && k in s'.buckets
            && Level(limit, s', k, t + 1) == 0.0 && Level(limit, p', k, t + 1) == Fraction(limit)
            && InOrder(calls, t, t + 1) && OnlyOn(calls, k)
  {
    var a := limit.count / limit.window;
    var first, burst := Burst(k, t, 1 + a), Burst(k, t + 1, limit.count);
    var s1, p1 := Run(limit, true, s, first), Run(limit, false, s, first);
    FractionBounds(limit);
    FirstTick(limit, s, k, t);
    LevelLater(limit, s1, k, t, t + 1);
    LevelLater(limit, p1, k, t, t + 1);
    BurstTakes(limit, true, s1, k, t + 1, limit.count, limit.count);
    BurstTakes(limit, false, p1, k, t + 1, limit.count, limit.count - 1);
    RunJoins(limit, true, s, first, burst);
    RunJoins(limit, false, s, first, burst);
    BurstInOrder(k, t, 1 + a, t);
    BurstInOrder(k, t + 1, limit.count, t);
    OrderJoins(first, burst, t, t, t + 1);
  }

  lemma SweepMakesStricter(limit: Limit, s: State, k: string, from: int, t: int)
    requires Sound(limit, s, t) && limit.count % limit.window != 0 && SweptOnInsert(limit, s, k, t) && from <= t
    ensures CanBeStricter(limit, s, k, from)
  {
    var first := Opening(limit, k, t);
    OpeningLeads(limit, s, k, t);
    FractionBounds(limit);
    Behind(limit, Run(limit, true, s, first), Run(limit, false, s, first), k, t + 1, limit.window);
    OrderLater(first, from, t, t + 1);
    DivergesLater(limit, s, s, first, k, from, t + 1);
    DivergingAnswers(limit, s, k, from);
  }

  lemma DivergingAnswers(limit: Limit, s: State, k: string, from: int)
    requires limit.Valid() && Diverges(limit, s, s, k, from)
    ensures CanBeStricter(limit, s, k, from)
  {
    var calls, to :| InOrder(calls, from, to) && OnlyOn(calls, k) && Parted(limit, s, s, calls, k, to);
    var all := calls + [Allow(k, to)];
    OrderJoins(calls, [Allow(k, to)], from, to, to);
    LastAnswer(limit, true, s, calls, k, to);
    LastAnswer(limit, false, s, calls, k, to);
    SameLength(limit, s, s, calls, k);
    LastOne(Answers(limit, true, s, calls, k), Answers(limit, false, s, calls, k));
    assert OnlyOn(all, k);
    assert SomeStricter(Answers(limit, true, s, all, k), Answers(limit, false, s, all, k));
  }

  lemma LastOne(a: seq<bool>, b: seq<bool>)
    requires |a| == |b|
    ensures SomeStricter(a + [false], b + [true])
  {
    assert !(a + [false])[|a|] && (b + [true])[|a|];
  }

  /** For a key not held and calls on it alone, the sweeping limiter can refuse a
      request that the other allows exactly when its first call can sweep and
      tokens do not come in whole numbers a tick. */
  lemma StricterExactly(limit: Limit, s: State, k: string, from: int)
    requires Sound(limit, s, from) && k !in s.buckets
    ensures CanBeStricter(limit, s, k, from) <==> 999 <= |s.buckets| && limit.count % limit.window != 0
  {
    if GC_THRESHOLD <= |s.buckets| + 1 && limit.count % limit.window != 0 {
      var t := if s.lastGC.Some? then Max(from, s.lastGC.value + GC_INTERVAL) else from;
      LevelLater(limit, s, k, from, t);
      SweepMakesStricter(limit, s, k, from, t);
    } else {
      forall calls, to | InOrder(calls, from, to) && OnlyOn(calls, k)
        ensures !SomeStricter(Answers(limit, true, s, calls, k), Answers(limit, false, s, calls, k))
      {
        NotStricter(limit, s, calls, k, from, to);
      }
    }
  }

  lemma NotStricter(limit: Limit, s: State, calls: seq<Call>, k: string, from: int, to: int)
    requires Sound(limit, s, from) && k !in s.buckets && InOrder(calls, from, to) && OnlyOn(calls, k)
    requires |s.buckets| + 1 < GC_THRESHOLD || limit.count % limit.window == 0
    ensures !SomeStricter(Answers(limit, true, s, calls, k), Answers(limit, false, s, calls, k))
  {
    if limit.count % limit.window == 0 {
      WholeNeverStricter(limit, s, s, limit.count, limit.count, calls, k, from, to);
    } else {
      FewBucketsNoSweep(limit, s, calls, k);
      NoOwnSweepSameAnswers(limit, s, calls, k, from, to);
    }
  }
}
