/**
 Sign-in codes and their wrong-guess counters (internal/store/sqlite.go,
 SaveCode to ConsumeCode). A code carries the total of wrong guesses at it; a
 second table counts them per source address.
 */
module Codes {
  import opened Prelude

  /** (email, client address), the key of code_attempts. */
  type Source = (string, string)

  /** `hash` is the keyed hash of the code; `expires` is in Unix seconds. */
  datatype Code = Code(hash: string, expires: int, attempts: nat)

  datatype Table = Table(codes: map<string, Code>, tries: map<Source, nat>)

  datatype Caps = Caps(perIP: int, total: int) {
    /** What the configuration enforces. */
    predicate Valid() { 1 <= perIP <= total }
  }

  datatype Result = NoCode | Expired | Burned | TooManyAttempts | Mismatch | OK

  // ---------- the store's operations ----------

  function Without(tries: map<Source, nat>, email: string): map<Source, nat> {
    map k | k in tries && k.0 != email :: tries[k]
  }

  function Saved(t: Table, email: string, hash: string, expires: int): Table {
    Table(t.codes[email := Code(hash, expires, 0)], Without(t.tries, email))
  }

  function Ensured(t: Table, email: string, hash: string, expires: int): Table {
    if email in t.codes then t else t.(codes := t.codes[email := Code(hash, expires, 0)])
  }

  function Pruned(t: Table, now: int): Table {
    var live := map e | e in t.codes && now <= t.codes[e].expires :: t.codes[e];
    Table(live, map k | k in t.tries && k.0 in live :: t.tries[k])
  }

  function Cleared(t: Table, email: string): Table {
    Table(t.codes - {email}, Without(t.tries, email))
  }

  function TriesFrom(t: Table, email: string, ip: string): nat {
    if (email, ip) in t.tries then t.tries[(email, ip)] else 0
  }

  /** The guess reaches the comparison with the stored hash. */
  predicate Compared(caps: Caps, t: Table, email: string, ip: string, now: int) {
    && email in t.codes && now <= t.codes[email].expires
    && t.codes[email].attempts < caps.total && TriesFrom(t, email, ip) < caps.perIP
  }

  function Counted(t: Table, email: string, ip: string): Table
    requires email in t.codes
  {
    Table(t.codes[email := t.codes[email].(attempts := t.codes[email].attempts + 1)],
          t.tries[(email, ip) := TriesFrom(t, email, ip) + 1])
  }

  function Consumed(caps: Caps, t: Table, email: string, ip: string, hash: string, now: int): (Table, Result) {
    if email !in t.codes then (t, NoCode)
    else if t.codes[email].expires < now then (Cleared(t, email), Expired)
    else if caps.total <= t.codes[email].attempts then (Cleared(t, email), Burned)
    else if caps.perIP <= TriesFrom(t, email, ip) then (t, TooManyAttempts)
    else if hash == t.codes[email].hash then (Cleared(t, email), OK)
    else if caps.total <= t.codes[email].attempts + 1 then (Cleared(Counted(t, email, ip), email), Burned)
    else (Counted(t, email, ip), if caps.perIP <= TriesFrom(t, email, ip) + 1 then TooManyAttempts else Mismatch)
  }

  class CodeStore {
    var codes: map<string, Code>
    var tries: map<Source, nat>

    ghost function Rows(): Table
      reads this
    {
      Table(codes, tries)
    }

    constructor ()
      ensures Rows() == Table(map[], map[])
    {
      codes, tries := map[], map[];
    }

    method SaveCode(email: string, hash: string, expires: int)
      modifies this
      ensures Rows() == Saved(old(Rows()), email, hash, expires)
    {
      codes := codes[email := Code(hash, expires, 0)];
      tries := Without(tries, email);
    }

    method EnsureCode(email: string, hash: string, expires: int)
      modifies this
      ensures Rows() == Ensured(old(Rows()), email, hash, expires)
    {
      if email !in codes {
        codes := codes[email := Code(hash, expires, 0)];
      }
    }

    method HasRecentCode(email: string, minExpiry: int) returns (recent: bool)
      ensures recent <==> email in codes && minExpiry < codes[email].expires
    {
      return email in codes && minExpiry < codes[email].expires;
    }

    method DeleteExpiredCodes(now: int)
      modifies this
      ensures Rows() == Pruned(old(Rows()), now)
    {
      codes := map e | e in codes && !(codes[e].expires < now) :: codes[e];
      tries := map k | k in tries && k.0 in codes :: tries[k];
    }

    method Clear(email: string)
      modifies this
      ensures Rows() == Cleared(old(Rows()), email)
    {
      codes := codes - {email};
      tries := Without(tries, email);
    }

    /** Check a guess and, if it is right, use the code up, in one transaction. */
    method ConsumeCode(email: string, ip: string, hash: string, maxAttempts: int, maxTotal: int, now: int)
      returns (r: Result)
      requires Caps(maxAttempts, maxTotal).Valid()
      modifies this
      ensures (Rows(), r) == Consumed(Caps(maxAttempts, maxTotal), old(Rows()), email, ip, hash, now)
    {
      if email !in codes {
        return NoCode;
      }
      var code := codes[email];
      var total := code.attempts;
      if code.expires < now {
        Clear(email);
        return Expired;
      }
      if 0 < maxTotal && maxTotal <= total {
        Clear(email);
        return Burned;
      }
      var attempts := if (email, ip) in tries then tries[(email, ip)] else 0;
      if maxAttempts <= attempts {
        return TooManyAttempts; // other sources may still guess
      }
      if code.hash == hash {
        Clear(email);
        return OK;
      }
      attempts := attempts + 1;
      total := total + 1;
      tries := tries[(email, ip) := attempts];
      codes := codes[email := code.(attempts := total)];
      if 0 < maxTotal && maxTotal <= total {
        Clear(email);
        return Burned;
      }
      if maxAttempts <= attempts {
        return TooManyAttempts;
      }
      return Mismatch;
    }
  }

  // ---------- what each answer means ----------

  /** Every answer to a guess, by the stored code, the clock, the two counts with
      their caps, and the hash. */
  lemma AnswerExactly(caps: Caps, t: Table, email: string, ip: string, hash: string, now: int)
    requires caps.Valid()
    ensures var r := Consumed(caps, t, email, ip, hash, now).1;
            if email !in t.codes then r == NoCode
            else
              var code, own := t.codes[email], if (email, ip) in t.tries then t.tries[(email, ip)] else 0;
              var inDate, right := now <= code.expires, code.hash == hash;
              var open, mine := code.attempts < caps.total, own < caps.perIP;
              && (r == OK <==> inDate && open && mine && right)
              && (r == Expired <==> code.expires < now)
              && (r == Burned <==> inDate && (!open || (mine && !right && code.attempts + 1 == caps.total)))
              && (r == TooManyAttempts <==>
                    inDate && open && (!mine || (!right && own + 1 == caps.perIP && code.attempts + 1 < caps.total)))
              && (r == Mismatch <==>
                    inDate && open && mine && !right && own + 1 < caps.perIP && code.attempts + 1 < caps.total)
              && r != NoCode
  {
  }

  /** The code and its attempts are as they were. */
  ghost predicate SameCode(t: Table, t': Table, email: string) {
    && (email in t.codes <==> email in t'.codes) && (email in t.codes ==> t'.codes[email] == t.codes[email])
    && forall k: Source :: k.0 == email ==>
      (k in t.tries <==> k in t'.tries) && (k in t.tries ==> t'.tries[k] == t.tries[k])
  }

  ghost predicate NoTrace(t: Table, email: string) { email !in t.codes && forall k :: k in t.tries ==> k.0 != email }

  /** What a guess changes: nothing about any other address; the code and all its
      counts go when it was right, expired or burned; a wrong guess that was compared
      adds one to the code's count and to its own source's; any other changes nothing. */
  lemma GuessLeaves(caps: Caps, t: Table, email: string, ip: string, hash: string, now: int)
    requires caps.Valid()
    ensures var (t', r) := Consumed(caps, t, email, ip, hash, now);
            && (forall e :: e != email ==> SameCode(t, t', e))
            && if r in {OK, Expired, Burned} then NoTrace(t', email)
               else if r == NoCode then t' == t
               else
                 var code, own := t.codes[email], if (email, ip) in t.tries then t.tries[(email, ip)] else 0;
                 if caps.perIP <= own then t' == t
                 else
                   && email in t'.codes && t'.codes[email] == code.(attempts := code.attempts + 1)
                   && t'.tries == t.tries[(email, ip) := own + 1]
  {
  }

  /** Storing a code touches no other address; it starts with no wrong guesses from
      anyone, and an insert leaves a code that is there alone. */
  lemma StoredLeaves(t: Table, email: string, hash: string, expires: int)
    ensures forall e :: e != email ==> SameCode(t, Saved(t, email, hash, expires), e)
    ensures forall e :: e != email || email in t.codes ==> SameCode(t, Ensured(t, email, hash, expires), e)
    ensures Saved(t, email, hash, expires).codes[email] == Code(hash, expires, 0)
    ensures forall k: Source :: k in Saved(t, email, hash, expires).tries ==> k.0 != email
    ensures email !in t.codes ==> Ensured(t, email, hash, expires).codes[email] == Code(hash, expires, 0)
  {
  }

  /** A prune drops exactly the codes that are out of date, counts and all. */
  lemma PruneExactly(t: Table, now: int, email: string)
    ensures if email in t.codes && now <= t.codes[email].expires then SameCode(t, Pruned(t, now), email)
            else NoTrace(Pruned(t, now), email)
  {
  }

  // ---------- the counters agree ----------

  ghost function Sum(m: map<Source, nat>): nat {
    if m == map[] then 0 else
      var k :| k in m;
      m[k] + Sum(m - {k})
  }

  /** The order of summing does not matter. */
  lemma {:induction false} SumWithout(m: map<Source, nat>, k: Source)
    requires k in m
    ensures Sum(m) == m[k] + Sum(m - {k})
    decreases |m|
  {
    var first :| first in m && Sum(m) == m[first] + Sum(m - {first});
    if first != k {
      SumWithout(m - {first}, k);
      SumWithout(m - {k}, first);
      assert (m - {first}) - {k} == (m - {k}) - {first};
    }
  }

  lemma OneFewer(n: nat, cap: nat)
    ensures (n + 1) * cap == n * cap + cap
  {
  }

  lemma {:induction false} SumBounded(m: map<Source, nat>, cap: nat)
    requires forall k :: k in m ==> m[k] <= cap
    ensures Sum(m) <= |m| * cap
    decreases |m|
  {
    if m == map[] {
    } else {
      var k :| k in m;
      SumWithout(m, k);
      SumBounded(m - {k}, cap);
      assert |m| == |m - {k}| + 1;
      OneFewer(|m - {k}|, cap);
    }
  }

  function TriesAt(tries: map<Source, nat>, email: string): map<Source, nat> {
    map k | k in tries && k.0 == email :: tries[k]
  }

  /** A code's total is the sum over its sources and below the total cap; no source
      is over its own cap or counted against an address without a code. */
  ghost predicate Sound(caps: Caps, t: Table) {
    && (forall e :: e in t.codes ==>
          t.codes[e].attempts == Sum(TriesAt(t.tries, e)) && t.codes[e].attempts < caps.total)
    && (forall k :: k in t.tries ==> k.0 in t.codes && t.tries[k] <= caps.perIP)
  }

  lemma WithoutKeepsOthers(tries: map<Source, nat>, email: string, other: string)
    ensures TriesAt(Without(tries, email), other) == if other == email then map[] else TriesAt(tries, other)
  {
  }

  lemma CountedSum(t: Table, email: string, ip: string)
    ensures Sum(TriesAt(t.tries[(email, ip) := TriesFrom(t, email, ip) + 1], email)) == Sum(TriesAt(t.tries, email)) + 1
  {
    var k := (email, ip);
    var before, after := TriesAt(t.tries, email), TriesAt(t.tries[k := TriesFrom(t, email, ip) + 1], email);
    SumWithout(after, k);
    if k in t.tries {
      SumWithout(before, k);
      assert after - {k} == before - {k};
    } else {
      assert after - {k} == before;
    }
  }

  datatype Op =
    | Save(email: string, hash: string, expires: int)
    | Ensure(email: string, hash: string, expires: int)
    | Prune(now: int)
    | Consume(email: string, ip: string, hash: string, now: int)

  function Step(caps: Caps, t: Table, op: Op): Table {
    match op
    case Save(e, h, x) => Saved(t, e, h, x)
    case Ensure(e, h, x) => Ensured(t, e, h, x)
    case Prune(now) => Pruned(t, now)
    case Consume(e, ip, h, now) => Consumed(caps, t, e, ip, h, now).0
  }

  lemma ClearedSound(caps: Caps, t: Table, email: string)
    requires forall e :: e in t.codes && e != email ==>
             t.codes[e].attempts == Sum(TriesAt(t.tries, e)) && t.codes[e].attempts < caps.total
    requires forall k :: k in t.tries && k.0 != email ==> k.0 in t.codes && t.tries[k] <= caps.perIP
    ensures Sound(caps, Cleared(t, email))
  {
    forall e | e in Cleared(t, email).codes ensures TriesAt(Without(t.tries, email), e) == TriesAt(t.tries, e) {
      WithoutKeepsOthers(t.tries, email, e);
    }
  }

  /** Counting one guess adds one to both counters, and touches no other address. */
  lemma CountedAgrees(t: Table, email: string, ip: string, e: string)
    requires email in t.codes && e in t.codes && t.codes[e].attempts == Sum(TriesAt(t.tries, e))
    ensures var c := Counted(t, email, ip); c.codes[e].attempts == Sum(TriesAt(c.tries, e))
  {
    if e == email {
      CountedSum(t, email, ip);
    } else {
      assert TriesAt(Counted(t, email, ip).tries, e) == TriesAt(t.tries, e);
    }
  }

  lemma MissedSound(caps: Caps, t: Table, email: string, ip: string, now: int)
    requires caps.Valid() && Sound(caps, t) && Compared(caps, t, email, ip, now)
    ensures var c := Counted(t, email, ip);
            if caps.total <= t.codes[email].attempts + 1 then Sound(caps, Cleared(c, email)) else Sound(caps, c)
  {
    var c := Counted(t, email, ip);
    forall e | e in t.codes ensures c.codes[e].attempts == Sum(TriesAt(c.tries, e)) {
      CountedAgrees(t, email, ip, e);
    }
    if caps.total <= t.codes[email].attempts + 1 {
      ClearedSound(caps, c, email);
    }
  }

  lemma ConsumedSound(caps: Caps, t: Table, email: string, ip: string, hash: string, now: int)
    requires caps.Valid() && Sound(caps, t)
    ensures Sound(caps, Consumed(caps, t, email, ip, hash, now).0)
  {
    if Compared(caps, t, email, ip, now) && hash != t.codes[email].hash {
      MissedSound(caps, t, email, ip, now);
    } else {
      ClearedSound(caps, t, email);
    }
  }

  lemma SavedSound(caps: Caps, t: Table, email: string, hash: string, expires: int)
    requires caps.Valid() && Sound(caps, t)
    ensures Sound(caps, Saved(t, email, hash, expires))
  {
    forall x ensures TriesAt(Without(t.tries, email), x) == if x == email then map[] else TriesAt(t.tries, x) {
      WithoutKeepsOthers(t.tries, email, x);
    }
  }

  lemma EnsuredSound(caps: Caps, t: Table, email: string, hash: string, expires: int)
    requires caps.Valid() && Sound(caps, t)
    ensures Sound(caps, Ensured(t, email, hash, expires))
  {
  }

  lemma PrunedSound(caps: Caps, t: Table, now: int)
    requires caps.Valid() && Sound(caps, t)
    ensures Sound(caps, Pruned(t, now))
  {
    var p := Pruned(t, now);
    forall e | e in p.codes ensures TriesAt(p.tries, e) == TriesAt(t.tries, e) {
    }
  }

  /** Every store operation keeps the counters in agreement. */
  lemma StepSound(caps: Caps, t: Table, op: Op)
    requires caps.Valid() && Sound(caps, t)
    ensures Sound(caps, Step(caps, t, op))
  {
    match op
    case Save(e, h, x) => SavedSound(caps, t, e, h, x);
    case Ensure(e, h, x) => EnsuredSound(caps, t, e, h, x);
    case Prune(now) => PrunedSound(caps, t, now);
    case Consume(e, ip, h, now) => ConsumedSound(caps, t, e, ip, h, now);
  }

  function Run(caps: Caps, t: Table, ops: seq<Op>): Table
    decreases |ops|
  {
    if ops == [] then t else Run(caps, Step(caps, t, ops[0]), ops[1..])
  }

  /** An empty store to start from. */
  lemma EmptySound(caps: Caps)
    ensures Sound(caps, Table(map[], map[]))
  {
  }

  /** In every state any sequence of operations can reach, the counters agree. */
  lemma {:induction false} RunSound(caps: Caps, t: Table, ops: seq<Op>)
    requires caps.Valid() && Sound(caps, t)
    ensures Sound(caps, Run(caps, t, ops))
    decreases |ops|
  {
    if ops == [] {
    } else {
      StepSound(caps, t, ops[0]);
      RunSound(caps, Step(caps, t, ops[0]), ops[1..]);
    }
  }

  // ---------- what the caps guarantee over a run ----------

  /** The operation mints a code for the address. */
  predicate Mints(t: Table, op: Op, email: string) {
    (op.Save? && op.email == email) || (op.Ensure? && op.email == email && email !in t.codes)
  }

  /** The operation compares a wrong guess with the address's code; from any
      source, or from one when `ip` names it. */
  predicate WrongGuess(caps: Caps, t: Table, op: Op, email: string, ip: Option<string>) {
    && op.Consume? && op.email == email && (ip.Some? ==> op.ip == ip.value)
    && Compared(caps, t, email, op.ip, op.now) && op.hash != t.codes[email].hash
  }

  predicate Succeeds(caps: Caps, t: Table, op: Op, email: string) {
    op.Consume? && op.email == email && Consumed(caps, t, email, op.ip, op.hash, op.now).1 == OK
  }

  function Minted(caps: Caps, t: Table, ops: seq<Op>, email: string): nat
    decreases |ops|
  {
    if ops == [] then 0
    else (if Mints(t, ops[0], email) then 1 else 0) + Minted(caps, Step(caps, t, ops[0]), ops[1..], email)
  }

  function WrongGuesses(caps: Caps, t: Table, ops: seq<Op>, email: string, ip: Option<string>): nat
    decreases |ops|
  {
    if ops == [] then 0
    else (if WrongGuess(caps, t, ops[0], email, ip) then 1 else 0)
         + WrongGuesses(caps, Step(caps, t, ops[0]), ops[1..], email, ip)
  }

  function Successes(caps: Caps, t: Table, ops: seq<Op>, email: string): nat
    decreases |ops|
  {
    if ops == [] then 0
    else (if Succeeds(caps, t, ops[0], email) then 1 else 0) + Successes(caps, Step(caps, t, ops[0]), ops[1..], email)
  }

  /** Guesses still to come at the address's present code. */
  function GuessesLeft(caps: Caps, t: Table, email: string, ip: Option<string>): int {
    if email !in t.codes then 0
    else if ip.Some? then caps.perIP - TriesFrom(t, email, ip.value)
    else caps.total - t.codes[email].attempts
  }

  function Cap(caps: Caps, ip: Option<string>): int { if ip.Some? then caps.perIP else caps.total }

  lemma GuessesLeftGuess(caps: Caps, t: Table, op: Op, email: string, ip: Option<string>)
    requires caps.Valid() && Sound(caps, t) && op.Consume?
    ensures GuessesLeft(caps, Step(caps, t, op), email, ip) + (if WrongGuess(caps, t, op, email, ip) then 1 else 0)
            <= GuessesLeft(caps, t, email, ip)
  {
    if op.email != email {
      GuessLeaves(caps, t, op.email, op.ip, op.hash, op.now);
      assert SameCode(t, Step(caps, t, op), email);
    }
  }

  lemma GuessesLeftStep(caps: Caps, t: Table, op: Op, email: string, ip: Option<string>)
    requires caps.Valid() && Sound(caps, t)
    ensures 0 <= GuessesLeft(caps, t, email, ip) <= Cap(caps, ip)
    ensures GuessesLeft(caps, Step(caps, t, op), email, ip) + (if WrongGuess(caps, t, op, email, ip) then 1 else 0)
            <= GuessesLeft(caps, t, email, ip) + (if Mints(t, op, email) then Cap(caps, ip) else 0)
  {
    if op.Consume? {
      GuessesLeftGuess(caps, t, op, email, ip);
    }
  }

  lemma OneMore(c: int, m: int)
    ensures c * (1 + m) == c + c * m
  {
  }

  /** Over any run, wrong guesses compared with an address's codes number at most
      the cap for each code minted (plus what was left of the first): the total
      cap over all sources, and the per-source cap from any one of them. */
  lemma {:induction false} GuessBudget(caps: Caps, t: Table, ops: seq<Op>, email: string, ip: Option<string>)
    requires caps.Valid() && Sound(caps, t)
    ensures WrongGuesses(caps, t, ops, email, ip)
            <= GuessesLeft(caps, t, email, ip) + Cap(caps, ip) * Minted(caps, t, ops, email)
    decreases |ops|
  {
    if ops == [] {
      GuessesLeftStep(caps, t, Prune(0), email, ip);
    } else {
      var t' := Step(caps, t, ops[0]);
      StepSound(caps, t, ops[0]);
      GuessesLeftStep(caps, t, ops[0], email, ip);
      GuessBudget(caps, t', ops[1..], email, ip);
      OneMore(Cap(caps, ip), Minted(caps, t', ops[1..], email));
    }
  }

  /** A minted code succeeds at most once: successes never outnumber codes. */
  lemma {:induction false} OneSuccessPerCode(caps: Caps, t: Table, ops: seq<Op>, email: string)
    ensures Successes(caps, t, ops, email) <= (if email in t.codes then 1 else 0) + Minted(caps, t, ops, email)
    decreases |ops|
  {
    if ops == [] {
    } else {
      OneSuccessPerCode(caps, Step(caps, t, ops[0]), ops[1..], email);
    }
  }

  /** The operation mints this code for the address, if it has none. */
  predicate Offers(op: Op, email: string, hash: string, expires: int) {
    (op.Save? || op.Ensure?) && op.email == email && op.hash == hash && op.expires == expires
  }

  predicate Replaces(op: Op, email: string) { op.Save? && op.email == email }

  /** The code an address holds after a run is the one it held at the start, or one
      minted since; and nothing has replaced it. */
  ghost predicate ComesFrom(t: Table, ops: seq<Op>, email: string, hash: string, expires: int) {
    || (email in t.codes && t.codes[email].hash == hash && t.codes[email].expires == expires
        && forall i :: 0 <= i < |ops| ==> !Replaces(ops[i], email))
    || (exists j :: 0 <= j < |ops| && Offers(ops[j], email, hash, expires)
                    && forall i :: j < i < |ops| ==> !Replaces(ops[i], email))
  }

  lemma {:induction false} CodesAreMinted(caps: Caps, t: Table, ops: seq<Op>, email: string)
    requires email in Run(caps, t, ops).codes
    ensures var code := Run(caps, t, ops).codes[email]; ComesFrom(t, ops, email, code.hash, code.expires)
    decreases |ops|
  {
    if ops == [] {
    } else {
      var op, rest := ops[0], ops[1..];
      var t' := Step(caps, t, op);
      CodesAreMinted(caps, t', rest, email);
      var code := Run(caps, t, ops).codes[email];
      StepComesFrom(caps, t, op, rest, email, code.hash, code.expires);
      assert ops == [op] + rest;
    }
  }

  lemma StepComesFrom(caps: Caps, t: Table, op: Op, rest: seq<Op>, email: string, hash: string, expires: int)
    requires ComesFrom(Step(caps, t, op), rest, email, hash, expires)
    ensures ComesFrom(t, [op] + rest, email, hash, expires)
  {
    var ops := [op] + rest;
    if j :| 0 <= j < |rest| && Offers(rest[j], email, hash, expires)
            && forall i :: j < i < |rest| ==> !Replaces(rest[i], email)
    {
      assert Offers(ops[j + 1], email, hash, expires);
      forall i | j + 1 < i < |ops| ensures !Replaces(ops[i], email) {
        assert ops[i] == rest[i - 1];
      }
    } else {
      forall i | 0 < i < |ops| ensures !Replaces(ops[i], email) {
        assert ops[i] == rest[i - 1];
      }
      if email !in t.codes || Replaces(op, email) {
        assert Offers(ops[0], email, hash, expires);
      } else {
        assert Step(caps, t, op).codes[email].hash == t.codes[email].hash;
        assert Step(caps, t, op).codes[email].expires == t.codes[email].expires;
      }
    }
  }

  /** Over every run, a guess succeeds only with the hash that the address's code was
      minted with, and no later than the expiry it was given then. */
  lemma SuccessNeedsItsCode(caps: Caps, t: Table, ops: seq<Op>, email: string, ip: string, hash: string, now: int)
    requires caps.Valid() && Consumed(caps, Run(caps, t, ops), email, ip, hash, now).1 == OK
    ensures exists expires :: now <= expires && ComesFrom(t, ops, email, hash, expires)
  {
    AnswerExactly(caps, Run(caps, t, ops), email, ip, hash, now);
    CodesAreMinted(caps, t, ops, email);
  }

  lemma MoreTimes(a: nat, b: nat, cap: nat)
    requires a <= b
    ensures a * cap <= b * cap
  {
  }

  lemma SourcesAddUp(caps: Caps, t: Table, email: string, ip: string, sources: set<string>)
    requires Sound(caps, t) && email in t.codes && TriesFrom(t, email, ip) < caps.perIP
    requires sources == (set k | k in t.tries && k.0 == email :: k.1) + {ip}
    ensures t.codes[email].attempts + 1 <= |sources| * caps.perIP
  {
    var after := TriesAt(t.tries[(email, ip) := TriesFrom(t, email, ip) + 1], email);
    CountedSum(t, email, ip);
    SumBounded(after, caps.perIP);
    SourcesOf(after, email, sources);
    MoreTimes(|after|, |sources|, caps.perIP);
  }

  /** A wrong guess that burns a code needs many sources: one source within its
      own cap cannot burn someone else's code when the total cap is larger. */
  lemma BurnNeedsManySources(caps: Caps, t: Table, email: string, ip: string, hash: string, now: int)
    requires caps.Valid() && Sound(caps, t)
    requires Consumed(caps, t, email, ip, hash, now).1 == Burned
    ensures var sources := (set k | k in t.tries && k.0 == email :: k.1) + {ip};
            caps.total <= |sources| * caps.perIP
  {
    AnswerExactly(caps, t, email, ip, hash, now);
    SourcesAddUp(caps, t, email, ip, (set k | k in t.tries && k.0 == email :: k.1) + {ip});
  }

  lemma {:induction false} SourcesOf(m: map<Source, nat>, email: string, sources: set<string>)
    requires forall k :: k in m <==> k.0 == email && k.1 in sources
    ensures |m| == |sources|
    decreases |sources|
  {
    if sources == {} {
      if k :| k in m { assert false; }
    } else {
      var ip :| ip in sources;
      assert (email, ip) in m;
      SourcesOf(m - {(email, ip)}, email, sources - {ip});
    }
  }
}
