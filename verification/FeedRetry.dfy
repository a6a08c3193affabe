/**
 The retry sequences beside the scheduled syncs (internal/server/group_feeds.go,
 startRetry to clearRetry, scheduledSync and retryFeed).

 Each sequence runs on its own goroutine, so the protocol is a state machine
 whose steps interleave freely: the scheduler's, each sequence's, and syncs
 started from the admin pages. A sync attempt appears only by its result.
 */
module FeedRetry {
  import opened Prelude

  const RETRIES := 3

  /** A retry waiting to run: attempts made so far, and the sequence it belongs to. */
  datatype Entry = Entry(attempt: nat, seqNo: nat)

  datatype Table = Table(retrying: map<string, Entry>, retrySeq: nat)

  predicate Owns(t: Table, group: string, seqNo: nat) {
    group in t.retrying && t.retrying[group].seqNo == seqNo
  }

  function Started(t: Table, group: string): Table {
    Table(t.retrying[group := Entry(1, t.retrySeq + 1)], t.retrySeq + 1)
  }

  function Advanced(t: Table, group: string, seqNo: nat, attempt: nat): Table {
    if Owns(t, group, seqNo) then t.(retrying := t.retrying[group := Entry(attempt, seqNo)]) else t
  }

  function Ended(t: Table, group: string, seqNo: nat): Table {
    if Owns(t, group, seqNo) then t.(retrying := t.retrying - {group}) else t
  }

  function Cleared(t: Table, group: string): Table {
    t.(retrying := t.retrying - {group})
  }

  class FeedSyncer {
    var retrying: map<string, Entry>
    var retrySeq: nat // numbers up to this one are taken

    ghost function Contents(): Table
      reads this
    {
      Table(retrying, retrySeq)
    }

    constructor ()
      ensures Contents() == Table(map[], 0)
    {
      retrying, retrySeq := map[], 0;
    }

    method StartRetry(group: string) returns (seqNo: nat)
      modifies this
      ensures Contents() == Started(old(Contents()), group) && seqNo == old(retrySeq) + 1
    {
      retrySeq := retrySeq + 1;
      retrying := retrying[group := Entry(1, retrySeq)];
      return retrySeq;
    }

    method OwnsRetry(group: string, seqNo: nat) returns (owns: bool)
      ensures owns == Owns(Contents(), group, seqNo)
    {
      return group in retrying && retrying[group].seqNo == seqNo;
    }

    method AdvanceRetry(group: string, seqNo: nat, attempt: nat) returns (owned: bool)
      modifies this
      ensures owned == Owns(old(Contents()), group, seqNo)
      ensures Contents() == Advanced(old(Contents()), group, seqNo, attempt)
    {
      if group !in retrying || retrying[group].seqNo != seqNo {
        return false;
      }
      retrying := retrying[group := Entry(attempt, seqNo)];
      return true;
    }

    method EndRetry(group: string, seqNo: nat)
      modifies this
      ensures Contents() == Ended(old(Contents()), group, seqNo)
    {
      if group in retrying && retrying[group].seqNo == seqNo {
        retrying := retrying - {group};
      }
    }

    method ClearRetry(group: string)
      modifies this
      ensures Contents() == Cleared(old(Contents()), group)
    {
      retrying := retrying - {group};
    }
  }

  // ---------- the protocol ----------

  /** How a sync attempt ended: nothing recorded and worth retrying, a result
      recorded, or nothing recorded for another reason. */
  datatype Result = Transient | Recorded | Unrecorded

  /** Where a sequence's goroutine is. */
  datatype Phase = Asleep | Fetching | Advancing | Ending | Done

  /** A sequence: its group, the attempts it has started, and where it is. */
  datatype Runner = Runner(group: string, made: nat, phase: Phase)

  /** Where the scheduler's round is. */
  datatype Round = Idle | Attempting(group: string) | Starting(group: string)

  datatype System = System(table: Table, runners: map<nat, Runner>, round: Round)

  datatype Event =
    | RoundTurn(group: string)            // the round reaches a group
    | RoundResult(result: Result)         // its attempt ends
    | RoundStart                          // it starts a retry sequence
    | Wake(seqNo: nat)                    // a sequence's timer fires
    | SeqResult(seqNo: nat, result: Result)
    | SeqAdvance(seqNo: nat)
    | SeqEnd(seqNo: nat)
    | Cancel(seqNo: nat)                  // the server stops while it sleeps
    | OtherSync(group: string, result: Result) // Sync now or Accept

  /** A recorded result drops whatever is waiting for the group. */
  function AfterResult(t: Table, group: string, result: Result): Table {
    if result == Recorded then Cleared(t, group) else t
  }

  function WithPhase(s: System, seqNo: nat, phase: Phase): System
    requires seqNo in s.runners
  {
    s.(runners := s.runners[seqNo := s.runners[seqNo].(phase := phase)])
  }

  predicate InPhase(s: System, seqNo: nat, phase: Phase) {
    seqNo in s.runners && s.runners[seqNo].phase == phase
  }

  /** One step. An event that cannot happen now changes nothing. */
  function Step(s: System, e: Event): System {
    match e
    case RoundTurn(g) =>
      if s.round != Idle || g in s.table.retrying then s else s.(round := Attempting(g))
    case RoundResult(result) =>
      if !s.round.Attempting? then s
      else if result == Transient then s.(round := Starting(s.round.group))
      else s.(round := Idle, table := AfterResult(s.table, s.round.group, result))
    case RoundStart =>
      if !s.round.Starting? then s
      else
        var t := Started(s.table, s.round.group);
        System(t, s.runners[t.retrySeq := Runner(s.round.group, 1, Asleep)], Idle)
    case Wake(n) =>
      if !InPhase(s, n, Asleep) then s
      else if !Owns(s.table, s.runners[n].group, n) then WithPhase(s, n, Done)
      else s.(runners := s.runners[n := Runner(s.runners[n].group, s.runners[n].made + 1, Fetching)])
    case SeqResult(n, result) =>
      // The last attempt may not be retried, so it never ends transiently.
      if !InPhase(s, n, Fetching) || (result == Transient && s.runners[n].made == 1 + RETRIES) then s
      else if result == Transient then WithPhase(s, n, Advancing)
      else WithPhase(s.(table := AfterResult(s.table, s.runners[n].group, result)), n, Ending)
    case SeqAdvance(n) =>
      if !InPhase(s, n, Advancing) then s
      else
        var g, made := s.runners[n].group, s.runners[n].made;
        WithPhase(s.(table := Advanced(s.table, g, n, made)), n, if Owns(s.table, g, n) then Asleep else Done)
    case SeqEnd(n) =>
      if !InPhase(s, n, Ending) then s
      else WithPhase(s.(table := Ended(s.table, s.runners[n].group, n)), n, Done)
    case Cancel(n) =>
      if !InPhase(s, n, Asleep) then s
      else WithPhase(s.(table := Ended(s.table, s.runners[n].group, n)), n, Done)
    case OtherSync(g, result) =>
      s.(table := AfterResult(s.table, g, result))
  }

  function Run(s: System, es: seq<Event>): System
    decreases |es|
  {
    if es == [] then s else Run(Step(s, es[0]), es[1..])
  }

  const START := System(Table(map[], 0), map[], Idle)

  /** The group's entry belongs to a live sequence of its own, with attempts left. */
  ghost predicate Live(s: System, g: string)
    requires g in s.table.retrying
  {
    var n := s.table.retrying[g].seqNo;
    && n in s.runners && s.runners[n].group == g && s.runners[n].phase != Done
    && 1 <= s.table.retrying[g].attempt <= RETRIES
  }

  /** The sequence has a number handed out once, and has made at most four
      attempts, or three if it means to make another. */
  ghost predicate Bounded(s: System, n: nat)
    requires n in s.runners
  {
    var r := s.runners[n];
    && 1 <= n <= s.table.retrySeq
    && 1 <= r.made <= if r.phase == Asleep || r.phase == Advancing then RETRIES else 1 + RETRIES
  }

  /** What every reachable state satisfies. A round that is attempting or starting
      a group finds no sequence waiting for it. */
  ghost predicate Sound(s: System) {
    && (forall g :: g in s.table.retrying ==> Live(s, g))
    && (forall n :: n in s.runners ==> Bounded(s, n))
    && (!s.round.Idle? ==> s.round.group !in s.table.retrying)
  }

  /** Dropping entries, and moving on a sequence that has none or stays live, is harmless. */
  lemma MovedSound(s: System, t: Table, n: nat, r: Runner)
    requires Sound(s) && n in s.runners && r.group == s.runners[n].group && t.retrySeq == s.table.retrySeq
    requires forall g :: g in t.retrying ==> g in s.table.retrying
    requires forall g :: g in t.retrying ==>
             t.retrying[g] == s.table.retrying[g]
               || (g == r.group && t.retrying[g].seqNo == n && t.retrying[g].attempt == r.made)
    requires r.phase == Done ==> !Owns(t, r.group, n)
    requires 1 <= r.made <= if r.phase == Asleep || r.phase == Advancing then RETRIES else 1 + RETRIES
    requires Owns(t, r.group, n) ==> t.retrying[r.group].attempt <= RETRIES
    ensures Sound(s.(table := t, runners := s.runners[n := r]))
  {
  }

  lemma StartSound(s: System)
    requires Sound(s) && s.round.Starting?
    ensures Sound(Step(s, RoundStart))
  {
  }

  lemma ClearedSound(s: System, group: string, round: Round)
    requires Sound(s) && (round.Idle? || round == s.round)
    ensures Sound(s.(table := Cleared(s.table, group), round := round))
  {
  }

  lemma RoundMovesSound(s: System, round: Round)
    requires Sound(s) && (!round.Idle? ==> round.group !in s.table.retrying)
    ensures Sound(s.(round := round))
  {
  }

  lemma StepSound(s: System, e: Event)
    requires Sound(s)
    ensures Sound(Step(s, e))
  {
    match e
    case RoundTurn(g) =>
      if g !in s.table.retrying { RoundMovesSound(s, Attempting(g)); }
    case RoundResult(result) =>
      if s.round.Attempting? {
        RoundMovesSound(s, Starting(s.round.group));
        RoundMovesSound(s, Idle);
        ClearedSound(s, s.round.group, Idle);
      }
    case RoundStart => if s.round.Starting? { StartSound(s); }
    case OtherSync(g, _) => ClearedSound(s, g, s.round);
    case _ => SequenceStepSound(s, e);
  }

  lemma SequenceStepSound(s: System, e: Event)
    requires Sound(s) && Actor(e).Some?
    ensures Sound(Step(s, e))
  {
    var n := Actor(e).value;
    if n in s.runners && Step(s, e) != s {
      assert Bounded(s, n);
      var s' := Step(s, e);
      if s.runners[n].group in s.table.retrying {
        assert Live(s, s.runners[n].group);
      }
      MovedSound(s, s'.table, n, s'.runners[n]);
      assert s' == s.(table := s'.table, runners := s.runners[n := s'.runners[n]]);
    }
  }

  /** In every reachable state: starting a sequence overwrites none, every waiting
      entry has a live sequence to run or drop it, and no sequence has made more
      than four attempts. */
  lemma {:induction false} RunSound(s: System, es: seq<Event>)
    requires Sound(s)
    ensures Sound(Run(s, es))
    decreases |es|
  {
    if es == [] {
    } else {
      StepSound(s, es[0]);
      RunSound(Step(s, es[0]), es[1..]);
    }
  }

  lemma StartIsSound()
    ensures Sound(START)
  {
  }

  /** The sequence an event belongs to. */
  function Actor(e: Event): Option<nat> {
    match e
    case Wake(n) => Some(n)
    case SeqResult(n, _) => Some(n)
    case SeqAdvance(n) => Some(n)
    case SeqEnd(n) => Some(n)
    case Cancel(n) => Some(n)
    case _ => None
  }

  /** A sequence that has lost its entry changes no entry, except that a result it
      records ends whatever is waiting, and at its next check it stops. */
  lemma LostSequenceTouchesNothing(s: System, e: Event, n: nat)
    requires Actor(e) == Some(n) && n in s.runners && !Owns(s.table, s.runners[n].group, n)
    ensures Step(s, e).table ==
            if e.SeqResult? && e.result == Recorded && InPhase(s, n, Fetching) then Cleared(s.table, s.runners[n].group)
            else s.table
    ensures e.Wake? && InPhase(s, n, Asleep) ==> InPhase(Step(s, e), n, Done)
    ensures e.SeqAdvance? && InPhase(s, n, Advancing) ==> InPhase(Step(s, e), n, Done)
  {
  }

  /** The next check of its entry that the sequence makes is among these events. */
  predicate Stopping(s: System, es: seq<Event>, n: nat) {
    (InPhase(s, n, Asleep) && Wake(n) in es) || (InPhase(s, n, Advancing) && SeqAdvance(n) in es)
  }

  lemma LostStep(s: System, e: Event, n: nat)
    requires Sound(s) && n in s.runners && !Owns(s.table, s.runners[n].group, n)
    ensures var s' := Step(s, e);
            && n in s'.runners && s'.runners[n].group == s.runners[n].group
            && !Owns(s'.table, s.runners[n].group, n)
            && s'.runners[n].made == s.runners[n].made
            && (s'.runners[n].phase == s.runners[n].phase || Actor(e) == Some(n))
            && (InPhase(s, n, Done) ==> InPhase(s', n, Done))
            && (Stopping(s, [e], n) ==> InPhase(s', n, Done))
            && (InPhase(s, n, Asleep) || InPhase(s, n, Advancing) ==> s'.runners[n].phase in {s.runners[n].phase, Done})
  {
    if Actor(e) == Some(n) {
      LostSequenceTouchesNothing(s, e, n);
    }
  }

  /** Once lost, an entry is never regained, the sequence starts no further attempt,
      and at its next check it is done for good. */
  lemma {:induction false} LostForGood(s: System, es: seq<Event>, n: nat)
    requires Sound(s) && n in s.runners && !Owns(s.table, s.runners[n].group, n)
    ensures var s' := Run(s, es);
            && n in s'.runners && !Owns(s'.table, s.runners[n].group, n)
            && s'.runners[n].made == s.runners[n].made
            && (Stopping(s, es, n) || InPhase(s, n, Done) ==> InPhase(s', n, Done))
    decreases |es|
  {
    if es == [] {
    } else {
      LostStep(s, es[0], n);
      StepSound(s, es[0]);
      LostForGood(Step(s, es[0]), es[1..], n);
    }
  }

  /** A result recorded for a group by anyone, whether a round, a sequence or an
      administrator, ends the sequence then waiting: whatever happens next, it
      makes no further attempt, and is done when it next wakes. */
  lemma RecordedResultEndsTheWait(s: System, e: Event, es: seq<Event>, group: string)
    requires Sound(s) && group in s.table.retrying
    requires || e == OtherSync(group, Recorded)
             || (e.SeqResult? && e.result == Recorded && InPhase(s, e.seqNo, Fetching)
                 && s.runners[e.seqNo].group == group)
    ensures var n := s.table.retrying[group].seqNo;
            && group !in Step(s, e).table.retrying
            && n in Run(Step(s, e), es).runners
            && Run(Step(s, e), es).runners[n].made == s.runners[n].made
            && (InPhase(s, n, Asleep) && Wake(n) in es ==> InPhase(Run(Step(s, e), es), n, Done))
  {
    StepSound(s, e);
    LostForGood(Step(s, e), es, s.table.retrying[group].seqNo);
  }

  // ---------- what a round and a sequence do when nothing else happens ----------

  lemma {:induction false} RunThree(s: System, a: Event, b: Event, c: Event)
    ensures Run(s, [a, b, c]) == Step(Step(Step(s, a), b), c)
  {
    assert [a, b, c][1..] == [b, c] && [b, c][1..] == [c] && [c][1..] == [];
    assert Run(Step(s, a), [b, c]) == Run(Step(Step(s, a), b), [c]);
  }

  /** The table without what waits for the group. */
  ghost predicate Without(t: Table, t': Table, group: string) {
    && t'.retrySeq == t.retrySeq && group !in t'.retrying
    && forall g :: g != group ==>
      (g in t.retrying <==> g in t'.retrying) && (g in t.retrying ==> t'.retrying[g] == t.retrying[g])
  }

  /** The round passes over a group that has a retry waiting. Any other it attempts: a
      transient failure starts a sequence under the next number, which sleeps with one
      attempt made; a recorded result leaves nothing waiting for the group; any other
      result changes nothing. */
  lemma RoundAlone(s: System, group: string, result: Result)
    requires s.round == Idle
    ensures var end := Run(s, [RoundTurn(group), RoundResult(result), RoundStart]);
            var n := s.table.retrySeq + 1;
            if group in s.table.retrying then end == s
            else if result == Transient then
              end == System(Table(s.table.retrying[group := Entry(1, n)], n), s.runners[n := Runner(group, 1, Asleep)],
                            Idle)
            else
              && end.runners == s.runners && end.round == Idle
              && (result == Recorded ==> Without(s.table, end.table, group))
              && (result == Unrecorded ==> end.table == s.table)
  {
    RunThree(s, RoundTurn(group), RoundResult(result), RoundStart);
  }

  /** A sleeping sequence that owns its entry: it wakes and makes one more attempt. After a
      transient failure that is not its fourth it moves the entry on and sleeps again;
      otherwise it ends and drops the entry. */
  lemma SequenceAlone(s: System, n: nat, result: Result)
    requires InPhase(s, n, Asleep) && Owns(s.table, s.runners[n].group, n) && s.runners[n].made <= 3
    requires result == Transient ==> s.runners[n].made + 1 < 4
    ensures var group, made := s.runners[n].group, s.runners[n].made + 1;
            var after := if result == Transient then SeqAdvance(n) else SeqEnd(n);
            var end := Run(s, [Wake(n), SeqResult(n, result), after]);
            && end.round == s.round && end.runners.Keys == s.runners.Keys
            && (forall m :: m in s.runners && m != n ==> end.runners[m] == s.runners[m])
            && (if result == Transient then
                  && end.runners[n] == Runner(group, made, Asleep)
                  && end.table == Table(s.table.retrying[group := Entry(made, n)], s.table.retrySeq)
                else end.runners[n] == Runner(group, made, Done) && Without(s.table, end.table, group))
  {
    RunThree(s, Wake(n), SeqResult(n, result), if result == Transient then SeqAdvance(n) else SeqEnd(n));
  }

  /** The fourth attempt is the last: it cannot end in a failure to be retried. A sequence
      cancelled in its sleep ends and drops its entry. A sync started elsewhere drops what
      waits for its group exactly when it records a result; so does a round's. */
  lemma LastAttemptIsFinal(s: System, n: nat, group: string, result: Result)
    ensures InPhase(s, n, Fetching) && s.runners[n].made == 4 ==> Step(s, SeqResult(n, Transient)) == s
    ensures InPhase(s, n, Asleep) && Owns(s.table, s.runners[n].group, n) ==>
              InPhase(Step(s, Cancel(n)), n, Done) && Without(s.table, Step(s, Cancel(n)).table, s.runners[n].group)
    ensures result == Recorded ==> Without(s.table, Step(s, OtherSync(group, result)).table, group)
    ensures result != Recorded ==> Step(s, OtherSync(group, result)) == s
    ensures s.round == Attempting(group) && result == Recorded ==>
              Without(s.table, Step(s, RoundResult(result)).table, group)
  {
  }
}
