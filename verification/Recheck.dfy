/**
 The refusal path's memory (internal/server/group_recheck.go): for half a
 minute, a snapshot of a person's groups that agreed with the database is
 decided from memory. Times are Unix seconds.
 */
module Recheck {

  const RECHECK_TTL := 30
  const SWEEP_AT := 1024

  /** A person's address and the groups their session carries. */
  type Snapshot = (string, string)

  type Memory = map<Snapshot, int>

  predicate Remembers(until: Memory, snapshot: Snapshot, now: int) {
    snapshot in until && now < until[snapshot]
  }

  /** The entries still in force. */
  function Unexpired(until: Memory, now: int): Memory { map k | k in until && now < until[k] :: until[k] }

  function Confirmed(until: Memory, snapshot: Snapshot, now: int): Memory {
    (if SWEEP_AT <= |until| then Unexpired(until, now) else until)[snapshot := now + RECHECK_TTL]
  }

  /** A refusal that was confirmed is remembered for half a minute, and no longer; nothing
      else is remembered or forgotten by it, though expired entries go from a table of 1024. */
  lemma RememberedExactly(until: Memory, snapshot: Snapshot, now: int, other: Snapshot, later: int)
    requires now <= later
    ensures var after := Confirmed(until, snapshot, now);
            && (Remembers(after, snapshot, later) <==> later < now + 30)
            && (other != snapshot ==> (Remembers(after, other, later) <==> other in until && later < until[other]))
            && (other != snapshot && other in after && 1024 <= |until| ==> now < after[other])
            && (|until| < 1024 ==> after == until[snapshot := now + 30])
  {
  }

  class GroupRecheck {
    var until: Memory
    var gen: nat

    constructor ()
      ensures until == map[] && gen == 0
    {
      until, gen := map[], 0;
    }

    predicate Fresh(email: string, groups: string, now: int)
      reads this
    {
      Remembers(until, (email, groups), now)
    }

    method ForgetAll()
      modifies this
      ensures until == map[] && gen == old(gen) + 1
    {
      until, gen := map[], gen + 1;
    }

    /** A result read before the last ForgetAll is not recorded. */
    method Confirm(email: string, groups: string, now: int, gen: nat)
      modifies this
      ensures this.gen == old(this.gen)
      ensures until == if gen == this.gen then Confirmed(old(until), (email, groups), now) else old(until)
    {
      if gen != this.gen {
        return;
      }
      if SWEEP_AT <= |until| {
        Sweep(now);
      }
      until := until[(email, groups) := now + RECHECK_TTL];
    }

    method Sweep(now: int)
      modifies this
      ensures gen == old(gen) && until == Unexpired(old(until), now)
    {
      var keys := until.Keys;
      while keys != {}
        invariant keys <= until.Keys <= old(until).Keys && gen == old(gen)
        invariant forall k | k in until :: until[k] == old(until)[k]
        invariant forall k | k in old(until) :: k in keys || (k in until <==> now < old(until)[k])
        decreases |keys|
      {
        var k :| k in keys;
        if until[k] <= now {
          until := until - {k};
        }
        keys := keys - {k};
      }
    }
  }
}
