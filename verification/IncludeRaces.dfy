/**
 Include requests that overlap (internal/server/admin_group_lists.go,
 handleAdminAddInclude): each reads who the application roles admit, inserts its
 include, reads again, and undoes the include if an outsider came in. Reading
 the outsiders is one step, and so is each store call; steps of different
 requests interleave freely, and none fails.
 */
module IncludeRaces {
  import opened Prelude
  import opened GroupGraph

  /** The hand-managed application roles are those not filled from a feed. */
  datatype Rules = Rules(roles: set<string>, feeds: set<string>, allowed: string -> bool)

  /** `seen` is the database as the request first read it. */
  datatype Stage = Asked | Looked(seen: Tables) | Inserted(seen: Tables) | Undoing | Finished(stored: bool)

  datatype Request = Request(group: string, included: string, stage: Stage)

  datatype World = World(t: Tables, requests: seq<Request>)

  datatype Action =
    | Ask(group: string, included: string)
    | Look(i: nat)
    | Insert(i: nat)
    | LookAgain(i: nat)
    | Undo(i: nat)

  ghost predicate NothingGained(rules: Rules, t: Tables, t': Tables)
  {
    NoneGained(t, t', rules.roles, rules.feeds, rules.allowed)
  }

  function At(w: World, i: nat, stage: Stage): seq<Request>
    requires i < |w.requests|
  {
    w.requests[i := w.requests[i].(stage := stage)]
  }

  function Edge(r: Request): Arc { (r.group, r.included) }

  ghost function Step(rules: Rules, w: World, a: Action): World {
    match a
    case Ask(group, included) =>
      if Reserved(group) || Reserved(included) || group !in w.t.groups || included !in w.t.groups
         || group in rules.feeds then w
      else w.(requests := w.requests + [Request(group, included, Asked)])
    case Look(i) =>
      if i < |w.requests| && w.requests[i].stage == Asked then w.(requests := At(w, i, Looked(w.t))) else w
    case Insert(i) =>
      if i < |w.requests| && w.requests[i].stage.Looked? then
        var r := w.requests[i];
        if AddOutcome(w.t, r.group, r.included) != Added then w.(requests := At(w, i, Finished(false)))
        else World(WithInclude(w.t, r.group, r.included), At(w, i, Inserted(r.stage.seen)))
      else w
    case LookAgain(i) =>
      if i < |w.requests| && w.requests[i].stage.Inserted? then
        w.(requests := At(w, i,
                          if NothingGained(rules, w.requests[i].stage.seen, w.t) then Finished(true) else Undoing))
      else w
    case Undo(i) =>
      if i < |w.requests| && w.requests[i].stage == Undoing then
        World(w.t.(includes := w.t.includes - {Edge(w.requests[i])}), At(w, i, Finished(false)))
      else w
  }

  ghost function Run(rules: Rules, w: World, actions: seq<Action>): World
    decreases |actions|
  {
    if actions == [] then w else Run(rules, Step(rules, w, actions[0]), actions[1..])
  }

  // ---------- when requests do not look at each other's open includes ----------

  /** The request's include is in the database and not yet decided. */
  predicate Open(r: Request) { r.stage.Inserted? || r.stage == Undoing }

  function OpenEdges(requests: seq<Request>): set<Arc> {
    set i | 0 <= i < |requests| && Open(requests[i]) :: Edge(requests[i])
  }

  /** The database without the includes still to be decided. */
  function Settled(w: World): Tables { w.t.(includes := w.t.includes - OpenEdges(w.requests)) }

  /** A request first looks only when the open includes admit no outsider whom the
      settled ones do not; when none is open, for one. */
  ghost predicate Quiet(rules: Rules, w: World, a: Action) { a.Look? ==> NothingGained(rules, Settled(w), w.t) }

  ghost predicate QuietRun(rules: Rules, w: World, actions: seq<Action>)
    decreases |actions|
  {
    actions == [] || (Quiet(rules, w, actions[0]) && QuietRun(rules, Step(rules, w, actions[0]), actions[1..]))
  }

  /** Whoever the settled includes admit, or a request saw admitted, was admitted at the start. */
  ghost predicate Sound(rules: Rules, t0: Tables, w: World) {
    && w.t.members == t0.members && w.t.groups == t0.groups && NothingGained(rules, t0, Settled(w))
    && forall i :: 0 <= i < |w.requests| ==> SeenSound(rules, t0, w.requests[i].stage)
  }

  ghost predicate SeenSound(rules: Rules, t0: Tables, stage: Stage) {
    stage.Looked? || stage.Inserted? ==> stage.seen.groups == t0.groups && NothingGained(rules, t0, stage.seen)
  }

  lemma GainedThrough(rules: Rules, a: Tables, b: Tables, c: Tables)
    requires NothingGained(rules, a, b) && NothingGained(rules, b, c) && b.groups == c.groups
    ensures NothingGained(rules, a, c)
  {
  }

  /** Fewer includes admit nobody new. */
  lemma FewerIncludes(rules: Rules, t0: Tables, t: Tables, t': Tables)
    requires NothingGained(rules, t0, t) && t'.members == t.members && t'.groups == t.groups
             && t'.includes <= t.includes
    ensures NothingGained(rules, t0, t')
  {
    FewerIncludesGainNobody(t, t', rules.roles, rules.feeds, rules.allowed);
    GainedThrough(rules, t0, t, t');
  }

  /** Moving one request on opens or closes its own edge and no other. */
  lemma OpenEdgesMoved(requests: seq<Request>, i: nat, stage: Stage)
    requires i < |requests|
    ensures var r := requests[i].(stage := stage);
            && OpenEdges(requests) <= OpenEdges(requests[i := r]) + {Edge(r)}
            && OpenEdges(requests[i := r]) <= OpenEdges(requests) + {Edge(r)}
            && (Open(r) ==> Edge(r) in OpenEdges(requests[i := r]))
            && (Open(r) == Open(requests[i]) ==> OpenEdges(requests[i := r]) == OpenEdges(requests))
  {
    var r := requests[i].(stage := stage);
    var moved := requests[i := r];
    forall j | 0 <= j < |requests| ensures j != i ==> moved[j] == requests[j] {
    }
    assert Edge(moved[i]) == Edge(requests[i]);
  }

  lemma OpenEdgesAppended(requests: seq<Request>, r: Request)
    requires !Open(r)
    ensures OpenEdges(requests + [r]) == OpenEdges(requests)
  {
    var more := requests + [r];
    forall e | e in OpenEdges(requests) ensures e in OpenEdges(more) {
      var i :| 0 <= i < |requests| && Open(requests[i]) && Edge(requests[i]) == e;
      assert more[i] == requests[i];
    }
  }

  lemma StepSound(rules: Rules, t0: Tables, w: World, a: Action)
    requires Sound(rules, t0, w) && Quiet(rules, w, a)
    ensures Sound(rules, t0, Step(rules, w, a))
  {
    var w' := Step(rules, w, a);
    if a.Ask? {
      OpenEdgesAppended(w.requests, Request(a.group, a.included, Asked));
    } else if a.i < |w.requests| && w' != w {
      var i := a.i;
      OpenEdgesMoved(w.requests, i, w'.requests[i].stage);
      assert w'.requests == w.requests[i := w.requests[i].(stage := w'.requests[i].stage)];
      assert SeenSound(rules, t0, w.requests[i].stage);
      if a.Look? {
        GainedThrough(rules, t0, Settled(w), w.t);
      }
      if a.LookAgain? && w'.requests[i].stage == Finished(true) {
        GainedThrough(rules, t0, w.requests[i].stage.seen, w.t);
        FewerIncludes(rules, t0, w.t, Settled(w'));
      } else {
        FewerIncludes(rules, t0, Settled(w), Settled(w'));
      }
    }
  }

  /** When each request first looks while the open includes admit nobody new, no run of
      overlapping requests lets an outsider into a hand-managed application role:
      once all are decided, the roles admit no outsider they did not admit before. */
  lemma {:induction false} QuietRunsGainNobody(rules: Rules, t0: Tables, w: World, actions: seq<Action>)
    requires Sound(rules, t0, w) && QuietRun(rules, w, actions)
    ensures Sound(rules, t0, Run(rules, w, actions))
    ensures OpenEdges(Run(rules, w, actions).requests) == {} ==> NothingGained(rules, t0, Run(rules, w, actions).t)
    decreases |actions|
  {
    if actions == [] {
      if OpenEdges(w.requests) == {} {
        assert Settled(w) == w.t;
      }
    } else {
      StepSound(rules, t0, w, actions[0]);
      QuietRunsGainNobody(rules, t0, Step(rules, w, actions[0]), actions[1..]);
    }
  }

  lemma StartSound(rules: Rules, t: Tables)
    ensures Sound(rules, t, World(t, []))
  {
    FewerIncludesGainNobody(t, t, rules.roles, rules.feeds, rules.allowed);
    assert Settled(World(t, [])) == t;
  }

  // ---------- when one does ----------

  lemma {:induction false} RunTwice(rules: Rules, w: World, first: seq<Action>, second: seq<Action>)
    ensures Run(rules, w, first + second) == Run(rules, Run(rules, w, first), second)
    decreases |first|
  {
    if first == [] {
      assert first + second == second;
    } else {
      assert (first + second)[1..] == first[1..] + second;
      RunTwice(rules, Step(rules, w, first[0]), first[1..], second);
    }
  }

  lemma RunPair(rules: Rules, w: World, a: Action, b: Action, rest: seq<Action>)
    ensures Run(rules, w, [a, b] + rest) == Run(rules, Step(rules, Step(rules, w, a), b), rest)
  {
    assert [a, b][1..] == [b] && [b][1..] == [];
    assert Run(rules, Step(rules, w, a), [b]) == Step(rules, Step(rules, w, a), b);
    RunTwice(rules, w, [a, b], rest);
  }

  /** An include that the page would let an administrator ask for. */
  predicate Askable(rules: Rules, t: Tables, e: Arc) {
    !Reserved(e.0) && !Reserved(e.1) && e.0 in t.groups && e.1 in t.groups && e.0 !in rules.feeds
  }

  /** Requests are askable, and the includes have no cycle. */
  ghost predicate Orderly(rules: Rules, w: World) {
    Acyclic(w.t.includes) && forall i :: 0 <= i < |w.requests| ==> Askable(rules, w.t, Edge(w.requests[i]))
  }

  /** Every step keeps it. */
  lemma StepOrderly(rules: Rules, w: World, a: Action)
    requires Orderly(rules, w)
    ensures Orderly(rules, Step(rules, w, a))
  {
    var w' := Step(rules, w, a);
    if a.Insert? && w'.t != w.t {
      CycleCheckIsExact(w.t, w.requests[a.i].group, w.requests[a.i].included);
    }
    FewerArcsStayAcyclic(w.t.includes, if a.Undo? then w'.t.includes else w.t.includes);
    forall i | 0 <= i < |w'.requests| ensures Askable(rules, w'.t, Edge(w'.requests[i])) {
      if i < |w.requests| {
        assert Edge(w'.requests[i]) == Edge(w.requests[i]);
      }
    }
  }

  lemma {:induction false} RunOrderly(rules: Rules, w: World, actions: seq<Action>)
    requires Orderly(rules, w)
    ensures Orderly(rules, Run(rules, w, actions))
    decreases |actions|
  {
    if actions == [] {
    } else {
      StepOrderly(rules, w, actions[0]);
      RunOrderly(rules, Step(rules, w, actions[0]), actions[1..]);
    }
  }

  /** Ask for each include again, and look. */
  function AskAll(edges: seq<Arc>, base: nat): seq<Action> {
    if edges == [] then [] else [Ask(edges[0].0, edges[0].1), Look(base)] + AskAll(edges[1..], base + 1)
  }

  /** The requests that come of it. */
  function Lookers(edges: seq<Arc>, t: Tables): seq<Request> {
    seq(|edges|, i requires 0 <= i < |edges| => Request(edges[i].0, edges[i].1, Looked(t)))
  }

  lemma {:induction false} AskedAll(rules: Rules, w: World, edges: seq<Arc>)
    requires forall i :: 0 <= i < |edges| ==> Askable(rules, w.t, edges[i])
    ensures Run(rules, w, AskAll(edges, |w.requests|)) == World(w.t, w.requests + Lookers(edges, w.t))
    decreases |edges|
  {
    if edges == [] {
      assert w.requests + Lookers(edges, w.t) == w.requests;
    } else {
      var n := |w.requests|;
      var w1 := Step(rules, w, Ask(edges[0].0, edges[0].1));
      var w2 := Step(rules, w1, Look(n));
      var first := Request(edges[0].0, edges[0].1, Looked(w.t));
      assert w2.requests == w.requests + [first];
      RunPair(rules, w, Ask(edges[0].0, edges[0].1), Look(n), AskAll(edges[1..], n + 1));
      AskedAll(rules, w2, edges[1..]);
      assert [first] + Lookers(edges[1..], w.t) == Lookers(edges, w.t);
      assert w2.requests + Lookers(edges[1..], w.t) == w.requests + Lookers(edges, w.t);
    }
  }

  /** Look again, and undo, for each request from lo to hi. */
  function DecideAll(lo: nat, hi: nat): seq<Action>
    decreases hi - lo
  {
    if hi <= lo then [] else [LookAgain(lo), Undo(lo)] + DecideAll(lo + 1, hi)
  }

  /** Requests before lo and from hi on are as they were, none between is open, and
      at most the includes open then have gone. */
  ghost predicate DecidedAll(w: World, w': World, lo: nat, hi: nat) {
    && |w'.requests| == |w.requests|
    && (forall i :: 0 <= i < |w.requests| && (i < lo || hi <= i) ==> w'.requests[i] == w.requests[i])
    && (forall i :: lo <= i < hi && i < |w.requests| ==> !Open(w'.requests[i]))
    && w'.t.members == w.t.members && w'.t.groups == w.t.groups && w'.t.includes <= w.t.includes
    && w.t.includes <= w'.t.includes + OpenEdges(w.requests)
  }

  lemma DecideOne(rules: Rules, w: World, i: nat)
    requires i < |w.requests|
    ensures DecidedAll(w, Step(rules, Step(rules, w, LookAgain(i)), Undo(i)), i, i + 1)
  {
    var w1 := Step(rules, w, LookAgain(i));
    var w2 := Step(rules, w1, Undo(i));
    if w2.t != w.t {
      assert Edge(w.requests[i]) in OpenEdges(w.requests);
    }
  }

  /** Deciding requests opens none. */
  lemma OpenShrinks(w: World, w': World)
    requires |w'.requests| == |w.requests|
    requires forall i :: 0 <= i < |w.requests| ==> w'.requests[i] == w.requests[i] || !Open(w'.requests[i])
    ensures OpenEdges(w'.requests) <= OpenEdges(w.requests)
  {
    forall e | e in OpenEdges(w'.requests) ensures e in OpenEdges(w.requests) {
      var i :| 0 <= i < |w'.requests| && Open(w'.requests[i]) && Edge(w'.requests[i]) == e;
      assert w'.requests[i] == w.requests[i];
    }
  }

  lemma DecidedThen(w: World, w2: World, w': World, lo: nat, hi: nat)
    requires lo < hi <= |w.requests| && DecidedAll(w, w2, lo, lo + 1) && DecidedAll(w2, w', lo + 1, hi)
    ensures DecidedAll(w, w', lo, hi)
  {
    OpenShrinks(w, w2);
    forall i | lo <= i < hi ensures !Open(w'.requests[i]) {
      if i == lo {
        assert w'.requests[i] == w2.requests[i];
      }
    }
  }

  lemma {:induction false} DecidesAll(rules: Rules, w: World, lo: nat, hi: nat)
    requires lo <= hi <= |w.requests|
    ensures DecidedAll(w, Run(rules, w, DecideAll(lo, hi)), lo, hi)
    decreases hi - lo
  {
    if lo < hi {
      var w2 := Step(rules, Step(rules, w, LookAgain(lo)), Undo(lo));
      DecideOne(rules, w, lo);
      RunPair(rules, w, LookAgain(lo), Undo(lo), DecideAll(lo + 1, hi));
      DecidesAll(rules, w2, lo + 1, hi);
      DecidedThen(w, w2, Run(rules, w2, DecideAll(lo + 1, hi)), lo, hi);
    }
  }

  /** Insert the include of each request from lo to hi, and look again. */
  function InsertAll(lo: nat, hi: nat): seq<Action>
    decreases hi - lo
  {
    if hi <= lo then [] else [Insert(lo), LookAgain(lo)] + InsertAll(lo + 1, hi)
  }

  function EdgesFrom(requests: seq<Request>, lo: nat): set<Arc> {
    set i | lo <= i < |requests| :: Edge(requests[i])
  }

  /** Requests from lo on have looked at `seen`, which has no cycle and holds their
      includes and every include there is. */
  ghost predicate Poised(w: World, lo: nat, seen: Tables) {
    && lo <= |w.requests| && Acyclic(seen.includes)
    && w.t.members == seen.members && w.t.groups == seen.groups && w.t.includes <= seen.includes
    && forall i :: lo <= i < |w.requests| ==>
         && w.requests[i].stage == Looked(seen) && Edge(w.requests[i]) in seen.includes
         && w.requests[i].group in seen.groups && w.requests[i].included in seen.groups
  }

  lemma InsertOne(rules: Rules, w: World, lo: nat, seen: Tables)
    requires Poised(w, lo, seen) && lo < |w.requests|
    ensures var r := w.requests[lo];
            Step(rules, Step(rules, w, Insert(lo)), LookAgain(lo))
            == World(WithInclude(w.t, r.group, r.included), w.requests[lo := r.(stage := Finished(true))])
  {
    var r := w.requests[lo];
    var added := WithInclude(w.t, r.group, r.included);
    FewerArcsStayAcyclic(seen.includes, added.includes);
    FewerArcsStayAcyclic(seen.includes, w.t.includes);
    CycleCheckIsExact(w.t, r.group, r.included);
    FewerIncludesGainNobody(seen, added, rules.roles, rules.feeds, rules.allowed);
    var w1 := Step(rules, w, Insert(lo));
    assert w1 == World(added, w.requests[lo := r.(stage := Inserted(seen))]);
    assert w1.requests[lo := r.(stage := Finished(true))] == w.requests[lo := r.(stage := Finished(true))];
  }

  lemma EdgesFromNext(requests: seq<Request>, moved: seq<Request>, lo: nat)
    requires lo < |requests| == |moved| && forall i :: lo < i < |requests| ==> moved[i] == requests[i]
    ensures EdgesFrom(requests, lo) == {Edge(requests[lo])} + EdgesFrom(moved, lo + 1)
  {
    forall e | e in EdgesFrom(requests, lo) ensures e == Edge(requests[lo]) || e in EdgesFrom(moved, lo + 1) {
      var i :| lo <= i < |requests| && Edge(requests[i]) == e;
      assert i == lo || Edge(moved[i]) == e;
    }
    forall e | e in EdgesFrom(moved, lo + 1) ensures e in EdgesFrom(requests, lo) {
      var i :| lo + 1 <= i < |moved| && Edge(moved[i]) == e;
      assert Edge(requests[i]) == e;
    }
  }

  /** Requests before lo are as they were; from lo on, each include is stored for good. */
  ghost predicate InsertedAll(w: World, w': World, lo: nat) {
    && lo <= |w.requests| == |w'.requests|
    && w'.t == w.t.(includes := w.t.includes + EdgesFrom(w.requests, lo))
    && w'.requests[..lo] == w.requests[..lo]
    && forall i :: lo <= i < |w'.requests| ==> w'.requests[i].stage == Finished(true)
  }

  lemma InsertedNext(w: World, w2: World, w': World, lo: nat)
    requires lo < |w.requests| && InsertedAll(w2, w', lo + 1)
    requires var r := w.requests[lo];
             w2 == World(WithInclude(w.t, r.group, r.included), w.requests[lo := r.(stage := Finished(true))])
    ensures InsertedAll(w, w', lo)
  {
    EdgesFromNext(w.requests, w2.requests, lo);
    assert w'.requests[lo] == w'.requests[..lo + 1][lo];
    assert w'.requests[..lo] == w'.requests[..lo + 1][..lo] && w2.requests[..lo + 1][..lo] == w.requests[..lo];
  }

  lemma {:induction false} InsertsAll(rules: Rules, w: World, lo: nat, seen: Tables)
    requires Poised(w, lo, seen)
    ensures InsertedAll(w, Run(rules, w, InsertAll(lo, |w.requests|)), lo)
    decreases |w.requests| - lo
  {
    if lo == |w.requests| {
      assert EdgesFrom(w.requests, lo) == {};
      assert w.t.includes + {} == w.t.includes;
    } else {
      var n := |w.requests|;
      var w2 := Step(rules, Step(rules, w, Insert(lo)), LookAgain(lo));
      InsertOne(rules, w, lo, seen);
      RunPair(rules, w, Insert(lo), LookAgain(lo), InsertAll(lo + 1, n));
      InsertsAll(rules, w2, lo + 1, seen);
      InsertedNext(w, w2, Run(rules, w2, InsertAll(lo + 1, n)), lo);
    }
  }

  /** The open includes that are stored, listed. */
  function OpenList(requests: seq<Request>, stored: set<Arc>): seq<Arc> {
    if requests == [] then []
    else
      var front, last := OpenList(requests[..|requests| - 1], stored), requests[|requests| - 1];
      if Open(last) && Edge(last) in stored then front + [Edge(last)] else front
  }

  lemma {:induction false} OpenListIsAll(requests: seq<Request>, stored: set<Arc>)
    ensures Elements(OpenList(requests, stored)) == OpenEdges(requests) * stored
  {
    if requests == [] {
    } else {
      var front, last := requests[..|requests| - 1], requests[|requests| - 1];
      OpenListIsAll(front, stored);
      assert requests == front + [last];
      if Open(last) {
        assert OpenEdges(requests) == OpenEdges(front) + {Edge(last)} by {
          assert forall i :: 0 <= i < |front| ==> requests[i] == front[i];
        }
        assert Elements(OpenList(front, stored) + [Edge(last)]) == Elements(OpenList(front, stored)) + {Edge(last)};
      } else {
        OpenEdgesAppended(front, last);
      }
    }
  }

  /** New requests have inserted nothing. */
  lemma LookersClosed(requests: seq<Request>, edges: seq<Arc>, t: Tables)
    ensures OpenEdges(requests + Lookers(edges, t)) == OpenEdges(requests)
  {
    var all := requests + Lookers(edges, t);
    forall e | e in OpenEdges(requests) ensures e in OpenEdges(all) {
      var i :| 0 <= i < |requests| && Open(requests[i]) && Edge(requests[i]) == e;
      assert all[i] == requests[i];
    }
  }

  lemma LookersEdges(requests: seq<Request>, n: nat, edges: seq<Arc>, t: Tables)
    requires n + |edges| == |requests| && requests[n..] == Lookers(edges, t)
    ensures EdgesFrom(requests, n) == Elements(edges)
  {
    forall e | e in edges ensures e in EdgesFrom(requests, n) {
      var i :| 0 <= i < |edges| && edges[i] == e;
      assert requests[n + i] == requests[n..][i];
      assert Edge(requests[n + i]) == e;
    }
    forall i | n <= i < |requests| ensures Edge(requests[i]) in Elements(edges) {
      assert requests[i] == requests[n..][i - n] && edges[i - n] in edges;
    }
  }

  predicate OnlyLooks(actions: seq<Action>) { forall i :: 0 <= i < |actions| ==> actions[i].Ask? || actions[i].Look? }

  predicate NoLooks(actions: seq<Action>) { forall i :: 0 <= i < |actions| ==> !actions[i].Look? }

  lemma {:induction false} AskAllOnlyLooks(edges: seq<Arc>, base: nat)
    ensures OnlyLooks(AskAll(edges, base))
    decreases |edges|
  {
    if edges != [] {
      AskAllOnlyLooks(edges[1..], base + 1);
    }
  }

  lemma {:induction false} DecideAllNoLooks(lo: nat, hi: nat)
    ensures NoLooks(DecideAll(lo, hi))
    decreases hi - lo
  {
    if lo < hi {
      DecideAllNoLooks(lo + 1, hi);
    }
  }

  lemma {:induction false} InsertAllNoLooks(lo: nat, hi: nat)
    ensures NoLooks(InsertAll(lo, hi))
    decreases hi - lo
  {
    if lo < hi {
      InsertAllNoLooks(lo + 1, hi);
    }
  }

  /** Once the old requests are decided, the new ones are poised to insert. */
  lemma ThenPoised(w: World, w2: World, edges: seq<Arc>)
    requires Acyclic(w.t.includes) && forall i :: 0 <= i < |edges| ==>
             edges[i] in w.t.includes && edges[i].0 in w.t.groups && edges[i].1 in w.t.groups
    requires DecidedAll(World(w.t, w.requests + Lookers(edges, w.t)), w2, 0, |w.requests|)
    ensures Poised(w2, |w.requests|, w.t) && w2.requests[|w.requests|..] == Lookers(edges, w.t)
  {
    var all, n := w.requests + Lookers(edges, w.t), |w.requests|;
    forall i | n <= i < |all| ensures w2.requests[i] == Lookers(edges, w.t)[i - n] {
      assert w2.requests[i] == all[i];
    }
  }

  /** Then every include that was there is there again, and none is open. */
  lemma AllBack(w: World, w2: World, w3: World, edges: seq<Arc>)
    requires Elements(edges) == OpenEdges(w.requests) * w.t.includes
    requires DecidedAll(World(w.t, w.requests + Lookers(edges, w.t)), w2, 0, |w.requests|)
    requires w2.requests[|w.requests|..] == Lookers(edges, w.t) && InsertedAll(w2, w3, |w.requests|)
    ensures w3.t == w.t && OpenEdges(w3.requests) == {}
  {
    var n := |w.requests|;
    LookersClosed(w.requests, edges, w.t);
    LookersEdges(w2.requests, n, edges, w.t);
    assert w3.t.includes == w.t.includes;
    forall i | 0 <= i < |w3.requests| ensures !Open(w3.requests[i]) {
      if i < n {
        assert w3.requests[i] == w3.requests[..n][i] == w2.requests[..n][i];
      }
    }
  }

  /** Asking again for every open include, and looking, makes them all stay: whatever
      the open includes admit, later steps, in which nobody looks again for the first
      time, can leave stored with nothing undecided. */
  lemma EverythingOpenCanStay(rules: Rules, w: World) returns (looks: seq<Action>, rest: seq<Action>)
    requires Orderly(rules, w)
    ensures OnlyLooks(looks) && NoLooks(rest)
    ensures var end := Run(rules, w, looks + rest); end.t == w.t && OpenEdges(end.requests) == {}
  {
    var edges, n := OpenList(w.requests, w.t.includes), |w.requests|;
    OpenListIsAll(w.requests, w.t.includes);
    forall k | 0 <= k < |edges| ensures Askable(rules, w.t, edges[k]) && edges[k] in w.t.includes {
      assert edges[k] in Elements(edges);
      var i :| 0 <= i < |w.requests| && Open(w.requests[i]) && Edge(w.requests[i]) == edges[k];
    }
    looks := AskAll(edges, n);
    AskedAll(rules, w, edges);
    var w1 := Run(rules, w, looks);
    var w2 := Run(rules, w1, DecideAll(0, n));
    DecidesAll(rules, w1, 0, n);
    ThenPoised(w, w2, edges);
    var w3 := Run(rules, w2, InsertAll(n, |w2.requests|));
    InsertsAll(rules, w2, n, w.t);
    AllBack(w, w2, w3, edges);
    rest := DecideAll(0, n) + InsertAll(n, |w2.requests|);
    RunTwice(rules, w1, DecideAll(0, n), InsertAll(n, |w2.requests|));
    RunTwice(rules, w, looks, rest);
    AskAllOnlyLooks(edges, n);
    DecideAllNoLooks(0, n);
    InsertAllNoLooks(n, |w2.requests|);
  }

  // ---------- exactly when looking is harmless ----------

  /** However requests look now, and whatever happens then without another first look,
      once all is decided the roles admit no outsider they did not admit at the start. */
  ghost predicate LookingIsHarmless(rules: Rules, t0: Tables, w: World) {
    forall looks, rest :: OnlyLooks(looks) && NoLooks(rest) && OpenEdges(Run(rules, w, looks + rest).requests) == {} ==>
      NothingGained(rules, t0, Run(rules, w, looks + rest).t)
  }

  lemma {:induction false} LooksKeepSound(rules: Rules, t0: Tables, w: World, looks: seq<Action>)
    requires Sound(rules, t0, w) && NothingGained(rules, t0, w.t) && OnlyLooks(looks)
    ensures Sound(rules, t0, Run(rules, w, looks))
    decreases |looks|
  {
    if looks != [] {
      var w' := Step(rules, w, looks[0]);
      if looks[0].Ask? {
        StepSound(rules, t0, w, looks[0]);
      } else if looks[0].i < |w.requests| {
        OpenEdgesMoved(w.requests, looks[0].i, w'.requests[looks[0].i].stage);
      }
      LooksKeepSound(rules, t0, w', looks[1..]);
    }
  }

  lemma {:induction false} NoLooksQuiet(rules: Rules, w: World, actions: seq<Action>)
    requires NoLooks(actions)
    ensures QuietRun(rules, w, actions)
    decreases |actions|
  {
    if actions != [] {
      NoLooksQuiet(rules, Step(rules, w, actions[0]), actions[1..]);
    }
  }

  /** Looking is harmless exactly when the database, open includes and all, admits no
      outsider to a role who was not admitted at the start. */
  lemma LookingIsHarmlessExactly(rules: Rules, t0: Tables, w: World)
    requires Sound(rules, t0, w) && Orderly(rules, w)
    ensures LookingIsHarmless(rules, t0, w) <==> NothingGained(rules, t0, w.t)
  {
    if NothingGained(rules, t0, w.t) {
      forall looks, rest | OnlyLooks(looks) && NoLooks(rest) && OpenEdges(Run(rules, w, looks + rest).requests) == {}
        ensures NothingGained(rules, t0, Run(rules, w, looks + rest).t)
      {
        RunTwice(rules, w, looks, rest);
        LooksKeepSound(rules, t0, w, looks);
        NoLooksQuiet(rules, Run(rules, w, looks), rest);
        QuietRunsGainNobody(rules, t0, Run(rules, w, looks), rest);
      }
    } else {
      var looks, rest := EverythingOpenCanStay(rules, w);
    }
  }

  /** And in any state, whoever the open includes admit beyond the settled ones can be
      let in for good: requests that look now take them for old. */
  lemma LoudLookLetsIn(rules: Rules, w: World) returns (looks: seq<Action>, rest: seq<Action>)
    requires Orderly(rules, w) && !NothingGained(rules, Settled(w), w.t)
    ensures OnlyLooks(looks) && NoLooks(rest)
    ensures var end := Run(rules, w, looks + rest);
            OpenEdges(end.requests) == {} && !NothingGained(rules, Settled(w), end.t)
  {
    looks, rest := EverythingOpenCanStay(rules, w);
  }

  // ---------- one such run ----------

  /** Three groups, one person in the last two, and these includes. */
  function Three(r: string, g: string, h: string, x: string, includes: set<Arc>): Tables {
    Tables({r, g, h}, {(g, x), (h, x)}, includes)
  }

  lemma Admitted(r: string, g: string, h: string, x: string, via: string)
    requires via == g || via == h
    ensures MembersOf(Three(r, g, h, x, {(r, via)}), r) == {x}
  {
    var t := Three(r, g, h, x, {(r, via)});
    assert (via, x) in t.members;
    assert Joins(t.includes, [r, via], r, via);
    IntoReachable({r}, t.includes, r, via);
  }

  lemma NotAdmitted(r: string, g: string, h: string, x: string)
    requires r != g && r != h
    ensures MembersOf(Three(r, g, h, x, {}), r) == {}
  {
    var t := Three(r, g, h, x, {});
    forall y | y in Reachable({r}, t.includes) ensures y == r {
      if y != r {
        NoWayOn(t.includes, r, y);
      }
    }
  }

  lemma CanBeAdded(r: string, g: string, h: string, x: string, via: string)
    requires r != g && r != h && (via == g || via == h)
    ensures AddOutcome(Three(r, g, h, x, {}), r, via) == Added
  {
    NoWayOn({}, via, r);
  }

  lemma Seven(rules: Rules, w: World, a: Action, b: Action, c: Action, d: Action, e: Action, f: Action, g: Action)
    ensures Run(rules, w, [a, b, c, d, e, f, g]) ==
            Step(rules,
                 Step(rules, Step(rules, Step(rules, Step(rules, Step(rules, Step(rules, w, a), b), c), d), e), f), g)
  {
    assert [a, b, c, d, e, f, g][1..] == [b, c, d, e, f, g] && [b, c, d, e, f, g][1..] == [c, d, e, f, g];
    assert [c, d, e, f, g][1..] == [d, e, f, g] && [d, e, f, g][1..] == [e, f, g] && [e, f, g][1..] == [f, g]
           && [f, g][1..] == [g];
    var w3 := Step(rules, Step(rules, Step(rules, w, a), b), c);
    assert Run(rules, w, [a, b, c, d, e, f, g]) == Run(rules, Step(rules, Step(rules, w, a), b), [c, d, e, f, g]);
    var w5 := Step(rules, Step(rules, w3, d), e);
    assert Run(rules, w3, [d, e, f, g]) == Run(rules, w5, [f, g]);
    assert [g][1..] == [];
    assert Run(rules, Step(rules, w5, f), [g]) == Step(rules, Step(rules, w5, f), g);
    assert Run(rules, w5, [f, g]) == Step(rules, Step(rules, w5, f), g);
  }

  /** Two requests give role r a group that holds the outsider x. The second looks
      while the first one's include is open, and takes x for an old acquaintance. */
  lemma OverlapLetsOutsiderIn(r: string, g: string, h: string, x: string)
    requires r != g && r != h && g != h && !Reserved(r) && !Reserved(g) && !Reserved(h)
    ensures var rules, t := Rules({r}, {}, _ => false), Three(r, g, h, x, {});
            var end := Run(rules, World(t, [Request(r, g, Asked), Request(r, h, Asked)]),
                           [Look(0), Insert(0), Look(1), LookAgain(0), Undo(0), Insert(1), LookAgain(1)]);
            && end.requests == [Request(r, g, Finished(false)), Request(r, h, Finished(true))]
            && x in MembersOf(end.t, r) && x !in MembersOf(t, r)
  {
    var rules, t := Rules({r}, {}, _ => false), Three(r, g, h, x, {});
    var tg, th := Three(r, g, h, x, {(r, g)}), Three(r, g, h, x, {(r, h)});
    NotAdmitted(r, g, h, x);
    Admitted(r, g, h, x, g);
    Admitted(r, g, h, x, h);
    CanBeAdded(r, g, h, x, g);
    CanBeAdded(r, g, h, x, h);
    var w := World(t, [Request(r, g, Asked), Request(r, h, Asked)]);
    var w1 := Step(rules, w, Look(0));
    var w2 := Step(rules, w1, Insert(0));
    assert w2.t == tg && w2.requests == [Request(r, g, Inserted(t)), Request(r, h, Asked)];
    var w3 := Step(rules, w2, Look(1));
    var w4 := Step(rules, w3, LookAgain(0));
    assert !NothingGained(rules, t, tg) by {
      assert r in rules.roles && !rules.allowed(x) && x in MembersOf(tg, r) && x !in MembersOf(t, r);
    }
    assert w4.requests == [Request(r, g, Undoing), Request(r, h, Looked(tg))];
    var w5 := Step(rules, w4, Undo(0));
    assert w5.t == t;
    var w6 := Step(rules, w5, Insert(1));
    assert w6.t == th;
    var w7 := Step(rules, w6, LookAgain(1));
    assert NothingGained(rules, tg, th);
    Seven(rules, w, Look(0), Insert(0), Look(1), LookAgain(0), Undo(0), Insert(1), LookAgain(1));
  }

  // ---------- one request alone ----------

  lemma RunFive(rules: Rules, w: World, a: Action, b: Action, c: Action, d: Action, e: Action)
    ensures Run(rules, w, [a, b, c, d, e]) ==
            Step(rules, Step(rules, Step(rules, Step(rules, Step(rules, w, a), b), c), d), e)
  {
    assert [a, b, c, d, e][1..] == [b, c, d, e] && [b, c, d, e][1..] == [c, d, e];
    assert [c, d, e][1..] == [d, e] && [d, e][1..] == [e] && [e][1..] == [];
    var w2 := Step(rules, Step(rules, w, a), b);
    assert Run(rules, w, [a, b, c, d, e]) == Run(rules, w2, [c, d, e]);
    var w4 := Step(rules, Step(rules, w2, c), d);
    assert Run(rules, w2, [c, d, e]) == Run(rules, w4, [e]);
    assert Run(rules, w4, [e]) == Step(rules, w4, e);
  }

  /** Taken by one request with no other at work, the steps come to what GroupGraph.dfy says
      of a whole request: the same tables, and the same word on whether it was stored. */
  lemma AloneIsHandled(rules: Rules, w: World, group: string, included: string)
    ensures var i := |w.requests|;
            var end := Run(rules, w, [Ask(group, included), Look(i), Insert(i), LookAgain(i), Undo(i)]);
            var (t', outcome) := Handled(w.t, group, included, rules.roles, rules.feeds, rules.allowed,
                                         Faults(false, false, false));
            && end.t == t'
            && end.requests == if outcome in {NotFound, GroupSynced} then w.requests
                               else w.requests + [Request(group, included, Finished(outcome == Stored))]
  {
    var i := |w.requests|;
    RunFive(rules, w, Ask(group, included), Look(i), Insert(i), LookAgain(i), Undo(i));
    var w1 := Step(rules, w, Ask(group, included));
    if w1 != w {
      AskedAlone(rules, w, group, included);
    }
  }

  function Last(w: World, t: Tables, group: string, included: string, stage: Stage): World {
    World(t, w.requests + [Request(group, included, stage)])
  }

  lemma AskedAlone(rules: Rules, w: World, group: string, included: string)
    ensures var i, w1 := |w.requests|, Last(w, w.t, group, included, Asked);
            var added := WithInclude(w.t, group, included);
            var end := Step(rules, Step(rules, Step(rules, Step(rules, w1, Look(i)), Insert(i)), LookAgain(i)),
                            Undo(i));
            end == if AddOutcome(w.t, group, included) != Added then Last(w, w.t, group, included, Finished(false))
                   else if NothingGained(rules, w.t, added) then Last(w, added, group, included, Finished(true))
                   else
                     Last(w, added.(includes := added.includes - {(group, included)}), group, included, Finished(false))
  {
    var i, w1 := |w.requests|, Last(w, w.t, group, included, Asked);
    var added := WithInclude(w.t, group, included);
    var w2 := Step(rules, w1, Look(i));
    assert w2 == Last(w, w.t, group, included, Looked(w.t));
    var w3 := Step(rules, w2, Insert(i));
    if AddOutcome(w.t, group, included) != Added {
      assert w3 == Last(w, w.t, group, included, Finished(false));
    } else {
      assert w3 == Last(w, added, group, included, Inserted(w.t));
      var w4 := Step(rules, w3, LookAgain(i));
      assert w4 ==
             Last(w, added, group, included, if NothingGained(rules, w.t, added) then Finished(true) else Undoing);
    }
  }
}
