/**
 Groups that include other groups (internal/store/sqlite.go), and the admin
 page that adds an include (internal/server/admin_group_lists.go).

 Tables are sets of rows. A recursive UNION query is a worklist loop over such
 a set. An include row (g, i) makes every member of i a member of g.
 */
module GroupGraph {

  type Arc = (string, string)

  datatype Tables = Tables(groups: set<string>, members: set<Arc>, includes: set<Arc>)

  /** The foreign keys of group_members and group_includes. */
  ghost predicate Consistent(t: Tables) {
    && (forall g, e :: (g, e) in t.members ==> g in t.groups)
    && (forall g, i :: (g, i) in t.includes ==> g in t.groups && i in t.groups)
  }

  // ---------- paths ----------

  ghost predicate IsPath(arcs: set<Arc>, p: seq<string>) {
    p != [] && forall i :: 0 <= i < |p| - 1 ==> (p[i], p[i + 1]) in arcs
  }

  ghost predicate Joins(arcs: set<Arc>, p: seq<string>, a: string, b: string) {
    IsPath(arcs, p) && p[0] == a && p[|p| - 1] == b
  }

  /** b can be reached from a in zero or more steps. */
  ghost predicate Reaches(arcs: set<Arc>, a: string, b: string) {
    exists p :: Joins(arcs, p, a, b)
  }

  /** No walk of one or more steps returns to where it began. */
  ghost predicate Acyclic(arcs: set<Arc>) {
    forall p :: IsPath(arcs, p) && 1 < |p| ==> p[0] != p[|p| - 1]
  }

  function Heads(arcs: set<Arc>): set<string> { set a | a in arcs :: a.1 }

  function Children(arcs: set<Arc>, a: string): set<string> { set x | x in arcs && x.0 == a :: x.1 }

  function Reverse(arcs: set<Arc>): set<Arc> { set a | a in arcs :: (a.1, a.0) }

  /** Everything reachable from the starting set. */
  ghost function Reachable(base: set<string>, arcs: set<Arc>): set<string> {
    set x | x in base + Heads(arcs) && exists b :: b in base && Reaches(arcs, b, x)
  }

  lemma ReachesSelf(arcs: set<Arc>, a: string)
    ensures Reaches(arcs, a, a)
  {
    assert Joins(arcs, [a], a, a);
  }

  lemma ReachesAppend(arcs: set<Arc>, a: string, b: string, c: string)
    requires Reaches(arcs, a, b) && (b, c) in arcs
    ensures Reaches(arcs, a, c)
  {
    var p :| Joins(arcs, p, a, b);
    assert Joins(arcs, p + [c], a, c);
  }

  lemma ReachesPrepend(arcs: set<Arc>, a: string, b: string, c: string)
    requires (a, b) in arcs && Reaches(arcs, b, c)
    ensures Reaches(arcs, a, c)
  {
    var p :| Joins(arcs, p, b, c);
    assert Joins(arcs, [a] + p, a, c);
  }

  lemma ReachesTransitive(arcs: set<Arc>, a: string, b: string, c: string)
    requires Reaches(arcs, a, b) && Reaches(arcs, b, c)
    ensures Reaches(arcs, a, c)
  {
    var p :| Joins(arcs, p, a, b);
    var q :| Joins(arcs, q, b, c);
    assert Joins(arcs, p + q[1..], a, c);
  }

  lemma ReachesMonotone(arcs: set<Arc>, more: set<Arc>, a: string, b: string)
    requires arcs <= more && Reaches(arcs, a, b)
    ensures Reaches(more, a, b)
  {
    var p :| Joins(arcs, p, a, b);
    assert Joins(more, p, a, b);
  }

  /** Walking the reversed arcs is walking backwards. */
  lemma ReachesReversed(arcs: set<Arc>, a: string, b: string)
    requires Reaches(arcs, a, b)
    ensures Reaches(Reverse(arcs), b, a)
  {
    var p :| Joins(arcs, p, a, b);
    var q := seq(|p|, i requires 0 <= i < |p| => p[|p| - 1 - i]);
    forall i | 0 <= i < |q| - 1 ensures (q[i], q[i + 1]) in Reverse(arcs) {
      var j := |p| - 2 - i;
      assert (p[j], p[j + 1]) in arcs;
    }
    assert Joins(Reverse(arcs), q, b, a);
  }

  lemma ReverseTwice(arcs: set<Arc>)
    ensures Reverse(Reverse(arcs)) == arcs
  {
  }

  lemma IntoReachable(base: set<string>, arcs: set<Arc>, b: string, x: string)
    requires b in base && Reaches(arcs, b, x)
    ensures x in Reachable(base, arcs)
  {
    var p :| Joins(arcs, p, b, x);
    if |p| > 1 {
      assert (p[|p| - 2], x) in arcs;
      assert (p[|p| - 2], x).1 in Heads(arcs);
    }
  }

  /** A set closed under the arcs keeps every path that starts in it. */
  lemma {:induction false} ClosedKeepsPath(arcs: set<Arc>, s: set<string>, p: seq<string>)
    requires IsPath(arcs, p) && p[0] in s
    requires forall a :: a in arcs && a.0 in s ==> a.1 in s
    ensures p[|p| - 1] in s
    decreases |p|
  {
    if |p| == 1 {
    } else {
      assert (p[0], p[1]) in arcs;
      ClosedKeepsPath(arcs, s, p[1..]);
    }
  }

  // ---------- the recursive queries ----------

  lemma ChildrenReachable(base: set<string>, arcs: set<Arc>, name: string)
    requires name in Reachable(base, arcs)
    ensures Children(arcs, name) <= Reachable(base, arcs)
  {
    var b :| b in base && Reaches(arcs, b, name);
    forall x | x in Children(arcs, name) ensures x in Reachable(base, arcs) {
      assert (name, x) in arcs;
      ReachesAppend(arcs, b, name, x);
      IntoReachable(base, arcs, b, x);
    }
  }

  lemma BaseReachable(base: set<string>, arcs: set<Arc>)
    ensures base <= Reachable(base, arcs)
  {
    forall b | b in base ensures b in Reachable(base, arcs) {
      ReachesSelf(arcs, b);
      IntoReachable(base, arcs, b, b);
    }
  }

  lemma ClosedHoldsReachable(base: set<string>, arcs: set<Arc>, s: set<string>)
    requires base <= s && forall a :: a in arcs && a.0 in s ==> a.1 in s
    ensures Reachable(base, arcs) <= s
  {
    forall x | x in Reachable(base, arcs) ensures x in s {
      var b :| b in base && Reaches(arcs, b, x);
      var p :| Joins(arcs, p, b, x);
      ClosedKeepsPath(arcs, s, p);
    }
  }

  lemma ChildrenClose(arcs: set<Arc>, done: set<string>, name: string, seen: set<string>, next: set<string>)
    requires (forall a :: a in arcs && a.0 in done ==> a.1 in seen) && next == Children(arcs, name)
    ensures forall a :: a in arcs && a.0 in done + {name} ==> a.1 in seen + next
  {
  }

  /** One recursive UNION query: start from `base` and add the head of every arc
      whose tail is present. It ends on any graph, cyclic or not. */
  method Walk(base: set<string>, arcs: set<Arc>) returns (seen: set<string>)
    ensures seen == Reachable(base, arcs)
  {
    seen := base;
    var queue := base;
    ghost var all := Reachable(base, arcs);
    BaseReachable(base, arcs);
    while queue != {}
      invariant queue <= seen && base <= seen <= all
      invariant forall a :: a in arcs && a.0 in seen - queue ==> a.1 in seen
      decreases all - (seen - queue)
    {
      var name :| name in queue;
      var next := Children(arcs, name);
      ChildrenReachable(base, arcs, name);
      ghost var done := seen - queue;
      ChildrenClose(arcs, done, name, seen, next);
      queue := (queue - {name}) + (next - seen);
      seen := seen + next;
      assert seen - queue == done + {name};
      assert name in all && name !in done;
    }
    ClosedHoldsReachable(base, arcs, seen);
  }

  /** What an address belongs to: its direct groups, closed under being included. */
  ghost function GroupsOf(t: Tables, email: string): set<string> {
    Reachable(DirectGroups(t, email), Reverse(t.includes))
  }

  function DirectGroups(t: Tables, email: string): set<string> {
    set m | m in t.members && m.1 == email :: m.0
  }

  /** Whom a group admits: the members of everything reachable through its includes. */
  ghost function MembersOf(t: Tables, group: string): set<string> {
    set m | m in t.members && m.0 in Reachable({group}, t.includes) :: m.1
  }

  /** The two walks are dual on any include graph, even a cyclic one. */
  lemma WalksAreDual(t: Tables, group: string, email: string)
    ensures email in MembersOf(t, group) <==> group in GroupsOf(t, email)
    ensures Consistent(t) && group in GroupsOf(t, email) ==> group in t.groups
  {
    var up := Reverse(t.includes);
    if email in MembersOf(t, group) {
      var h :| (h, email) in t.members && h in Reachable({group}, t.includes);
      ReachesReversed(t.includes, group, h);
      assert (h, email).0 in DirectGroups(t, email);
      IntoReachable(DirectGroups(t, email), up, h, group);
    }
    if group in GroupsOf(t, email) {
      var h :| h in DirectGroups(t, email) && Reaches(up, h, group);
      ReachesReversed(up, h, group);
      ReverseTwice(t.includes);
      IntoReachable({group}, t.includes, group, h);
      assert (h, email) in t.members;
      var p :| Joins(t.includes, p, group, h);
      assert |p| > 1 ==> (p[0], p[1]) in t.includes;
    }
  }

  // ---------- changes ----------

  datatype AddResult = Added | IncludeCycle | NoSuchGroup

  /** AddGroupInclude's outcome. */
  ghost function AddOutcome(t: Tables, group: string, included: string): AddResult {
    if group == included || Reaches(t.includes, included, group) then IncludeCycle
    else if group !in t.groups || included !in t.groups then NoSuchGroup
    else Added
  }

  datatype Change =
    | CreateGroup(name: string)
    | DeleteGroup(name: string)
    | AddMember(group: string, email: string)
    | RemoveMember(group: string, email: string)
    | AddInclude(group: string, included: string)
    | RemoveInclude(group: string, included: string)

  ghost function Changed(t: Tables, c: Change): Tables {
    match c
    case CreateGroup(g) => t.(groups := t.groups + {g})
    case DeleteGroup(g) => Tables(t.groups - {g}, set m | m in t.members && m.0 != g, set a | a in t.includes
                                  && a.0 != g && a.1 != g)
    case AddMember(g, e) => if g in t.groups then t.(members := t.members + {(g, e)}) else t
    case RemoveMember(g, e) => t.(members := t.members - {(g, e)})
    case AddInclude(g, i) => if AddOutcome(t, g, i) == Added then t.(includes := t.includes + {(g, i)}) else t
    case RemoveInclude(g, i) => t.(includes := t.includes - {(g, i)})
  }

  /** What each change does to every row: a group created or deleted, and with it every
      membership and include of it; a membership or include added, where the groups exist
      and, for an include, no cycle comes of it; or removed. */
  lemma ChangesExactly(t: Tables, c: Change, g: string, x: string)
    ensures var t' := Changed(t, c);
            && (g in t'.groups <==> (g in t.groups && c != DeleteGroup(g)) || c == CreateGroup(g))
            && ((g, x) in t'.members <==>
                  || ((g, x) in t.members && c != DeleteGroup(g) && c != RemoveMember(g, x))
                  || (c == AddMember(g, x) && g in t.groups))
            && ((g, x) in t'.includes <==>
                  || ((g, x) in t.includes && c != DeleteGroup(g) && c != DeleteGroup(x) && c != RemoveInclude(g, x))
                  || (c == AddInclude(g, x) && g != x && !Reaches(t.includes, x, g) && g in t.groups && x in t.groups))
  {
  }

  /** A path through one new arc either avoids it, or reaches its tail and leaves from its head. */
  lemma {:induction false} PathThroughNewArc(arcs: set<Arc>, g: string, i: string, p: seq<string>)
    requires IsPath(arcs + {(g, i)}, p)
    ensures IsPath(arcs, p) || (Reaches(arcs, p[0], g) && Reaches(arcs, i, p[|p| - 1]))
    decreases |p|
  {
    if |p| == 1 {
    } else {
      var rest := p[1..];
      PathThroughNewArc(arcs, g, i, rest);
      assert (p[0], p[1]) in arcs + {(g, i)};
      if (p[0], p[1]) in arcs {
        if IsPath(arcs, rest) {
          forall k | 0 <= k < |p| - 1 ensures (p[k], p[k + 1]) in arcs {
            if 0 < k { assert (rest[k - 1], rest[k]) in arcs; }
          }
        } else {
          ReachesPrepend(arcs, p[0], p[1], g);
        }
      } else {
        ReachesSelf(arcs, g);
        if IsPath(arcs, rest) {
          assert Joins(arcs, rest, i, p[|p| - 1]);
        }
      }
    }
  }

  /** The check is exact: an include is refused as a cycle precisely when adding
      it to an acyclic graph would leave a cyclic one. */
  lemma CycleCheckIsExact(t: Tables, group: string, included: string)
    requires Acyclic(t.includes)
    ensures AddOutcome(t, group, included) == IncludeCycle <==> !Acyclic(t.includes + {(group, included)})
  {
    var arcs := t.includes + {(group, included)};
    if AddOutcome(t, group, included) == IncludeCycle {
      if group == included {
        ReachesSelf(t.includes, group);
      }
      var p :| Joins(t.includes, p, included, group);
      var loop := [group] + p;
      assert IsPath(arcs, loop) && 1 < |loop| && loop[0] == loop[|loop| - 1];
    } else if !Acyclic(arcs) {
      var p :| IsPath(arcs, p) && 1 < |p| && p[0] == p[|p| - 1];
      PathThroughNewArc(t.includes, group, included, p);
      if !IsPath(t.includes, p) {
        ReachesTransitive(t.includes, included, p[0], group);
      }
      assert false;
    }
  }

  lemma FewerArcsStayAcyclic(arcs: set<Arc>, fewer: set<Arc>)
    requires Acyclic(arcs) && fewer <= arcs
    ensures Acyclic(fewer)
  {
  }

  ghost function After(t: Tables, changes: seq<Change>): Tables
    decreases |changes|
  {
    if changes == [] then t else After(Changed(t, changes[0]), changes[1..])
  }

  /** Every run of the store's operations keeps the include graph acyclic and the
      foreign keys satisfied. */
  lemma {:induction false} RunsStayAcyclic(t: Tables, changes: seq<Change>)
    requires Acyclic(t.includes) && Consistent(t)
    ensures Acyclic(After(t, changes).includes) && Consistent(After(t, changes))
    decreases |changes|
  {
    if changes == [] {
    } else {
      var c := changes[0];
      var t' := Changed(t, c);
      if c.AddInclude? {
        CycleCheckIsExact(t, c.group, c.included);
      } else {
        FewerArcsStayAcyclic(t.includes, t'.includes);
      }
      RunsStayAcyclic(t', changes[1..]);
    }
  }

  /** One or more steps from a: the walk that starts at a's own heads. */
  lemma StepsFrom(arcs: set<Arc>, a: string, b: string)
    requires a != b
    ensures b in Reachable(Children(arcs, a), arcs) <==> Reaches(arcs, a, b)
  {
    var first := Children(arcs, a);
    if Reaches(arcs, a, b) {
      var p :| Joins(arcs, p, a, b);
      assert (p[0], p[1]) in arcs;
      assert Joins(arcs, p[1..], p[1], b);
      IntoReachable(first, arcs, p[1], b);
    }
    if b in Reachable(first, arcs) {
      var h :| h in first && Reaches(arcs, h, b);
      assert (a, h) in arcs;
      ReachesPrepend(arcs, a, h, b);
    }
  }

  // ---------- an include request, as a function ----------

  /** Which store calls of an include request fail: reading the outsiders first or
      inserting, reading them again, the undo. */
  datatype Faults = Faults(before: bool, after: bool, undo: bool)

  datatype Outcome = Stored | Refused | Cycle | NotFound | GroupSynced | StoreError

  predicate Reserved(name: string) { name in {"admin", "user", "guest"} }

  ghost function OutsidersIn(t: Tables, g: string, allowed: string -> bool): set<string> {
    set m | m in MembersOf(t, g) && !allowed(m)
  }

  ghost function Outsiders(t: Tables, roles: set<string>, feeds: set<string>,
                           allowed: string -> bool): map<string, set<string>>
  {
    map g | g in roles && g !in feeds && g in t.groups && OutsidersIn(t, g, allowed) != {} :: OutsidersIn(t, g, allowed)
  }

  lemma OneMoreRole(t: Tables, roles: set<string>, g: string, feeds: set<string>, allowed: string -> bool)
    requires g !in roles
    ensures var before, o := Outsiders(t, roles, feeds, allowed), OutsidersIn(t, g, allowed);
            Outsiders(t, roles + {g}, feeds, allowed) ==
              if g in feeds || g !in t.groups || o == {} then before else before[g := o]
  {
  }

  /** No hand-managed application role admits an outside address it did not admit before. */
  ghost predicate NoneGained(t: Tables, t': Tables, roles: set<string>, feeds: set<string>, allowed: string -> bool) {
    forall g, m :: g in roles && g !in feeds && g in t'.groups && !allowed(m) && m in MembersOf(t', g) ==>
           m in MembersOf(t, g)
  }

  ghost predicate Accepts(t: Tables, group: string, included: string, roles: set<string>, feeds: set<string>,
                          allowed: string -> bool, faults: Faults)
  {
    && !Reserved(group) && !Reserved(included) && group !in feeds
    && !faults.before && !faults.after
    && AddOutcome(t, group, included) == Added
    && NoneGained(t, t.(includes := t.includes + {(group, included)}), roles, feeds, allowed)
  }

  method GainedOutsider(before: map<string, set<string>>, after: map<string, set<string>>) returns (gained: bool)
    ensures gained <==> Gained(before, after)
  {
    var todo := after.Keys;
    while todo != {}
      invariant todo <= after.Keys
      invariant forall g :: g in after.Keys - todo ==> after[g] <= if g in before then before[g] else {}
      decreases todo
    {
      var g :| g in todo;
      todo := todo - {g};
      var seen := if g in before then before[g] else {};
      if exists m :: m in after[g] && m !in seen {
        return true;
      }
    }
    return false;
  }

  ghost predicate Gained(before: map<string, set<string>>, after: map<string, set<string>>) {
    exists g, m :: g in after && m in after[g] && (g in before ==> m !in before[g])
  }

  lemma GainedMeansNew(t: Tables, t': Tables, roles: set<string>, feeds: set<string>, allowed: string -> bool)
    requires t.groups == t'.groups
    ensures Gained(Outsiders(t, roles, feeds, allowed), Outsiders(t', roles, feeds, allowed))
            <==> !NoneGained(t, t', roles, feeds, allowed)
  {
    var before, after := Outsiders(t, roles, feeds, allowed), Outsiders(t', roles, feeds, allowed);
    forall g, m ensures g in after && m in after[g] && (g in before ==> m !in before[g]) <==>
      g in roles && g !in feeds && g in t'.groups && !allowed(m) && m in MembersOf(t', g) && m !in MembersOf(t, g)
    {
      OutsidersRow(t, g, m, roles, feeds, allowed);
      OutsidersRow(t', g, m, roles, feeds, allowed);
    }
  }

  lemma OutsidersRow(t: Tables, g: string, m: string, roles: set<string>, feeds: set<string>, allowed: string -> bool)
    ensures var out := Outsiders(t, roles, feeds, allowed);
            g in out && m in out[g] <==>
            g in roles && g !in feeds && g in t.groups && !allowed(m) && m in MembersOf(t, g)
  {
    var outside := OutsidersIn(t, g, allowed);
    if !allowed(m) && m in MembersOf(t, g) {
      assert m in outside;
    }
  }

  lemma FewerIncludesGainNobody(t: Tables, t': Tables, roles: set<string>, feeds: set<string>, allowed: string -> bool)
    requires t'.members == t.members && t'.includes <= t.includes
    ensures NoneGained(t, t', roles, feeds, allowed)
  {
    forall g, m | m in MembersOf(t', g) ensures m in MembersOf(t, g) {
      var h :| (h, m) in t'.members && h in Reachable({g}, t'.includes);
      ReachesMonotone(t'.includes, t.includes, g, h);
      IntoReachable({g}, t.includes, g, h);
    }
  }

  ghost function WithInclude(t: Tables, group: string, included: string): Tables {
    t.(includes := t.includes + {(group, included)})
  }

  /** The request gets as far as inserting the include. */
  ghost predicate Inserts(t: Tables, group: string, included: string, feeds: set<string>, faults: Faults) {
    && !Reserved(group) && !Reserved(included) && group !in feeds && !faults.before
    && AddOutcome(t, group, included) == Added
  }

  /** The tables after an include request, and its outcome. */
  ghost function Handled(t: Tables, group: string, included: string, roles: set<string>, feeds: set<string>,
                         allowed: string -> bool, faults: Faults): (Tables, Outcome)
  {
    if Reserved(group) || Reserved(included) || group !in t.groups || included !in t.groups then (t, NotFound)
    else if group in feeds then (t, GroupSynced)
    else if faults.before then (t, StoreError)
    else if AddOutcome(t, group, included) == IncludeCycle then (t, Cycle)
    else
      var added := WithInclude(t, group, included);
      var back := if faults.undo then added else added.(includes := added.includes - {(group, included)});
      if faults.after then (back, StoreError)
      else if NoneGained(t, added, roles, feeds, allowed) then (added, Stored)
      else (back, Refused)
  }

  /** Every outcome of an include request, in the order its checks are made. */
  lemma OutcomeExactly(t: Tables, group: string, included: string, roles: set<string>, feeds: set<string>,
                       allowed: string -> bool, faults: Faults)
    ensures var o := Handled(t, group, included, roles, feeds, allowed, faults).1;
            var base := {"admin", "user", "guest"};
            var named := group !in base && included !in base && group in t.groups && included in t.groups;
            var free := named && group !in feeds && !faults.before;
            var cycle := group == included || Reaches(t.includes, included, group);
            var t' := t.(includes := t.includes + {(group, included)});
            var gains := exists g, m :: g in roles && g !in feeds && g in t.groups && !allowed(m)
                                        && m in MembersOf(t', g) && m !in MembersOf(t, g);
            && (o == NotFound <==> !named)
            && (o == GroupSynced <==> named && group in feeds)
            && (o == Cycle <==> free && cycle)
            && (o == Stored <==> free && !cycle && !faults.after && !gains)
            && (o == Refused <==> free && !cycle && !faults.after && gains)
            && (o == StoreError <==>
                  (named && group !in feeds && faults.before) || (free && !cycle && faults.after))
  {
  }

  /** A request that is not stored is a no-op except in two cases: the check after
      the insert could not be made and the include was there already, so that the
      undo loses it; or the undo itself fails and leaves a new include behind. */
  lemma RefusalIsNoOpExactly(t: Tables, group: string, included: string, roles: set<string>, feeds: set<string>,
                             allowed: string -> bool, faults: Faults)
    ensures var (t', outcome) := Handled(t, group, included, roles, feeds, allowed, faults);
            var there := (group, included) in t.includes;
            outcome != Stored ==>
              (t' != t <==>
                && Inserts(t, group, included, feeds, faults)
                && if faults.undo then
                     !there && (faults.after || !NoneGained(t, WithInclude(t, group, included), roles, feeds, allowed))
                   else there && faults.after)
  {
    var added := WithInclude(t, group, included);
    if (group, included) in t.includes {
      assert added == t;
      FewerIncludesGainNobody(t, added, roles, feeds, allowed);
    } else {
      assert added.(includes := added.includes - {(group, included)}) == t;
      assert (group, included) in added.includes;
    }
  }

  lemma NoWayOn(arcs: set<Arc>, b: string, x: string)
    requires Children(arcs, b) == {} && b != x
    ensures !Reaches(arcs, b, x)
  {
    StepsFrom(arcs, b, x);
  }

  /** The first case happens: asking again for an include that is stored, with the
      second check failing, removes it. */
  lemma RepeatedIncludeIsLost(a: string, b: string, roles: set<string>, feeds: set<string>, allowed: string -> bool)
    requires a != b && !Reserved(a) && !Reserved(b) && a !in feeds
    ensures var t := Tables({a, b}, {}, {(a, b)});
            Handled(t, a, b, roles, feeds, allowed, Faults(false, true, false)) == (Tables({a, b}, {}, {}), StoreError)
  {
    var t := Tables({a, b}, {}, {(a, b)});
    NoWayOn(t.includes, b, a);
    assert t.includes + {(a, b)} - {(a, b)} == {};
  }

  // ---------- the store ----------

  class GroupStore {
    var groups: set<string>
    var members: set<Arc>
    var includes: set<Arc>

    ghost function Rows(): Tables
      reads this
    {
      Tables(groups, members, includes)
    }

    constructor ()
      ensures Rows() == Tables({}, {}, {})
    {
      groups, members, includes := {}, {}, {};
    }

    method CreateGroup(name: string)
      modifies this
      ensures Rows() == Changed(old(Rows()), Change.CreateGroup(name))
    {
      groups := groups + {name};
    }

    /** Memberships and includes cascade. */
    method DeleteGroup(name: string)
      modifies this
      ensures Rows() == Changed(old(Rows()), Change.DeleteGroup(name))
    {
      groups := groups - {name};
      members := set m | m in members && m.0 != name;
      includes := set a | a in includes && a.0 != name && a.1 != name;
    }

    method RemoveGroupMember(group: string, email: string)
      modifies this
      ensures Rows() == Changed(old(Rows()), RemoveMember(group, email))
    {
      members := members - {(group, email)};
    }

    method AddGroupInclude(group: string, included: string) returns (r: AddResult)
      modifies this
      ensures r == AddOutcome(old(Rows()), group, included)
      ensures Rows() == Changed(old(Rows()), AddInclude(group, included))
    {
      if group == included {
        return IncludeCycle;
      }
      // The new arc closes a loop when walking down from included meets group.
      var d := Walk(Children(includes, included), includes);
      StepsFrom(includes, included, group);
      if group in d {
        return IncludeCycle;
      }
      if group !in groups || included !in groups {
        return NoSuchGroup;
      }
      includes := includes + {(group, included)};
      return Added;
    }

    method RemoveGroupInclude(group: string, included: string)
      modifies this
      ensures Rows() == Changed(old(Rows()), RemoveInclude(group, included))
    {
      includes := includes - {(group, included)};
    }

    method GroupsForEmail(email: string) returns (names: set<string>)
      ensures names == GroupsOf(Rows(), email)
    {
      names := Walk(set m | m in members && m.1 == email :: m.0, Reverse(includes));
    }

    method GroupMembersResolved(group: string) returns (emails: set<string>, found: bool)
      ensures found <==> group in groups
      ensures emails == if found then MembersOf(Rows(), group) else {}
    {
      if group !in groups {
        return {}, false;
      }
      var names := Walk({group}, includes);
      return set m | m in members && m.0 in names :: m.1, true;
    }

    // ---------- the admin page ----------

    /** For each hand-managed application-role group, the outside addresses it admits. */
    method AppRoleOutsiders(roles: set<string>, feeds: set<string>, allowed: string -> bool)
      returns (out: map<string, set<string>>)
      ensures out == Outsiders(Rows(), roles, feeds, allowed)
    {
      out := map[];
      var todo := roles;
      while todo != {}
        invariant todo <= roles
        invariant out == Outsiders(Rows(), roles - todo, feeds, allowed)
        decreases todo
      {
        var g :| g in todo;
        OneMoreRole(Rows(), roles - todo, g, feeds, allowed);
        assert roles - (todo - {g}) == roles - todo + {g};
        todo := todo - {g};
        if g in feeds {
          continue;
        }
        var resolved, found := GroupMembersResolved(g);
        if !found {
          continue;
        }
        var outside := set m | m in resolved && !allowed(m);
        if outside != {} {
          out := out[g := outside];
        }
      }
    }

    /** Add an include, and take it back if it lets an outside address into an
        application role. The flags say which store calls fail. */
    method HandleAddInclude(group: string, included: string, roles: set<string>, feeds: set<string>,
                            allowed: string -> bool, faults: Faults)
      returns (outcome: Outcome)
      modifies this
      ensures (Rows(), outcome) == Handled(old(Rows()), group, included, roles, feeds, allowed, faults)
      ensures outcome == Stored ==> Rows() == old(Rows()).(includes := old(includes) + {(group, included)})
      ensures outcome == Stored <==> Accepts(old(Rows()), group, included, roles, feeds, allowed, faults)
      ensures outcome != Stored && !faults.undo && Rows() != old(Rows()) ==>
                && faults.after && outcome == StoreError && (group, included) in old(includes)
                && Rows() == old(Rows()).(includes := old(includes) - {(group, included)})
      ensures outcome != Stored && !faults.undo ==>
                (Rows() != old(Rows()) <==>
                  Inserts(old(Rows()), group, included, feeds, faults) && faults.after
                    && (group, included) in old(includes))
      ensures !faults.undo ==> NoneGained(old(Rows()), Rows(), roles, feeds, allowed)
    {
      RefusalIsNoOpExactly(Rows(), group, included, roles, feeds, allowed, faults);
      if Reserved(group) || Reserved(included) || group !in groups || included !in groups {
        return NotFound;
      }
      if group in feeds {
        return GroupSynced;
      }
      if faults.before {
        return StoreError;
      }
      var before := AppRoleOutsiders(roles, feeds, allowed);
      var r := AddGroupInclude(group, included);
      if r == IncludeCycle {
        return Cycle;
      }
      outcome := CheckInclude(group, included, roles, feeds, allowed, faults, before, old(Rows()));
    }

    /** The check after the include is stored, and the undo. */
    method CheckInclude(group: string, included: string, roles: set<string>, feeds: set<string>,
                        allowed: string -> bool, faults: Faults,
                        before: map<string, set<string>>, ghost t: Tables)
      returns (outcome: Outcome)
      requires Rows() == t.(includes := t.includes + {(group, included)})
      requires before == Outsiders(t, roles, feeds, allowed)
      modifies this
      ensures outcome == if faults.after then StoreError
                         else if NoneGained(t, old(Rows()), roles, feeds, allowed) then Stored else Refused
      ensures Rows() == if outcome == Stored || faults.undo then old(Rows())
                        else old(Rows()).(includes := old(includes) - {(group, included)})
      ensures !faults.undo ==> NoneGained(t, Rows(), roles, feeds, allowed)
    {
      var after := AppRoleOutsiders(roles, feeds, allowed);
      GainedMeansNew(t, Rows(), roles, feeds, allowed);
      var gained := GainedOutsider(before, after);
      if faults.after || gained {
        if !faults.undo {
          RemoveGroupInclude(group, included);
          FewerIncludesGainNobody(t, Rows(), roles, feeds, allowed);
        }
        if faults.after {
          return StoreError;
        }
        return Refused;
      }
      return Stored;
    }
  }

}
