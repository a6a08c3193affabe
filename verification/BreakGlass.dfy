/**
 Scans racing a revoke or a re-mint: the order of steps in
 internal/server/handlers.go (handleBreakGlass, grantBreakGlass,
 handleBreakGlassActivate) against internal/server/admin.go
 (handleAdminBreakRevoke, handleAdminBreakRemint) and
 internal/store/sqlite.go. Each clock reading and each database statement is one
 step; steps interleave freely. A card's code is a random token; here tokens are
 numbered as they are made, so no two are the same, and a token stands for its
 hash and for the generation an offer carries.
 */
module BreakGlass {
  import opened Prelude
  import opened Sessions

  datatype Stored = Stored(token: nat, active: bool)

  /** A session a scan granted: its card, the token it was granted from, and its sign-in time. */
  datatype Ticket = Ticket(card: int, token: nat, auth: int)

  /** A signed promise to grant, kept while the person tries their own session first. */
  datatype Offer = Offer(card: int, token: nat)

  datatype Thread =
    | Scanning(card: int, token: nat, now: int)
    | Activating(offer: Offer, now: int)
    | Found(card: int, token: nat, now: int)
    | Finished

  /** A revoke or a re-mint at work. `tokens` are the card's that it has closed.
      Closed means that its cutoff is in force. */
  datatype Change =
    | Written(card: int, tokens: set<nat>)
    | Stamped(card: int, tokens: set<nat>, at: int)
    | Recorded(card: int, tokens: set<nat>, at: int)
    | Closed(card: int, tokens: set<nat>, at: int)
    | Failed

  datatype World = World(
    clock: int, cards: map<int, Stored>, nextToken: nat, dead: map<int, set<nat>>,
    ended: map<Key, int>, stored: map<Key, int>,
    tickets: seq<Ticket>, offers: seq<Offer>, threads: seq<Thread>, changes: seq<Change>)

  datatype Action =
    | Tick(to: int)
    | Create(card: int)
    | StartScan(card: int, token: nat)
    | StartActivate(offer: nat)
    | LookUp(t: nat)
    | MakeOffer(t: nat)
    | Grant(t: nat)
    | Abandon(t: nat)
    | Revoke(card: int)
    | Remint(card: int)
    | Stamp(c: nat)
    | Record(c: nat, ok: bool)
    | Close(c: nat)
    | Restart

  function Dead(w: World, card: int): set<nat> { if card in w.dead then w.dead[card] else {} }

  /** The card's present token, and every earlier one, stop working. */
  function Killed(w: World, card: int): set<nat>
    requires card in w.cards
  {
    Dead(w, card) + {w.cards[card].token}
  }

  /** The card a token finds, while it is active. */
  predicate Finds(w: World, card: int, token: nat) { card in w.cards && w.cards[card] == Stored(token, true) }

  function ScanStep(w: World, a: Action): World {
    match a
    case StartScan(card, token) => w.(threads := w.threads + [Scanning(card, token, w.clock)])
    case StartActivate(o) => if o < |w.offers| then w.(threads := w.threads + [Activating(w.offers[o], w.clock)]) else w
    case LookUp(t) => if t < |w.threads| then w.(threads := w.threads[t := LookedUp(w, w.threads[t])]) else w
    case MakeOffer(t) =>
      if t < |w.threads| && w.threads[t].Found? then
        w.(offers := w.offers + [Offer(w.threads[t].card, w.threads[t].token)], threads := w.threads[t := Finished])
      else w
    case Grant(t) =>
      if t < |w.threads| && w.threads[t].Found? then
        w.(tickets := w.tickets + [Ticket(w.threads[t].card, w.threads[t].token, w.threads[t].now)],
           threads := w.threads[t := Finished])
      else w
    case Abandon(t) => if t < |w.threads| then w.(threads := w.threads[t := Finished]) else w
    case _ => w
  }

  /** A scan's token finds its card, or an offer's card still has the offer's
      token; either way the card must be active. */
  function LookedUp(w: World, th: Thread): Thread {
    match th
    case Scanning(card, token, now) => if Finds(w, card, token) then Found(card, token, now) else Finished
    case Activating(o, now) => if Finds(w, o.card, o.token) then Found(o.card, o.token, now) else Finished
    case Found(_, _, _) => th
    case Finished => th
  }

  /** A change a restart cuts short: in force if its cutoff was stored, which the
      restart reads back, and otherwise abandoned where it stood. */
  function Interrupted(c: Change): Change {
    match c
    case Recorded(card, tokens, at) => Closed(card, tokens, at)
    case Closed(_, _, _) => c
    case _ => Failed
  }

  function ChangeStep(w: World, a: Action): World {
    match a
    case Tick(to) => if w.clock <= to then w.(clock := to) else w
    case Create(card) =>
      if card in w.cards || card <= 0 then w
      else w.(cards := w.cards[card := Stored(w.nextToken, true)], nextToken := w.nextToken + 1)
    case Revoke(card) =>
      if card !in w.cards then w
      else w.(cards := w.cards[card := w.cards[card].(active := false)], dead := w.dead[card := Killed(w, card)],
              changes := w.changes + [Written(card, Killed(w, card))])
    case Remint(card) =>
      if card !in w.cards then w
      else w.(cards := w.cards[card := Stored(w.nextToken, true)], nextToken := w.nextToken + 1,
              dead := w.dead[card := Killed(w, card)],
              changes := w.changes + [Written(card, Killed(w, card))])
    case Stamp(c) =>
      if c < |w.changes| && w.changes[c].Written? then
        w.(changes := w.changes[c := Stamped(w.changes[c].card, w.changes[c].tokens, w.clock)])
      else w
    case Record(c, ok) =>
      if c < |w.changes| && w.changes[c].Stamped? then
        var h := w.changes[c];
        if ok then
          w.(stored := Upserted(w.stored, Card(h.card), h.at),
             changes := w.changes[c := Recorded(h.card, h.tokens, h.at)])
        else w.(changes := w.changes[c := Failed])
      else w
    case Close(c) =>
      if c < |w.changes| && w.changes[c].Recorded? then
        var h := w.changes[c];
        w.(ended := Later(w.ended, Card(h.card), h.at), changes := w.changes[c := Closed(h.card, h.tokens, h.at)])
      else w
    case Restart => w.(ended := w.stored, threads := [],
                       changes := seq(|w.changes|, c requires 0 <= c < |w.changes| => Interrupted(w.changes[c])))
    case _ => w
  }

  predicate OfScan(a: Action) {
    a.StartScan? || a.StartActivate? || a.LookUp? || a.MakeOffer? || a.Grant? || a.Abandon?
  }

  function Step(w: World, a: Action): World { if OfScan(a) then ScanStep(w, a) else ChangeStep(w, a) }

  function Run(w: World, actions: seq<Action>): World
    decreases |actions|
  {
    if actions == [] then w else Run(Step(w, actions[0]), actions[1..])
  }

  // ---------- what every step keeps ----------

  /** Nothing granted, or about to be, from these tokens of a card is dated after `at`. */
  ghost predicate Before(w: World, card: int, tokens: set<nat>, at: int) {
    && (forall i :: 0 <= i < |w.tickets| && w.tickets[i].card == card && w.tickets[i].token in tokens ==>
          w.tickets[i].auth <= at)
    && (forall i :: 0 <= i < |w.threads| && w.threads[i].Found?
                    && w.threads[i].card == card && w.threads[i].token in tokens ==>
          w.threads[i].now <= at)
  }

  predicate CutAt(m: map<Key, int>, card: int, at: int) { Card(card) in m && at <= m[Card(card)] }

  ghost predicate ChangeSound(w: World, c: Change) {
    match c
    case Written(card, tokens) => 0 < card && tokens <= Dead(w, card)
    case Stamped(card, tokens, at) => 0 < card && 1 < at && tokens <= Dead(w, card) && Before(w, card, tokens, at)
    case Recorded(card, tokens, at) =>
      0 < card && 1 < at && tokens <= Dead(w, card) && Before(w, card, tokens, at) && CutAt(w.stored, card, at)
    case Closed(card, tokens, at) =>
      && 0 < card && 1 < at && tokens <= Dead(w, card) && Before(w, card, tokens, at)
      && CutAt(w.stored, card, at) && CutAt(w.ended, card, at)
    case Failed => true
  }

  /** No dead token is a card's active one, and no clock reading is in the future. */
  ghost predicate CardsSound(w: World) {
    && 1 < w.clock
    && (forall card :: card in w.cards ==> 0 < card && w.cards[card].token < w.nextToken)
    && (forall card, token :: card in w.dead && token in w.dead[card] ==> token < w.nextToken && !Finds(w, card, token))
    && (forall i :: 0 <= i < |w.tickets| ==> w.tickets[i].auth <= w.clock)
    && (forall i :: 0 <= i < |w.threads| && !w.threads[i].Finished? ==> w.threads[i].now <= w.clock)
  }

  ghost predicate ChangesSound(w: World) { forall c :: 0 <= c < |w.changes| ==> ChangeSound(w, w.changes[c]) }

  ghost predicate Sound(w: World) { CardsSound(w) && ChangesSound(w) }

  /** A dead token gains nothing more. */
  lemma ScanKeepsBefore(w: World, a: Action, card: int, tokens: set<nat>, at: int)
    requires CardsSound(w) && OfScan(a) && tokens <= Dead(w, card) && Before(w, card, tokens, at)
    ensures Before(ScanStep(w, a), card, tokens, at)
  {
  }

  lemma ScanKeepsCards(w: World, a: Action)
    requires CardsSound(w) && OfScan(a)
    ensures CardsSound(ScanStep(w, a))
  {
  }

  predicate SameCuts(w: World, w': World) {
    w'.dead == w.dead && w'.ended == w.ended && w'.stored == w.stored && w'.changes == w.changes
  }

  lemma GrantFrame(w: World, a: Action)
    requires a.Grant? || a.MakeOffer?
    ensures SameCuts(w, ScanStep(w, a))
  {
  }

  /** A scan's steps leave the cutoffs and the changes alone. */
  lemma ScanFrame(w: World, a: Action)
    ensures SameCuts(w, ScanStep(w, a))
  {
    if a.Grant? || a.MakeOffer? {
      GrantFrame(w, a);
    }
  }

  lemma ScanKeepsChanges(w: World, a: Action, w': World)
    requires Sound(w) && OfScan(a) && w' == ScanStep(w, a)
    ensures ChangesSound(w')
  {
    ScanFrame(w, a);
    forall c | 0 <= c < |w.changes| ensures ChangeSound(w', w.changes[c]) {
      var h := w.changes[c];
      assert ChangeSound(w, h);
      if h.Stamped? || h.Recorded? || h.Closed? {
        ScanKeepsBefore(w, a, h.card, h.tokens, h.at);
      }
    }
  }

  lemma ChangeKeepsCards(w: World, a: Action)
    requires Sound(w) && !OfScan(a)
    ensures CardsSound(ChangeStep(w, a))
  {
  }

  lemma StampSound(w: World, card: int, tokens: set<nat>)
    requires CardsSound(w)
    ensures Before(w, card, tokens, w.clock)
  {
  }

  /** What no step of a change takes away. */
  ghost predicate Grows(w: World, w': World) {
    && w'.tickets == w.tickets && (w'.threads == w.threads || w'.threads == [])
    && (forall card :: Dead(w, card) <= Dead(w', card))
    && (forall card, at :: CutAt(w.stored, card, at) ==> CutAt(w'.stored, card, at))
    && (forall card, at :: CutAt(w.stored, card, at) && CutAt(w.ended, card, at) ==> CutAt(w'.ended, card, at))
  }

  lemma ChangeGrows(w: World, a: Action)
    requires !OfScan(a)
    ensures Grows(w, ChangeStep(w, a))
  {
  }

  lemma Carries(w: World, w': World, h: Change)
    requires Grows(w, w') && ChangeSound(w, h)
    ensures ChangeSound(w', h)
  {
  }

  lemma RestartSound(w: World, c: nat)
    requires Sound(w) && c < |w.changes|
    ensures ChangeSound(ChangeStep(w, Restart), Interrupted(w.changes[c]))
  {
    assert ChangeSound(w, w.changes[c]);
  }

  lemma StampedSound(w: World, c: nat)
    requires Sound(w) && c < |w.changes| && w.changes[c].Written?
    ensures ChangeSound(ChangeStep(w, Stamp(c)), ChangeStep(w, Stamp(c)).changes[c])
  {
    assert ChangeSound(w, w.changes[c]);
    StampSound(w, w.changes[c].card, w.changes[c].tokens);
  }

  /** The change a step moves on, sound where it now stands. */
  lemma MovedSound(w: World, a: Action, c: nat)
    requires Sound(w) && !OfScan(a) && c < |w.changes| <= |ChangeStep(w, a).changes|
    requires ChangeStep(w, a).changes[c] != w.changes[c]
    ensures ChangeSound(ChangeStep(w, a), ChangeStep(w, a).changes[c])
  {
    if a.Restart? {
      RestartSound(w, c);
    } else if a.Stamp? {
      StampedSound(w, c);
    } else {
      assert ChangeSound(w, w.changes[c]);
    }
  }

  lemma ChangesOnlyAppend(w: World, a: Action)
    requires Sound(w) && !OfScan(a)
    ensures var w' := ChangeStep(w, a);
            && |w.changes| <= |w'.changes|
            && forall c :: |w.changes| <= c < |w'.changes| ==> ChangeSound(w', w'.changes[c])
  {
  }

  lemma ChangeKeepsChanges(w: World, a: Action, w': World)
    requires Sound(w) && !OfScan(a) && w' == ChangeStep(w, a)
    ensures ChangesSound(w')
  {
    ChangesOnlyAppend(w, a);
    ChangeGrows(w, a);
    forall c | 0 <= c < |w.changes| ensures ChangeSound(w', w'.changes[c]) {
      if w'.changes[c] == w.changes[c] {
        Carries(w, w', w.changes[c]);
      } else {
        MovedSound(w, a, c);
      }
    }
  }

  lemma {:induction false} RunSound(w: World, actions: seq<Action>)
    requires Sound(w)
    ensures Sound(Run(w, actions))
    decreases |actions|
  {
    if actions == [] {
    } else {
      if OfScan(actions[0]) {
        ScanKeepsCards(w, actions[0]);
        ScanKeepsChanges(w, actions[0], ScanStep(w, actions[0]));
      } else {
        ChangeKeepsCards(w, actions[0]);
        ChangeKeepsChanges(w, actions[0], ChangeStep(w, actions[0]));
      }
      RunSound(Step(w, actions[0]), actions[1..]);
    }
  }

  /** A gateway with no cards yet. */
  lemma StartSound(clock: int)
    requires 1 < clock
    ensures Sound(World(clock, map[], 0, map[], map[], map[], [], [], [], []))
  {
  }

  // ---------- what a closed change guarantees ----------

  lemma StepKeepsClosed(w: World, a: Action, c: nat)
    requires c < |w.changes| && w.changes[c].Closed?
    ensures c < |Step(w, a).changes| && Step(w, a).changes[c] == w.changes[c]
  {
  }

  lemma {:induction false} RunKeepsClosed(w: World, actions: seq<Action>, c: nat)
    requires c < |w.changes| && w.changes[c].Closed?
    ensures c < |Run(w, actions).changes| && Run(w, actions).changes[c] == w.changes[c]
    decreases |actions|
  {
    if actions == [] {
    } else {
      StepKeepsClosed(w, actions[0], c);
      RunKeepsClosed(Step(w, actions[0]), actions[1..], c);
    }
  }

  /** Once a revoke's or a re-mint's cutoff is recorded, no session granted from
      the card's earlier tokens is usable, minted before or after, by a scan or by
      an offer already under way, in any later state, restarts included. */
  lemma NoOldCardSession(lt: Lifetimes, w: World, c: nat, actions: seq<Action>, i: nat, now: int)
    requires Sound(w) && c < |w.changes| && w.changes[c].Closed?
    requires var end := Run(w, actions);
             i < |end.tickets| && end.tickets[i].card == w.changes[c].card
               && end.tickets[i].token in w.changes[c].tokens
    ensures forall id: Identity ::
              id.kind == "break_glass" && id.card == Run(w, actions).tickets[i].card
                && id.auth == Run(w, actions).tickets[i].auth ==>
              SessionEnded(lt, Run(w, actions).ended, id, now)
  {
    RunSound(w, actions);
    RunKeepsClosed(w, actions, c);
    var end := Run(w, actions);
    assert ChangeSound(end, end.changes[c]);
  }

  /** The tokens a revoke or a re-mint closes are all the card has had. */
  lemma ChangeCoversEarlierTokens(w: World, card: int, remint: bool)
    requires card in w.cards
    ensures var w' := Step(w, if remint then Remint(card) else Revoke(card));
            && |w'.changes| == |w.changes| + 1
            && w'.changes[|w.changes|] == Written(card, Dead(w, card) + {w.cards[card].token})
            && (Sound(w) ==> forall token :: token in w'.changes[|w.changes|].tokens ==> !Finds(w', card, token))
  {
  }

  /** A token made by a re-mint is not among those it closes: the new card works. */
  lemma RemintedCardWorks(w: World, card: int)
    requires Sound(w) && card in w.cards
    ensures var w' := Step(w, Remint(card));
            Finds(w', card, w'.cards[card].token) && w'.cards[card].token !in Dead(w', card)
  {
  }

  // ---------- what a scan or a change does when nothing else happens ----------

  lemma {:induction false} RunThree(w: World, a: Action, b: Action, c: Action)
    ensures Run(w, [a, b, c]) == Step(Step(Step(w, a), b), c)
  {
    assert [a, b, c][1..] == [b, c] && [b, c][1..] == [c] && [c][1..] == [];
    assert Run(Step(w, a), [b, c]) == Run(Step(Step(w, a), b), [c]);
  }

  lemma {:induction false} RunFour(w: World, a: Action, b: Action, c: Action, d: Action)
    ensures Run(w, [a, b, c, d]) == Step(Step(Step(Step(w, a), b), c), d)
  {
    assert [a, b, c, d][1..] == [b, c, d];
    RunThree(Step(w, a), b, c, d);
  }

  /** The card's present code is this one, and the card is active. */
  predicate Works(w: World, card: int, token: nat) {
    card in w.cards && w.cards[card].active && w.cards[card].token == token
  }

  function With(w: World, th: Thread): World { w.(threads := w.threads + [th]) }

  function Looked(w: World, card: int, token: nat): Thread {
    if Works(w, card, token) then Found(card, token, w.clock) else Finished
  }

  lemma ScanLooks(w: World, card: int, token: nat)
    ensures Step(Step(w, StartScan(card, token)), LookUp(|w.threads|)) == With(w, Looked(w, card, token))
  {
    ReplacedLast(w.threads, Scanning(card, token, w.clock));
  }

  lemma OfferLooks(w: World, o: nat)
    requires o < |w.offers|
    ensures Step(Step(w, StartActivate(o)), LookUp(|w.threads|)) ==
            With(w, Looked(w, w.offers[o].card, w.offers[o].token))
  {
    ReplacedLast(w.threads, Activating(w.offers[o], w.clock));
  }

  lemma LastGrants(w: World, card: int, token: nat)
    ensures var t, works := |w.threads|, Works(w, card, token);
            Step(With(w, Looked(w, card, token)), Action.Grant(t))
            == With(w.(tickets := w.tickets + (if works then [Ticket(card, token, w.clock)] else [])), Finished)
  {
    ReplacedLast(w.threads, Looked(w, card, token));
  }

  lemma LastOffers(w: World, card: int, token: nat)
    ensures var t, works := |w.threads|, Works(w, card, token);
            Step(With(w, Looked(w, card, token)), MakeOffer(t))
            == With(w.(offers := w.offers + (if works then [Offer(card, token)] else [])), Finished)
  {
    ReplacedLast(w.threads, Looked(w, card, token));
  }

  /** A scan, if nothing comes between its steps, is granted a session dated when it began,
      or offered one, exactly when its code is the card's present one and the card is
      active; and likewise when an offer is taken up. Nothing else changes. */
  lemma ScanAlone(w: World, card: int, token: nat)
    ensures var t, works := |w.threads|, Works(w, card, token);
            var granted := Run(w, [StartScan(card, token), LookUp(t), Action.Grant(t)]);
            var offered := Run(w, [StartScan(card, token), LookUp(t), MakeOffer(t)]);
            && granted ==
              With(w.(tickets := w.tickets + (if works then [Ticket(card, token, w.clock)] else [])), Finished)
            && offered == With(w.(offers := w.offers + (if works then [Offer(card, token)] else [])), Finished)
  {
    var t := |w.threads|;
    RunThree(w, StartScan(card, token), LookUp(t), Action.Grant(t));
    RunThree(w, StartScan(card, token), LookUp(t), MakeOffer(t));
    ScanLooks(w, card, token);
    LastGrants(w, card, token);
    LastOffers(w, card, token);
  }

  lemma OfferAlone(w: World, o: nat)
    requires o < |w.offers|
    ensures var t, card, token := |w.threads|, w.offers[o].card, w.offers[o].token;
            Run(w, [StartActivate(o), LookUp(t), Action.Grant(t)])
            == With(w.(tickets := w.tickets + (if Works(w, card, token) then [Ticket(card, token, w.clock)] else [])),
                    Finished)
  {
    var t := |w.threads|;
    RunThree(w, StartActivate(o), LookUp(t), Action.Grant(t));
    OfferLooks(w, o);
    LastGrants(w, w.offers[o].card, w.offers[o].token);
  }

  lemma ReplacedChange(changes: seq<Change>, c: Change)
    ensures forall x :: (changes + [c])[|changes| := x] == changes + [x]
  {
  }

  lemma ReplacedLast(threads: seq<Thread>, th: Thread)
    ensures forall x :: (threads + [th])[|threads| := x] == threads + [x]
  {
  }

  /** A revoke or a re-mint, if nothing comes between its steps: the card's code is
      withdrawn or replaced by a new one; and its cutoff is in force and stored, at the
      clock's reading or a later one already recorded, exactly when the store works. */
  lemma ChangeAlone(w: World, card: int, remint: bool, ok: bool)
    requires card in w.cards && 0 < w.clock
    ensures var c, key := |w.changes|, Card(card);
            var end := Run(w, [if remint then Remint(card) else Revoke(card), Stamp(c), Record(c, ok), Close(c)]);
            && end.cards.Keys == w.cards.Keys && (forall k :: k in w.cards && k != card ==> end.cards[k] == w.cards[k])
            && end.cards[card] == (if remint then Stored(w.nextToken, true) else w.cards[card].(active := false))
            && (ok ==> key in end.stored && key in end.ended
                       && end.stored[key] == (if key in w.stored then Max(w.stored[key], w.clock) else w.clock)
                       && end.ended[key] == (if key in w.ended then Max(w.ended[key], w.clock) else w.clock))
            && (!ok ==> end.stored == w.stored && end.ended == w.ended)
            && (forall k :: k != key ==>
                  (k in w.ended <==> k in end.ended) && (k in w.ended ==> end.ended[k] == w.ended[k]))
            && end.tickets == w.tickets && end.offers == w.offers && end.threads == w.threads
            && end.nextToken == w.nextToken + (if remint then 1 else 0) && end.clock == w.clock
            && end.changes ==
              w.changes + [if ok then Closed(card, Dead(w, card) + {w.cards[card].token}, w.clock) else Failed]
  {
    var c, a := |w.changes|, if remint then Remint(card) else Revoke(card);
    RunFour(w, a, Stamp(c), Record(c, ok), Close(c));
    ReplacedChange(w.changes, Written(card, Killed(w, card)));
  }

  /** A new card works at once, under a code no card has had. */
  lemma CreateExactly(w: World, card: int)
    ensures var w' := Step(w, Create(card));
            if card !in w.cards && 0 < card then
              w' == w.(cards := w.cards[card := Stored(w.nextToken, true)], nextToken := w.nextToken + 1)
            else w' == w
  {
  }

  /** A restart forgets the scans under way and keeps the cutoffs that were stored. */
  lemma RestartExactly(w: World)
    ensures var w' := Step(w, Restart);
            && w'.ended == w'.stored == w.stored && w'.threads == [] && w'.cards == w.cards && w'.tickets == w.tickets
            && w'.offers == w.offers && |w'.changes| == |w.changes|
            && forall c :: 0 <= c < |w.changes| ==>
                 w'.changes[c] == if w.changes[c].Recorded? || w.changes[c].Closed? then
                                    Closed(w.changes[c].card, w.changes[c].tokens, w.changes[c].at)
                                  else Failed
  {
  }

  /** The clock moves forward only; a request that is abandoned is over. */
  lemma TickExactly(w: World, to: int, t: nat)
    ensures Step(w, Tick(to)) == w.(clock := if w.clock <= to then to else w.clock)
    ensures t < |w.threads| ==> Step(w, Abandon(t)) == w.(threads := w.threads[t := Finished])
  {
  }
}
