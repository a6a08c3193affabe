/**
 Sessions are signed cookies (internal/session/session.go), and the few times
 that end them early are kept beside them (internal/server/session_cutoffs.go).
 A cookie that the gateway signed is the value it encodes; a token it did not
 sign, or signed for another purpose, is None. Times are Unix seconds.
 */
module Sessions {
  import opened Prelude

  const BREAK_GLASS := "break_glass"
  const GUEST_KIND := "guest"
  const NORMAL := ""

  datatype Identity = Identity(
    email: string, groups: string, iat: int, kind: string, ttl: int,
    totp: bool, pk: int, auth: int, card: int, step: int)

  /** How a session was earned; an `auth` of zero means now. */
  datatype Grant = Grant(kind: string, totp: bool, pk: int, auth: int, card: int, step: int)

  datatype Cookie = Cookie(id: Identity, exp: int)

  /** `ttl`, `renew` and `maxAge` are seconds; a `maxAge` of zero sets no limit. */
  datatype Lifetimes = Lifetimes(ttl: int, rememberTTL: int, renew: int, maxAge: int)

  function Issued(lt: Lifetimes, email: string, groups: string, g: Grant, ttl: int, now: int): Cookie {
    var life := if ttl <= 0 then lt.ttl else ttl;
    var auth := if g.auth == 0 then now else g.auth;
    Cookie(Identity(email, groups, now, g.kind, life, g.totp, g.pk, auth, g.card, g.step), now + life)
  }

  function SessionTTL(lt: Lifetimes, id: Identity): int { if 0 < id.ttl then id.ttl else lt.ttl }

  predicate NeedsRenew(lt: Lifetimes, id: Identity, now: int) {
    id.kind != BREAK_GLASS && id.iat + lt.renew < now
  }

  type Token = Option<Cookie>

  /** The one session cookie, if it is valid; two by the name are none. */
  function Readable(tokens: seq<Token>, now: int): Option<Identity> {
    if |tokens| == 1 && tokens[0].Some? && now <= tokens[0].value.exp then Some(tokens[0].value.id) else None
  }

  /** `cookies` are a request's cookies by name. */
  function Named(cookies: seq<(string, Token)>, name: string): seq<Token> {
    if cookies == [] then []
    else Named(cookies[..|cookies| - 1], name)
         + (if cookies[|cookies| - 1].0 == name then [cookies[|cookies| - 1].1] else [])
  }

  method ReadSession(cookies: seq<(string, Token)>, name: string, now: int) returns (id: Option<Identity>)
    ensures id == Readable(Named(cookies, name), now)
  {
    var c: Option<Token> := None;
    for i := 0 to |cookies|
      invariant Named(cookies[..i], name) == if c.None? then [] else [c.value]
    {
      assert cookies[..i + 1][..i] == cookies[..i];
      if cookies[i].0 != name {
        continue;
      }
      if c.Some? {
        TwoStayTwo(cookies, name, i + 1);
        return None;
      }
      c := Some(cookies[i].1);
    }
    assert cookies[..|cookies|] == cookies;
    if c.None? || c.value.None? || c.value.value.exp < now {
      return None;
    }
    return Some(c.value.value.id);
  }

  lemma {:induction false} TwoStayTwo(cookies: seq<(string, Token)>, name: string, n: nat)
    requires n <= |cookies| && 2 <= |Named(cookies[..n], name)|
    ensures 2 <= |Named(cookies, name)|
  {
    if n == |cookies| {
      assert cookies[..n] == cookies;
    } else {
      TwoStayTwo(cookies[..|cookies| - 1], name, n) by { assert cookies[..|cookies| - 1][..n] == cookies[..n]; }
    }
  }

  // ---------- cutoffs ----------

  /** What a cutoff is for. The store's strings for these never collide: an
      address has an "@", and the others are "card:<id>", "passkey:<id>" and
      "groups". */
  datatype Key = Person(email: string) | Card(card: int) | Passkey(pk: int) | Groups

  /** `stored` is the database's table; the rest is held in memory. */
  datatype Cutoffs = Cutoffs(ended: map<Key, int>, groupsChangedAt: int, stored: map<Key, int>)

  /** In memory, where a missing key reads as zero. */
  function Later(m: map<Key, int>, key: Key, at: int): map<Key, int> {
    if (if key in m then m[key] else 0) < at then m[key := at] else m
  }

  /** In the store. */
  function Upserted(m: map<Key, int>, key: Key, at: int): map<Key, int> {
    m[key := if key in m then Max(m[key], at) else at]
  }

  function Loaded(stored: map<Key, int>): Cutoffs {
    Cutoffs(stored, if Groups in stored then stored[Groups] else 0, stored)
  }

  function Ended(c: Cutoffs, key: Key, at: int, storeOk: bool): Cutoffs {
    if storeOk then c.(ended := Later(c.ended, key, at), stored := Upserted(c.stored, key, at)) else c
  }

  /** A failing store does not stop a membership change reaching this process. */
  function Marked(c: Cutoffs, at: int, storeOk: bool): Cutoffs {
    Cutoffs(c.ended, Max(c.groupsChangedAt, at), if storeOk then Upserted(c.stored, Groups, at) else c.stored)
  }

  /** Sign-in times of 0 and 1 mean unknown: the start of time. */
  function SignedInAt(id: Identity): int { if id.auth <= 1 then 0 else id.auth }

  predicate SessionEnded(lt: Lifetimes, ended: map<Key, int>, id: Identity, now: int) {
    || (0 < lt.maxAge && lt.maxAge < now - SignedInAt(id))
    || (Person(id.email) in ended && SignedInAt(id) <= ended[Person(id.email)])
    || (id.pk != 0 && Passkey(id.pk) in ended)
    || (id.kind == BREAK_GLASS && id.card != 0 && Card(id.card) in ended && SignedInAt(id) <= ended[Card(id.card)])
  }

  predicate GroupsStale(groupsChangedAt: int, id: Identity) {
    id.kind != BREAK_GLASS && groupsChangedAt != 0 && id.iat <= groupsChangedAt
  }

  class SessionCutoffs {
    var ended: map<Key, int>
    var groupsChangedAt: int
    var stored: map<Key, int>

    ghost function View(): Cutoffs
      reads this
    {
      Cutoffs(ended, groupsChangedAt, stored)
    }

    constructor (stored: map<Key, int>)
      ensures View() == Loaded(stored)
    {
      this.stored, ended := stored, stored;
      groupsChangedAt := if Groups in stored then stored[Groups] else 0;
    }

    method EndSessionsBefore(key: Key, at: int)
      modifies this`stored
      ensures stored == Upserted(old(stored), key, at)
    {
      if key !in stored || stored[key] < at {
        stored := stored[key := at];
      }
    }

    method EndSessions(key: Key, now: int, storeOk: bool) returns (ok: bool)
      modifies this
      ensures ok == storeOk && View() == Ended(old(View()), key, now, storeOk)
    {
      if !storeOk {
        return false;
      }
      EndSessionsBefore(key, now);
      var at := 0;
      if key in ended {
        at := ended[key];
      }
      if at < now {
        ended := ended[key := now];
      }
      return true;
    }

    method MarkGroupsChanged(at: int, storeOk: bool)
      modifies this
      ensures View() == Marked(old(View()), at, storeOk)
    {
      if storeOk {
        EndSessionsBefore(Groups, at);
      }
      if groupsChangedAt < at {
        groupsChangedAt := at;
      }
    }

    method IsEnded(lt: Lifetimes, id: Identity, now: int) returns (b: bool)
      ensures b == SessionEnded(lt, ended, id, now)
    {
      var auth := id.auth;
      if auth <= 1 {
        auth := 0;
      }
      if 0 < lt.maxAge && lt.maxAge < now - auth {
        return true;
      }
      if Person(id.email) in ended && auth <= ended[Person(id.email)] {
        return true;
      }
      if id.pk != 0 && Passkey(id.pk) in ended {
        return true;
      }
      if id.kind == BREAK_GLASS && id.card != 0 && Card(id.card) in ended && auth <= ended[Card(id.card)] {
        return true;
      }
      return false;
    }
  }
}
