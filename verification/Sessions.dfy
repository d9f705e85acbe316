/** packages/auth/src/session.ts: idle and absolute expiry of a session, over runs. */
module Sessions {
  import opened Wrappers

  type Token = string
  type Millis = int

  datatype Timeouts = Timeouts(idleMs: int, absoluteMs: int)

  datatype Session = Session(issuedAt: Millis, idleExpiresAt: Millis, absoluteExpiresAt: Millis, revoked: bool)

  type Store = map<Token, Session>

  datatype Event =
    | Issue(token: Token, prior: Option<Token>, now: Millis)
    | Authenticate(token: Token, now: Millis)
    | Revoke(token: Token, now: Millis)

  function Min(a: int, b: int): int {
    if a <= b then a else b
  }

  function RevokeSession(store: Store, token: Token): Store {
    if token in store then store[token := store[token].(revoked := true)] else store
  }

  /** Tokens are drawn fresh: issuing one that exists is not part of any run. */
  function IssueSession(t: Timeouts, store: Store, token: Token, prior: Option<Token>, now: Millis): Store {
    var rotated := if prior.Some? then RevokeSession(store, prior.value) else store;
    if token in store then rotated
    else rotated[token := Session(now, now + t.idleMs, now + t.absoluteMs, false)]
  }

  predicate Accepts(store: Store, token: Token, now: Millis) {
    && token in store && !store[token].revoked
    && now < store[token].idleExpiresAt && now < store[token].absoluteExpiresAt
  }

  /** An expired session is revoked when it is presented; an accepted one is extended up to its absolute expiry. */
  function AuthenticateSession(t: Timeouts, store: Store, token: Token, now: Millis): Store {
    if token !in store || store[token].revoked then store
    else if !Accepts(store, token, now) then RevokeSession(store, token)
    else store[token := store[token].(idleExpiresAt := Min(now + t.idleMs, store[token].absoluteExpiresAt))]
  }

  function Next(t: Timeouts, store: Store, e: Event): Store {
    match e
    case Issue(token, prior, now) => IssueSession(t, store, token, prior, now)
    case Authenticate(token, now) => AuthenticateSession(t, store, token, now)
    case Revoke(token, _) => RevokeSession(store, token)
  }

  function Run(t: Timeouts, store: Store, events: seq<Event>): Store
    decreases |events|
  {
    if events == [] then store else Next(t, Run(t, store, events[..|events| - 1]), events[|events| - 1])
  }

  /** Times of the accepted authentications with a token, in order. */
  function AcceptedTimes(t: Timeouts, events: seq<Event>, token: Token): seq<Millis>
    decreases |events|
  {
    if events == [] then []
    else
      var init, last := events[..|events| - 1], events[|events| - 1];
      AcceptedTimes(t, init, token)
        + (if last.Authenticate? && last.token == token && Accepts(Run(t, map[], init), token, last.now) then [last.now] else [])
  }

  /** The last time the session was known to be in use. */
  function LastUse(s: Session, times: seq<Millis>): Millis {
    if times == [] then s.issuedAt else times[|times| - 1]
  }

  /** Every gap is shorter than the idle timeout, the first one from issue on, and all times lie before the absolute
      expiry. */
  predicate WellSpaced(t: Timeouts, s: Session, times: seq<Millis>) {
    && (forall i | 0 <= i < |times| :: times[i] < s.issuedAt + t.absoluteMs)
    && (times != [] ==> times[0] < s.issuedAt + t.idleMs)
    && (forall i | 0 < i < |times| :: times[i] < times[i - 1] + t.idleMs)
  }

  predicate SessionInv(t: Timeouts, s: Session, times: seq<Millis>) {
    && s.absoluteExpiresAt == s.issuedAt + t.absoluteMs
    && s.idleExpiresAt <= LastUse(s, times) + t.idleMs
    && WellSpaced(t, s, times)
  }

  lemma {:induction false} NoSessionNoTimes(t: Timeouts, events: seq<Event>, token: Token)
    requires token !in Run(t, map[], events)
    ensures AcceptedTimes(t, events, token) == []
    decreases |events|
  {
    if events != [] {
      NoSessionNoTimes(t, events[..|events| - 1], token);
    }
  }

  /** Over every run: the accepted authentications of a session fall before issue plus the absolute timeout, and each
      follows the one before within the idle timeout. */
  lemma {:induction false} AcceptedAuthentications(t: Timeouts, events: seq<Event>, token: Token)
    requires token in Run(t, map[], events)
    ensures SessionInv(t, Run(t, map[], events)[token], AcceptedTimes(t, events, token))
    decreases |events|
  {
    if events != [] {
      var init, last := events[..|events| - 1], events[|events| - 1];
      var before := Run(t, map[], init);
      if token in before {
        AcceptedAuthentications(t, init, token);
      } else {
        NoSessionNoTimes(t, init, token);
      }
    }
  }

  /** Once revoked, by logout, rotation or expiry, a session accepts nothing. */
  lemma {:induction false} NothingAfterRevocation(t: Timeouts, first: seq<Event>, rest: seq<Event>, token: Token)
    requires token in Run(t, map[], first) && Run(t, map[], first)[token].revoked
    ensures AcceptedTimes(t, first + rest, token) == AcceptedTimes(t, first, token)
    ensures token in Run(t, map[], first + rest) && Run(t, map[], first + rest)[token].revoked
    decreases |rest|
  {
    if rest == [] {
      assert first + rest == first;
    } else {
      var init := rest[..|rest| - 1];
      assert (first + rest)[..|first + rest| - 1] == first + init;
      NothingAfterRevocation(t, first, init, token);
    }
  }

  /** A session presented too late is revoked on the spot, so a clock that runs backwards cannot revive it. */
  lemma LateUseRevokes(t: Timeouts, events: seq<Event>, token: Token, now: Millis, rest: seq<Event>)
    requires token in Run(t, map[], events) && !Accepts(Run(t, map[], events), token, now)
    ensures AcceptedTimes(t, events + [Authenticate(token, now)] + rest, token) == AcceptedTimes(t, events, token)
  {
    var late := events + [Authenticate(token, now)];
    assert late[..|late| - 1] == events;
    NothingAfterRevocation(t, late, rest, token);
  }

  // ---------------------------------------------------------------- a session by its events alone

  /** The life of one session: not issued yet, over, or in use since its issue and last used at a time. */
  datatype Life = Unborn | Over | Living(issued: Millis, used: Millis)

  predicate InTime(t: Timeouts, life: Life, now: Millis) {
    life.Living? && now < life.used + t.idleMs && now < life.issued + t.absoluteMs
  }

  function End(life: Life): Life {
    if life.Living? then Over else life
  }

  /** A session begins with its issue. A use in time prolongs it; a use too late, a logout, or the issue of another session
      in its place ends it. */
  function LifeOf(t: Timeouts, events: seq<Event>, token: Token): Life
    decreases |events|
  {
    if events == [] then Unborn
    else
      var life := LifeOf(t, events[..|events| - 1], token);
      match events[|events| - 1]
      case Issue(issued, prior, now) =>
        if issued == token && life.Unborn? then Living(now, now) else if prior == Some(token) then End(life) else life
      case Authenticate(used, now) =>
        if used != token || !life.Living? then life
        else if InTime(t, life, now) then Living(life.issued, now) else Over
      case Revoke(revoked, _) => if revoked == token then End(life) else life
  }

  /** The stored row stands for this life. */
  predicate Stands(t: Timeouts, store: Store, token: Token, life: Life) {
    match life
    case Unborn => token !in store
    case Over => token in store && store[token].revoked
    case Living(issued, used) =>
      && token in store && !store[token].revoked
      && store[token].issuedAt == issued && store[token].absoluteExpiresAt == issued + t.absoluteMs
      && Min(store[token].idleExpiresAt, issued + t.absoluteMs) == Min(used + t.idleMs, issued + t.absoluteMs)
  }

  lemma {:induction false} LifeStored(t: Timeouts, events: seq<Event>, token: Token)
    ensures Stands(t, Run(t, map[], events), token, LifeOf(t, events, token))
    decreases |events|
  {
    if events != [] {
      LifeStored(t, events[..|events| - 1], token);
    }
  }

  /** After any events, on any clock, a token is accepted if and only if its session has been issued, has not ended, was
      last used less than the idle timeout ago, and was issued less than the absolute timeout ago. */
  lemma AcceptedExactly(t: Timeouts, events: seq<Event>, token: Token, now: Millis)
    ensures Accepts(Run(t, map[], events), token, now) <==> InTime(t, LifeOf(t, events, token), now)
  {
    LifeStored(t, events, token);
  }

  /** An accepted use keeps the session open for another idle timeout, within its absolute lifetime. */
  lemma UseProlongs(t: Timeouts, events: seq<Event>, token: Token, now: Millis, later: Millis)
    requires Accepts(Run(t, map[], events), token, now)
    requires later < now + t.idleMs && later < Run(t, map[], events)[token].issuedAt + t.absoluteMs
    ensures var after := Run(t, map[], events + [Authenticate(token, now)]);
            && Accepts(after, token, later)
            && after[token].idleExpiresAt <= after[token].absoluteExpiresAt == Run(t, map[], events)[token].absoluteExpiresAt
  {
    var used := events + [Authenticate(token, now)];
    assert used[..|used| - 1] == events;
    LifeStored(t, events, token);
    AcceptedExactly(t, events, token, now);
    AcceptedExactly(t, used, token, later);
  }

  class SessionService {
    const timeouts: Timeouts
    var store: Store
    ghost var events: seq<Event>

    ghost predicate Valid()
      reads this
    {
      store == Run(timeouts, map[], events)
    }

    constructor (timeouts: Timeouts)
      ensures Valid() && events == []
    {
      this.timeouts, store, events := timeouts, map[], [];
    }

    method RevokeToken(token: Token)
      modifies this`store
      ensures store == RevokeSession(old(store), token)
    {
      if token in store {
        store := store[token := store[token].(revoked := true)];
      }
    }

    method IssueToken(token: Token, prior: Option<Token>, now: Millis)
      requires Valid() && token !in store
      modifies this
      ensures Valid() && events == old(events) + [Issue(token, prior, now)]
      ensures Accepts(store, token, now) <==> timeouts.idleMs > 0 && timeouts.absoluteMs > 0
    {
      if prior.Some? {
        RevokeToken(prior.value);
      }
      store := store[token := Session(now, now + timeouts.idleMs, now + timeouts.absoluteMs, false)];
      events := events + [Issue(token, prior, now)];
      assert events[..|events| - 1] == old(events);
    }

    method AuthenticateToken(token: Token, now: Millis) returns (accepted: bool)
      requires Valid()
      modifies this
      ensures Valid() && events == old(events) + [Authenticate(token, now)]
      ensures accepted == Accepts(old(store), token, now)
      ensures AcceptedTimes(timeouts, events, token)
           == AcceptedTimes(timeouts, old(events), token) + (if accepted then [now] else [])
    {
      events := events + [Authenticate(token, now)];
      assert events[..|events| - 1] == old(events);
      if token !in store || store[token].revoked {
        return false;
      }
      var record := store[token];
      if record.idleExpiresAt <= now || record.absoluteExpiresAt <= now {
        RevokeToken(token);
        return false;
      }
      var nextIdle := Min(now + timeouts.idleMs, record.absoluteExpiresAt);
      store := store[token := record.(idleExpiresAt := nextIdle)];
      return true;
    }
  }
}
