/** packages/db/src/verus-link-repository.ts: wallet challenges and identity links, one transaction at a time. */
module WalletLinks {
  import opened Wrappers

  type Id = string
  type Account = string
  type Identity = string
  type Digest = string
  type Millis = int
  type LinkKey = (Account, Identity)

  datatype ChallengeState = Presented | Consumed | Expired | Cancelled
  datatype LinkState = Active | RevalidationRequired | Unlinked

  datatype ChallengeRow = ChallengeRow(
    account: Account,
    state: ChallengeState,
    expiresAt: Millis,
    responseDigest: Option<Digest>,
    linkedIdentity: Option<Identity>,
    version: nat)

  datatype LinkRow = LinkRow(state: LinkState, proofDigest: Digest, version: nat)

  datatype Tables = Tables(challenges: map<Id, ChallengeRow>, links: map<LinkKey, LinkRow>)

  datatype Completion = Completed(replayed: bool) | ChallengeExpired | Conflict

  function CreateChallenge(db: Tables, id: Id, account: Account, issuedAt: Millis, expiresAt: Millis): Option<Tables> {
    if expiresAt <= issuedAt || id in db.challenges then None
    else Some(db.(challenges := db.challenges[id := ChallengeRow(account, Presented, expiresAt, None, None, 1)]))
  }

  function ExpireChallenge(db: Tables, id: Id): Tables
    requires id in db.challenges
  {
    var row := db.challenges[id];
    db.(challenges := db.challenges[id := row.(state := Expired, version := row.version + 1)])
  }

  function LinkAfter(db: Tables, key: LinkKey, digest: Digest): LinkRow {
    if key in db.links then LinkRow(Active, digest, db.links[key].version + 1) else LinkRow(Active, digest, 1)
  }

  function CompleteChallenge(db: Tables, id: Id, digest: Digest, identity: Identity, at: Millis): (Tables, Completion) {
    if id !in db.challenges then (db, Conflict)
    else
      var row := db.challenges[id];
      match row.state
      case Consumed =>
        if row.responseDigest != Some(digest) || row.linkedIdentity != Some(identity) || (row.account, identity) !in db.links
        then (db, Conflict)
        else (db, Completed(true))
      case Presented =>
        if at >= row.expiresAt then (ExpireChallenge(db, id), ChallengeExpired)
        else
          var key := (row.account, identity);
          var consumed := row.(state := Consumed, responseDigest := Some(digest), linkedIdentity := Some(identity),
                               version := row.version + 1);
          (Tables(db.challenges[id := consumed], db.links[key := LinkAfter(db, key, digest)]), Completed(false))
      case _ => (db, Conflict)
  }

  /** The state that a poll reports; `None` if the challenge is not this account's. */
  function PollChallenge(db: Tables, account: Account, id: Id, now: Millis): (Tables, Option<ChallengeState>) {
    if id !in db.challenges || db.challenges[id].account != account then (db, None)
    else if db.challenges[id].state == Presented && now >= db.challenges[id].expiresAt then
      (ExpireChallenge(db, id), Some(Expired))
    else (db, Some(db.challenges[id].state))
  }

  /** `None` is a conflict; cancelling twice is allowed, and cancelling too late expires the challenge. */
  function CancelChallenge(db: Tables, account: Account, id: Id, at: Millis): Option<Tables> {
    if id !in db.challenges || db.challenges[id].account != account then None
    else
      var row := db.challenges[id];
      match row.state
      case Cancelled => Some(db)
      case Presented =>
        if at >= row.expiresAt then Some(ExpireChallenge(db, id))
        else Some(db.(challenges := db.challenges[id := row.(state := Cancelled, version := row.version + 1)]))
      case _ => None
  }

  function Unlink(db: Tables, key: LinkKey): Option<Tables> {
    if key !in db.links || db.links[key].state == Unlinked then None
    else
      var row := db.links[key];
      Some(db.(links := db.links[key := row.(state := Unlinked, version := row.version + 1)]))
  }

  function Revalidated(row: LinkRow): LinkRow {
    row.(state := RevalidationRequired, version := row.version + 1)
  }

  /** Every active link of the identity, whatever its account. */
  function RequireRevalidation(db: Tables, identity: Identity): Tables {
    db.(links := map key | key in db.links ::
          if key.1 == identity && db.links[key].state == Active then Revalidated(db.links[key]) else db.links[key])
  }

  // ---------------------------------------------------------------- the class

  class VerusLinkRepository {
    var challenges: map<Id, ChallengeRow>
    var links: map<LinkKey, LinkRow>

    constructor ()
      ensures Contents() == Tables(map[], map[])
    {
      challenges, links := map[], map[];
    }

    function Contents(): Tables
      reads this
    {
      Tables(challenges, links)
    }

    method SetState(id: Id, state: ChallengeState)
      requires id in challenges
      modifies this`challenges
      ensures challenges == old(challenges)[id :=
                old(challenges)[id].(state := state, version := old(challenges)[id].version + 1)]
    {
      var row := challenges[id];
      challenges := challenges[id := row.(state := state, version := row.version + 1)];
    }

    method Create(id: Id, account: Account, issuedAt: Millis, expiresAt: Millis) returns (created: bool)
      modifies this`challenges
      ensures var after := CreateChallenge(old(Contents()), id, account, issuedAt, expiresAt);
              created == after.Some? && Contents() == (if created then after.value else old(Contents()))
    {
      if expiresAt <= issuedAt || id in challenges {
        return false;
      }
      challenges := challenges[id := ChallengeRow(account, Presented, expiresAt, None, None, 1)];
      return true;
    }

    method Complete(id: Id, digest: Digest, identity: Identity, at: Millis) returns (r: Completion)
      modifies this
      ensures (Contents(), r) == CompleteChallenge(old(Contents()), id, digest, identity, at)
    {
      if id !in challenges {
        return Conflict;
      }
      var row := challenges[id];
      var key := (row.account, identity);
      if row.state == Consumed {
        if row.responseDigest != Some(digest) || row.linkedIdentity != Some(identity) || key !in links {
          return Conflict;
        }
        return Completed(true);
      }
      if row.state != Presented {
        return Conflict;
      }
      if at >= row.expiresAt {
        SetState(id, Expired);
        return ChallengeExpired;
      }
      if key in links {
        var link := links[key];
        links := links[key := LinkRow(Active, digest, link.version + 1)];
      } else {
        links := links[key := LinkRow(Active, digest, 1)];
      }
      challenges := challenges[id := row.(state := Consumed, responseDigest := Some(digest),
                                          linkedIdentity := Some(identity), version := row.version + 1)];
      return Completed(false);
    }

    method Poll(account: Account, id: Id, now: Millis) returns (state: Option<ChallengeState>)
      modifies this`challenges
      ensures (Contents(), state) == PollChallenge(old(Contents()), account, id, now)
    {
      if id !in challenges || challenges[id].account != account {
        return None;
      }
      if challenges[id].state == Presented && now >= challenges[id].expiresAt {
        SetState(id, Expired);
      }
      return Some(challenges[id].state);
    }

    method Cancel(account: Account, id: Id, at: Millis) returns (ok: bool)
      modifies this`challenges
      ensures var after := CancelChallenge(old(Contents()), account, id, at);
              ok == after.Some? && Contents() == (if ok then after.value else old(Contents()))
    {
      if id !in challenges || challenges[id].account != account {
        return false;
      }
      var row := challenges[id];
      if row.state == Cancelled {
        return true;
      }
      if row.state != Presented {
        return false;
      }
      if at >= row.expiresAt {
        SetState(id, Expired);
      } else {
        SetState(id, Cancelled);
      }
      return true;
    }

    method UnlinkIdentity(key: LinkKey) returns (ok: bool)
      modifies this`links
      ensures var after := Unlink(old(Contents()), key);
              ok == after.Some? && Contents() == (if ok then after.value else old(Contents()))
    {
      if key !in links || links[key].state == Unlinked {
        return false;
      }
      var row := links[key];
      links := links[key := row.(state := Unlinked, version := row.version + 1)];
      return true;
    }

    /** Loops over the identity's active links, one update each; the count is the number of rows. */
    method Revalidate(identity: Identity) returns (count: nat)
      modifies this`links
      ensures Contents() == RequireRevalidation(old(Contents()), identity)
      ensures count == |set key | key in old(links) && key.1 == identity && old(links)[key].state == Active|
    {
      var selected := set key | key in links && key.1 == identity && links[key].state == Active;
      count := |selected|;
      var rest := selected;
      while rest != {}
        invariant rest <= selected && links.Keys == old(links).Keys
        invariant forall key | key in links ::
                    links[key] == (if key in selected - rest then Revalidated(old(links)[key]) else old(links)[key])
        decreases rest
      {
        var key :| key in rest;
        rest := rest - {key};
        var row := links[key];
        links := links[key := row.(state := RevalidationRequired, version := row.version + 1)];
      }
      assert forall key | key in old(links) ::
               key in selected <==> key.1 == identity && old(links)[key].state == Active;
      assert links == RequireRevalidation(old(Contents()), identity).links;
    }
  }
}
