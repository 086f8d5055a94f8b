/**
 What each statement of the refresh-token service does to the table, row by row, and what a
 logout is worth in every interleaving.
 */
module TokenStatements {
  import opened Wrappers
  import opened RefreshTokens

  const SEVEN_DAYS_MS := 604800000

  /** Everything but the rows is as before. */
  ghost predicate OnlyRows(s: State, s': State) {
    && s'.nextId == s.nextId && s'.clients == s.clients && s'.origins == s.origins
  }

  /** Exactly the active rows among `hits` are revoked, at `now`. */
  ghost predicate RevokesExactly(s: State, s': State, hits: Id -> bool, now: int) {
    && s'.rows.Keys == s.rows.Keys
    && (forall id :: id in s.rows ==>
          if hits(id) && s.rows[id].revokedAt.None?
          then s'.rows[id] == TokenRow(s.rows[id].userId, s.rows[id].tokenHash, s.rows[id].expiresAt, Some(now),
                                       s.rows[id].replacedById)
          else s'.rows[id] == s.rows[id])
  }

  /** `revoke`: the active row of the hash, and no other. */
  lemma RevokeExactly(s: State, hash: int, now: int)
    ensures var s' := Next(s, Step.Revoke(hash, now));
            && OnlyRows(s, s') && s'.lastRevokeAll == s.lastRevokeAll
            && RevokesExactly(s, s', id => id in s.rows && s.rows[id].tokenHash == hash, now)
            && (forall id :: id in s'.rows && s'.rows[id].tokenHash == hash ==> s'.rows[id].revokedAt.Some?)
  {
  }

  /** `revokeAllForUser`: the user's active rows, and no one else's. */
  lemma RevokeAllExactly(s: State, userId: string, now: int)
    ensures var s' := Next(s, Step.RevokeAllForUser(userId, now));
            && OnlyRows(s, s')
            && RevokesExactly(s, s', id => id in s.rows && s.rows[id].userId == userId, now)
            && (forall id :: id in s'.rows && s'.rows[id].userId == userId ==> s'.rows[id].revokedAt.Some?)
  {
  }

  /** `cleanupExpired`: exactly the rows that expired before `now` go, and no row changes. */
  lemma CleanupExactly(s: State, now: int)
    ensures var s' := Next(s, Step.CleanupExpired(now));
            && OnlyRows(s, s') && s'.lastRevokeAll == s.lastRevokeAll
            && (forall id :: id in s'.rows <==> id in s.rows && !(s.rows[id].expiresAt < now))
            && (forall id :: id in s'.rows ==> s'.rows[id] == s.rows[id])
  {
  }

  /** One row more than before, with seven days to live. */
  ghost predicate CreatesExactly(s: State, s': State, userId: string, hash: int, now: int) {
    && s'.nextId == s.nextId + 1
    && s'.rows.Keys == s.rows.Keys + {s.nextId}
    && s'.rows[s.nextId] == TokenRow(userId, hash, now + SEVEN_DAYS_MS, None, None)
  }

  /** `issue`: one new active row, or nothing when the hash is taken. */
  lemma IssueExactly(s: State, userId: string, hash: int, now: int)
    requires s.nextId !in s.rows
    ensures var s' := Next(s, Step.Issue(userId, hash, now));
            && s'.clients == s.clients && s'.lastRevokeAll == s.lastRevokeAll
            && if exists id :: id in s.rows && s.rows[id].tokenHash == hash then s'.rows == s.rows && s'.nextId == s.nextId
               else
                 && CreatesExactly(s, s', userId, hash, now)
                 && forall id :: id in s.rows ==> s'.rows[id] == s.rows[id]
  {
  }

  /** The read of `rotate` changes no row; it leaves its client with what the row calls for. */
  lemma ReadExactly(s: State, client: nat, hash: int, now: int, id: Id)
    requires Inv(s) && id in s.rows && s.rows[id].tokenHash == hash
    ensures var s', row := Next(s, BeginRotate(client, hash, now)), s.rows[id];
            && s'.rows == s.rows && s'.nextId == s.nextId && s'.origins == s.origins && s'.lastRevokeAll == s.lastRevokeAll
            && (forall other :: other != client ==>
                  (other in s'.clients <==> other in s.clients)
                  && (other in s.clients ==> s'.clients[other] == s.clients[other]))
            && (row.revokedAt.Some? ==> client in s'.clients && s'.clients[client] == Punishing(row.userId))
            && (row.revokedAt.None? && row.expiresAt < now ==> client !in s'.clients)
            && (row.revokedAt.None? && row.expiresAt >= now ==>
                  client in s'.clients && s'.clients[client] == Committing(id, row.userId))
  {
    hide Inv;
    FindsTheRow(s, id);
  }

  /** The transaction of `rotate`: the successor and the retired row together, or no row changes. */
  lemma CommitExactly(s: State, client: nat, newHash: int, now: int)
    requires s.nextId !in s.rows && client in s.clients && s.clients[client].Committing?
    ensures var s', id := Next(s, FinishRotate(client, newHash, now)), s.clients[client].id;
            && client !in s'.clients && s'.lastRevokeAll == s.lastRevokeAll
            && if id in s.rows && s.rows[id].revokedAt.None?
                  && !(exists other :: other in s.rows && s.rows[other].tokenHash == newHash) then
                 && CreatesExactly(s, s', s.clients[client].userId, newHash, now)
                 && s'.rows[id] == TokenRow(s.rows[id].userId, s.rows[id].tokenHash, s.rows[id].expiresAt, Some(now),
                                            Some(s.nextId))
                 && forall other :: other in s.rows && other != id ==> s'.rows[other] == s.rows[other]
               else s'.rows == s.rows && s'.nextId == s.nextId
  {
  }

  /** The answer to reuse: the user's active rows are revoked. */
  lemma PunishExactly(s: State, client: nat, newHash: int, now: int)
    requires client in s.clients && s.clients[client].Punishing?
    ensures var s', userId := Next(s, FinishRotate(client, newHash, now)), s.clients[client].userId;
            && s'.nextId == s.nextId && s'.clients == s.clients - {client}
            && RevokesExactly(s, s', id => id in s.rows && s.rows[id].userId == userId, now)
  {
  }

  // ----- Logout -----

  lemma LoggedOut(steps: seq<Step>, hash: int, now: int, id: Id)
    requires id in Run(steps).rows && Run(steps).rows[id].tokenHash == hash
    ensures Retired(Run(steps + [Step.Revoke(hash, now)]), id)
    ensures id in Run(steps + [Step.Revoke(hash, now)]).rows
  {
    hide Inv;
    var all := steps + [Step.Revoke(hash, now)];
    assert all[..|all| - 1] == steps;
    RevokeExactly(Run(steps), hash, now);
    RotationLineage(steps);
    KnownRows(Run(steps), id);
  }

  lemma KnownRows(s: State, id: Id)
    requires Inv(s) && id in s.rows
    ensures id in s.origins
  {
  }

  /**
   Once a token has been revoked by `revoke`, no transaction ever rotates it, whether its read
   came before the revocation or after it; and while its row is there, presenting it again is
   answered as reuse, so that call commits nothing.
   */
  lemma LogoutIsFinal(steps: seq<Step>, hash: int, now: int, more: seq<Step>, id: Id)
    requires id in Run(steps).rows && Run(steps).rows[id].tokenHash == hash
    ensures var s := Run(steps + [Step.Revoke(hash, now)] + more);
            && (forall finish :: Rotates(s, finish) ==> s.clients[finish.client].id != id)
            && (forall client, at :: id in s.rows ==>
                  var read := Next(s, BeginRotate(client, hash, at));
                  client in read.clients && read.clients[client] == Punishing(s.rows[id].userId))
  {
    hide Inv, Next, Retired;
    var out := steps + [Step.Revoke(hash, now)];
    var s := Run(out + more);
    LoggedOut(steps, hash, now, id);
    RevokedForever(out, more, id);
    RotationLineage(out + more);
    TokenPersists(steps, [Step.Revoke(hash, now)] + more, id);
    assert steps + ([Step.Revoke(hash, now)] + more) == out + more;
    forall finish | Rotates(s, finish)
      ensures s.clients[finish.client].id != id
    {
      RetiredIsInactive(s, id);
    }
    if id in s.rows {
      RetiredIsInactive(s, id);
      forall client, at
        ensures var read := Next(s, BeginRotate(client, hash, at));
                client in read.clients && read.clients[client] == Punishing(s.rows[id].userId)
      {
        ReadExactly(s, client, hash, at, id);
      }
    }
  }

  lemma RetiredIsInactive(s: State, id: Id)
    requires Retired(s, id)
    ensures !Active(s, id)
  {
  }
}
