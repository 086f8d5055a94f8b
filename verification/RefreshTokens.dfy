/**
 Refresh-token rotation as a concurrent protocol. Every database statement is one atomic
 step; `rotate` is two: it reads the presented row, and later either commits a replacement
 in one transaction or, having seen a revoked row, revokes the whole family. Steps of any
 number of clients interleave freely.
 */
module RefreshTokens {
  import opened Wrappers

  const REFRESH_TTL_MS := 7 * 24 * 60 * 60 * 1000

  type Id = nat

  datatype TokenRow = TokenRow(
    userId: string,
    tokenHash: int,
    expiresAt: int,
    revokedAt: Option<int>,
    replacedById: Option<Id>)

  /** What a client's `rotate` still has to do after its read step. */
  datatype Phase = Committing(id: Id, userId: string) | Punishing(userId: string)

  /** How a token came to be: `at` is the position of the step in the run. */
  datatype Origin = Issued(userId: string, at: nat) | RotatedFrom(parent: Id, at: nat)

  /** The table, the clients between their two steps, and the history of the run so far. */
  datatype State = State(
    rows: map<Id, TokenRow>,
    nextId: Id,
    clients: map<nat, Phase>,
    origins: map<Id, Origin>,
    lastRevokeAll: map<string, nat>,
    clock: nat)

  datatype Step =
    | Issue(userId: string, hash: int, now: int)
    | BeginRotate(client: nat, hash: int, now: int)
    | FinishRotate(client: nat, newHash: int, now: int)
    | Revoke(hash: int, now: int)
    | RevokeAllForUser(userId: string, now: int)
    | CleanupExpired(now: int)

  const EMPTY := State(map[], 0, map[], map[], map[], 0)

  // ----- The statements -----

  predicate HashTaken(rows: map<Id, TokenRow>, hash: int) {
    exists id :: id in rows && rows[id].tokenHash == hash
  }

  ghost function FindByHash(rows: map<Id, TokenRow>, hash: int): (r: Option<Id>)
    ensures r.Some? ==> r.value in rows && rows[r.value].tokenHash == hash
    ensures r.None? <==> !HashTaken(rows, hash)
  {
    if HashTaken(rows, hash) then
      var id :| id in rows && rows[id].tokenHash == hash;
      Some(id)
    else None
  }

  function RevokedWhere(rows: map<Id, TokenRow>, hits: set<Id>, now: int): map<Id, TokenRow> {
    map id | id in rows :: if id in hits && rows[id].revokedAt.None? then rows[id].(revokedAt := Some(now)) else rows[id]
  }

  function WithHash(rows: map<Id, TokenRow>, hash: int): set<Id> {
    set id | id in rows && rows[id].tokenHash == hash
  }

  function OfUser(rows: map<Id, TokenRow>, userId: string): set<Id> {
    set id | id in rows && rows[id].userId == userId
  }

  function Unexpired(rows: map<Id, TokenRow>, now: int): map<Id, TokenRow> {
    map id | id in rows && rows[id].expiresAt >= now :: rows[id]
  }

  /** `create`; the unique hash column refuses a duplicate. */
  function Created(s: State, userId: string, hash: int, now: int, origin: Origin): State {
    s.(rows := s.rows[s.nextId := TokenRow(userId, hash, now + REFRESH_TTL_MS, None, None)],
    nextId := s.nextId + 1,
    origins := s.origins[s.nextId := origin])
  }

  function AllRevoked(s: State, userId: string, now: int): State {
    s.(rows := RevokedWhere(s.rows, OfUser(s.rows, userId), now),
    lastRevokeAll := s.lastRevokeAll[userId := s.clock])
  }

  /** The rotation transaction: create the successor and revoke the old row if it is still active, or nothing. */
  function Commit(s: State, id: Id, userId: string, newHash: int, now: int): State {
    if HashTaken(s.rows, newHash) || id !in s.rows || s.rows[id].revokedAt.Some? then s
    else
      var created := Created(s, userId, newHash, now, RotatedFrom(id, s.clock));
      created.(rows := created.rows[id := s.rows[id].(revokedAt := Some(now), replacedById := Some(s.nextId))])
  }

  /** What the read step of `rotate` decides from the row it found. */
  function NextPhase(row: TokenRow, id: Id, now: int): Option<Phase> {
    if row.revokedAt.Some? then Some(Punishing(row.userId))
    else if row.expiresAt < now then None
    else Some(Committing(id, row.userId))
  }

  ghost function Apply(s: State, step: Step): State {
    match step
    case Issue(userId, hash, now) =>
      if HashTaken(s.rows, hash) then s else Created(s, userId, hash, now, Issued(userId, s.clock))
    case BeginRotate(client, hash, now) =>
      var id := FindByHash(s.rows, hash);
      var phase := if id.Some? then NextPhase(s.rows[id.value], id.value, now) else None;
      s.(clients := if phase.Some? then s.clients[client := phase.value] else s.clients - {client})
    case FinishRotate(client, newHash, now) =>
      if client !in s.clients then s
      else
        var rest := s.(clients := s.clients - {client});
        (match s.clients[client]
         case Punishing(userId) => AllRevoked(rest, userId, now)
         case Committing(id, userId) => Commit(rest, id, userId, newHash, now))
    case Revoke(hash, now) => s.(rows := RevokedWhere(s.rows, WithHash(s.rows, hash), now))
    case RevokeAllForUser(userId, now) => AllRevoked(s, userId, now)
    case CleanupExpired(now) => s.(rows := Unexpired(s.rows, now))
  }

  /** One step of the run; the clock counts the steps. */
  ghost function Next(s: State, step: Step): State {
    Apply(s, step).(clock := s.clock + 1)
  }

  ghost function Run(steps: seq<Step>): State {
    if steps == [] then EMPTY else Next(Run(steps[..|steps| - 1]), steps[|steps| - 1])
  }

  // ----- Lineage -----

  predicate Active(s: State, id: Id) {
    id in s.rows && s.rows[id].revokedAt.None?
  }

  function ActiveOf(s: State, userId: string): set<Id> {
    set id | id in s.rows && s.rows[id].revokedAt.None? && s.rows[id].userId == userId
  }

  /** Parents are created before their successors. */
  ghost predicate Grounded(origins: map<Id, Origin>) {
    forall id :: id in origins && origins[id].RotatedFrom? ==> origins[id].parent < id && origins[id].parent in origins
  }

  /** The issue a token descends from. */
  ghost function Root(origins: map<Id, Origin>, id: Id): (r: Origin)
    requires Grounded(origins) && id in origins
    ensures r.Issued?
    decreases id
  {
    match origins[id]
    case Issued(_, _) => origins[id]
    case RotatedFrom(parent, _) => Root(origins, parent)
  }

  /** No issue of the token's family precedes the user's last revocation of everything. */
  ghost predicate DescendsFromLiveIssue(s: State, id: Id)
    requires Grounded(s.origins) && id in s.origins && id in s.rows
  {
    var root, user := Root(s.origins, id), s.rows[id].userId;
    root.userId == user && (user in s.lastRevokeAll ==> s.lastRevokeAll[user] < root.at)
  }

  /** No two rows share a hash: the unique column. */
  ghost predicate UniqueHashes(rows: map<Id, TokenRow>) {
    forall a, b :: a in rows && b in rows && rows[a].tokenHash == rows[b].tokenHash ==> a == b
  }

  ghost predicate Inv(s: State) {
    && Grounded(s.origins)
    && s.rows.Keys <= s.origins.Keys
    && (forall id :: id in s.origins ==> id < s.nextId)
    && (forall u :: u in s.lastRevokeAll ==> s.lastRevokeAll[u] < s.clock)
    && (forall id :: id in s.origins && s.origins[id].RotatedFrom? ==> !Active(s, s.origins[id].parent))
    && (forall id :: Active(s, id) ==> DescendsFromLiveIssue(s, id))
    && (forall c :: c in s.clients && s.clients[c].Committing? ==>
          var id := s.clients[c].id;
          id in s.origins && (id in s.rows ==> s.rows[id].userId == s.clients[c].userId))
    && OneSuccessor(s)
    && UniqueHashes(s.rows)
  }

  /** Each token has at most one successor. */
  ghost predicate OneSuccessor(s: State) {
    forall a, b :: a in s.origins && b in s.origins && a != b && s.origins[a].RotatedFrom? && s.origins[b].RotatedFrom? ==>
      s.origins[a].parent != s.origins[b].parent
  }

  lemma {:induction false} RootUnchanged(origins: map<Id, Origin>, newId: Id, origin: Origin, id: Id)
    requires Grounded(origins) && id in origins && newId !in origins
    requires Grounded(origins[newId := origin])
    ensures Root(origins[newId := origin], id) == Root(origins, id)
    decreases id
  {
    if origins[id].RotatedFrom? {
      RootUnchanged(origins, newId, origin, origins[id].parent);
    }
  }

  // ----- The shape of a step -----

  /** The step issues a token. */
  ghost predicate Issues(s: State, step: Step) {
    step.Issue? && !HashTaken(s.rows, step.hash)
  }

  /** The step commits a rotation. */
  ghost predicate Rotates(s: State, step: Step) {
    && step.FinishRotate? && step.client in s.clients && s.clients[step.client].Committing?
    && Active(s, s.clients[step.client].id) && !HashTaken(s.rows, step.newHash)
  }

  /** The user whose tokens the step revokes, if it is that kind of step. */
  function Revoking(s: State, step: Step): Option<string> {
    match step
    case RevokeAllForUser(userId, _) => Some(userId)
    case FinishRotate(client, _, _) =>
      if client in s.clients && s.clients[client].Punishing? then Some(s.clients[client].userId) else None
    case _ => None
  }

  /** The clients of `s'` were already there, or have just read a row of `s`. */
  ghost predicate ClientsFrom(s: State, s': State) {
    forall c :: c in s'.clients && s'.clients[c].Committing? ==>
      || (c in s.clients && s'.clients[c] == s.clients[c])
      || (s'.clients[c].id in s.rows && s.rows[s'.clients[c].id].userId == s'.clients[c].userId)
  }

  /** What no statement ever changes in a row. */
  predicate SameToken(row: TokenRow, row': TokenRow) {
    row'.userId == row.userId && row'.tokenHash == row.tokenHash && row'.expiresAt == row.expiresAt
  }

  /** Rows only disappear or get revoked: nothing new, nothing re-activated. */
  ghost predicate Shrinks(s: State, s': State) {
    && s'.origins == s.origins && s'.nextId == s.nextId && s'.clock == s.clock + 1 && ClientsFrom(s, s')
    && s'.rows.Keys <= s.rows.Keys
    && (forall id :: id in s'.rows ==> SameToken(s.rows[id], s'.rows[id]))
    && (forall id :: Active(s', id) ==> Active(s, id))
  }

  /** One active row more, of `userId`; every other row is as before, save `replaced`, which is no longer active. */
  ghost predicate Adds(s: State, s': State, userId: string, origin: Origin, replaced: Option<Id>) {
    && s'.nextId == s.nextId + 1 && s'.clock == s.clock + 1 && s'.lastRevokeAll == s.lastRevokeAll
    && s'.origins == s.origins[s.nextId := origin] && origin.at == s.clock && ClientsFrom(s, s')
    && s'.rows.Keys == s.rows.Keys + {s.nextId}
    && Active(s', s.nextId) && s'.rows[s.nextId].userId == userId
    && !HashTaken(s.rows, s'.rows[s.nextId].tokenHash)
    && (forall id :: id in s.rows ==> SameToken(s.rows[id], s'.rows[id]))
    && (forall id :: id in s.rows ==> (Active(s', id) <==> Active(s, id) && Some(id) != replaced))
  }

  lemma IssueShape(s: State, step: Step)
    requires s.nextId !in s.rows && Issues(s, step)
    ensures Adds(s, Next(s, step), step.userId, Issued(step.userId, s.clock), None)
  {
  }

  lemma RotateShape(s: State, step: Step)
    requires s.nextId !in s.rows && Rotates(s, step)
    ensures var phase := s.clients[step.client];
            && Adds(s, Next(s, step), phase.userId, RotatedFrom(phase.id, s.clock), Some(phase.id))
            && Next(s, step).rows[phase.id].replacedById == Some(s.nextId)
  {
  }

  lemma RevokeAllShape(s: State, step: Step)
    requires Revoking(s, step).Some?
    ensures var userId := Revoking(s, step).value;
            && Shrinks(s, Next(s, step)) && ActiveOf(Next(s, step), userId) == {}
            && Next(s, step).lastRevokeAll == s.lastRevokeAll[userId := s.clock]
  {
  }

  lemma OtherShape(s: State, step: Step)
    requires !Issues(s, step) && !Rotates(s, step) && Revoking(s, step).None?
    ensures Shrinks(s, Next(s, step)) && Next(s, step).lastRevokeAll == s.lastRevokeAll
  {
  }

  // ----- Every step keeps the lineage -----

  lemma ShrinkingKeepsInv(s: State, s': State, revoked: Option<string>)
    requires Inv(s) && Shrinks(s, s')
    requires revoked.None? ==> s'.lastRevokeAll == s.lastRevokeAll
    requires revoked.Some? ==>
               s'.lastRevokeAll == s.lastRevokeAll[revoked.value := s.clock] && ActiveOf(s', revoked.value) == {}
    ensures Inv(s')
  {
    forall id | Active(s', id)
      ensures DescendsFromLiveIssue(s', id)
    {
      assert DescendsFromLiveIssue(s, id);
      assert revoked.Some? ==> id !in ActiveOf(s', revoked.value);
    }
  }

  lemma RootsUnchanged(origins: map<Id, Origin>, newId: Id, origin: Origin)
    requires Grounded(origins) && newId !in origins
    requires Grounded(origins[newId := origin])
    ensures forall id :: id in origins ==> Root(origins[newId := origin], id) == Root(origins, id)
  {
    forall id | id in origins
      ensures Root(origins[newId := origin], id) == Root(origins, id)
    {
      RootUnchanged(origins, newId, origin, id);
    }
  }

  /** A new row whose root is newer than its user's last revocation joins the lineage. */
  lemma AddingKeepsDescent(s: State, s': State, userId: string, origin: Origin, replaced: Option<Id>)
    requires Inv(s) && Adds(s, s', userId, origin, replaced)
    requires origin.Issued? ==> origin.userId == userId
    requires origin.RotatedFrom? ==> Active(s, origin.parent) && s.rows[origin.parent].userId == userId
    ensures Grounded(s'.origins)
    ensures forall id :: Active(s', id) ==> id in s'.origins && DescendsFromLiveIssue(s', id)
  {
    RootsUnchanged(s.origins, s.nextId, origin);
    forall id | Active(s', id)
      ensures id in s'.origins && DescendsFromLiveIssue(s', id)
    {
      if id != s.nextId {
        assert DescendsFromLiveIssue(s, id);
      } else if origin.RotatedFrom? {
        assert DescendsFromLiveIssue(s, origin.parent);
      }
    }
  }

  lemma AddingKeepsUnique(s: State, s': State, userId: string, origin: Origin, replaced: Option<Id>)
    requires UniqueHashes(s.rows) && Adds(s, s', userId, origin, replaced)
    ensures UniqueHashes(s'.rows)
  {
    forall a, b | a in s'.rows && b in s'.rows && s'.rows[a].tokenHash == s'.rows[b].tokenHash
      ensures a == b
    {
      assert a in s.rows ==> SameToken(s.rows[a], s'.rows[a]);
      assert b in s.rows ==> SameToken(s.rows[b], s'.rows[b]);
    }
  }

  lemma AddingKeepsInv(s: State, s': State, userId: string, origin: Origin, replaced: Option<Id>)
    requires Inv(s) && Adds(s, s', userId, origin, replaced)
    requires origin.Issued? ==> origin.userId == userId
    requires origin.RotatedFrom? ==>
               Active(s, origin.parent) && s.rows[origin.parent].userId == userId && replaced == Some(origin.parent)
    ensures Inv(s')
  {
    hide UniqueHashes, Grounded, DescendsFromLiveIssue;
    AddingKeepsUnique(s, s', userId, origin, replaced);
    AddingKeepsDescent(s, s', userId, origin, replaced);
  }

  lemma NextKeepsInv(s: State, step: Step)
    requires Inv(s)
    ensures Inv(Next(s, step))
  {
    if Issues(s, step) {
      IssueShape(s, step);
      AddingKeepsInv(s, Next(s, step), step.userId, Issued(step.userId, s.clock), None);
    } else if Rotates(s, step) {
      var phase := s.clients[step.client];
      RotateShape(s, step);
      AddingKeepsInv(s, Next(s, step), phase.userId, RotatedFrom(phase.id, s.clock), Some(phase.id));
    } else if Revoking(s, step).Some? {
      RevokeAllShape(s, step);
      ShrinkingKeepsInv(s, Next(s, step), Revoking(s, step));
    } else {
      OtherShape(s, step);
      ShrinkingKeepsInv(s, Next(s, step), None);
    }
  }

  // ----- The protocol's guarantees, in every interleaving -----

  /**
   Each token gets at most one successor, and every active token descends from an issue made
   after its user's last revocation.
   */
  lemma {:induction false} RotationLineage(steps: seq<Step>)
    ensures Inv(Run(steps))
  {
    if steps != [] {
      RotationLineage(steps[..|steps| - 1]);
      NextKeepsInv(Run(steps[..|steps| - 1]), steps[|steps| - 1]);
    }
  }

  /** Known and inactive: revoked, or deleted. */
  ghost predicate Retired(s: State, id: Id) {
    id in s.origins && !Active(s, id)
  }

  lemma StepKeepsRetired(s: State, step: Step, id: Id)
    requires Inv(s) && Retired(s, id)
    ensures Retired(Next(s, step), id)
  {
    if Issues(s, step) {
      IssueShape(s, step);
    } else if Rotates(s, step) {
      RotateShape(s, step);
    } else if Revoking(s, step).Some? {
      RevokeAllShape(s, step);
    } else {
      OtherShape(s, step);
    }
  }

  /** A revoked (or deleted) token never becomes active again, whatever follows. */
  lemma {:induction false} RevokedForever(steps: seq<Step>, more: seq<Step>, id: Id)
    requires Retired(Run(steps), id)
    ensures Retired(Run(steps + more), id)
  {
    if more == [] {
      assert steps + more == steps;
    } else {
      var init, last := more[..|more| - 1], more[|more| - 1];
      assert (steps + more)[..|steps + more| - 1] == steps + init;
      RevokedForever(steps, init, id);
      RotationLineage(steps + init);
      StepKeepsRetired(Run(steps + init), last, id);
    }
  }

  lemma AddingChanges(s: State, s': State, userId: string, origin: Origin, replaced: Option<Id>, user: string)
    requires Adds(s, s', userId, origin, replaced) && s.nextId !in s.rows
    requires replaced.Some? ==> Active(s, replaced.value) && s.rows[replaced.value].userId == userId
    ensures user != userId ==> ActiveOf(s', user) == ActiveOf(s, user)
    ensures user == userId && replaced.None? ==> ActiveOf(s', user) == ActiveOf(s, user) + {s.nextId}
    ensures user == userId && replaced.Some? ==> ActiveOf(s', user) == ActiveOf(s, user) - {replaced.value} + {s.nextId}
  {
    forall id
      ensures id in ActiveOf(s', user) <==>
                if id == s.nextId then user == userId else id in ActiveOf(s, user) && Some(id) != replaced
    {
      assert id in s.rows ==> (Active(s', id) <==> Active(s, id) && Some(id) != replaced);
    }
  }

  lemma AddingCounts(s: State, s': State, userId: string, origin: Origin, replaced: Option<Id>, user: string)
    requires Adds(s, s', userId, origin, replaced) && s.nextId !in s.rows
    requires replaced.Some? ==> Active(s, replaced.value) && s.rows[replaced.value].userId == userId
    ensures |ActiveOf(s', user)| == |ActiveOf(s, user)| + (if user == userId && replaced.None? then 1 else 0)
  {
    AddingChanges(s, s', userId, origin, replaced, user);
    assert s.nextId !in ActiveOf(s, user);
    assert user == userId && replaced.Some? ==> replaced.value in ActiveOf(s, user);
  }

  lemma ShrinkingCounts(s: State, s': State, user: string)
    requires Shrinks(s, s')
    ensures |ActiveOf(s', user)| <= |ActiveOf(s, user)|
  {
    forall id | id in ActiveOf(s', user)
      ensures id in ActiveOf(s, user)
    {
      assert Active(s', id) && Active(s, id);
    }
    SubsetSize(ActiveOf(s', user), ActiveOf(s, user));
  }

  /**
   Only `issue` raises a user's number of active tokens, and by one; a committed rotation
   keeps every user's number; nothing else raises it.
   */
  lemma OnlyIssueAddsActive(s: State, step: Step, user: string)
    requires Inv(s)
    ensures Issues(s, step) ==>
              |ActiveOf(Next(s, step), user)| == |ActiveOf(s, user)| + (if user == step.userId then 1 else 0)
    ensures Rotates(s, step) ==> |ActiveOf(Next(s, step), user)| == |ActiveOf(s, user)|
    ensures !Issues(s, step) ==> |ActiveOf(Next(s, step), user)| <= |ActiveOf(s, user)|
  {
    if Issues(s, step) {
      IssueShape(s, step);
      AddingCounts(s, Next(s, step), step.userId, Issued(step.userId, s.clock), None, user);
    } else if Rotates(s, step) {
      var phase := s.clients[step.client];
      RotateShape(s, step);
      AddingCounts(s, Next(s, step), phase.userId, RotatedFrom(phase.id, s.clock), Some(phase.id), user);
    } else if Revoking(s, step).Some? {
      RevokeAllShape(s, step);
      ShrinkingCounts(s, Next(s, step), user);
    } else {
      OtherShape(s, step);
      ShrinkingCounts(s, Next(s, step), user);
    }
  }

  lemma {:induction false} SubsetSize(a: set<Id>, b: set<Id>)
    requires a <= b
    ensures |a| <= |b|
  {
    if a != {} {
      var x :| x in a;
      SubsetSize(a - {x}, b - {x});
    }
  }

  // ----- Reuse of a revoked token -----

  /** The step is one of the client's own. */
  predicate IsBy(step: Step, client: nat) {
    match step
    case BeginRotate(c, _, _) => c == client
    case FinishRotate(c, _, _) => c == client
    case _ => false
  }

  lemma PhaseStepPersists(s: State, step: Step, client: nat)
    requires !IsBy(step, client)
    ensures client in Next(s, step).clients <==> client in s.clients
    ensures client in s.clients ==> Next(s, step).clients[client] == s.clients[client]
  {
  }

  /** What a suspended call still has to do is not changed by anyone else's steps. */
  lemma {:induction false} PhasePersists(steps: seq<Step>, more: seq<Step>, client: nat)
    requires forall i :: 0 <= i < |more| ==> !IsBy(more[i], client)
    ensures client in Run(steps + more).clients <==> client in Run(steps).clients
    ensures client in Run(steps).clients ==> Run(steps + more).clients[client] == Run(steps).clients[client]
  {
    if more == [] {
      assert steps + more == steps;
    } else {
      hide Next;
      var init, last := more[..|more| - 1], more[|more| - 1];
      assert (steps + more)[..|steps + more| - 1] == steps + init;
      assert forall i :: 0 <= i < |init| ==> init[i] == more[i];
      PhasePersists(steps, init, client);
      PhaseStepPersists(Run(steps + init), last, client);
    }
  }

  lemma FindsTheRow(s: State, id: Id)
    requires Inv(s) && id in s.rows
    ensures FindByHash(s.rows, s.rows[id].tokenHash) == Some(id)
  {
    hide Inv, UniqueHashes;
    UniqueInInv(s, FindByHash(s.rows, s.rows[id].tokenHash).value, id);
  }

  lemma UniqueInInv(s: State, a: Id, b: Id)
    requires Inv(s) && a in s.rows && b in s.rows && s.rows[a].tokenHash == s.rows[b].tokenHash
    ensures a == b
  {
  }

  /** What the read step leaves its client with, for the row of the presented hash. */
  lemma ReadDecides(steps: seq<Step>, read: Step, id: Id)
    requires read.BeginRotate? && id in Run(steps).rows && Run(steps).rows[id].tokenHash == read.hash
    ensures var phase := NextPhase(Run(steps).rows[id], id, read.now);
            && Run(steps + [read]).clients
               == (if phase.Some? then Run(steps).clients[read.client := phase.value] else Run(steps).clients - {read.client})
  {
    hide Inv;
    RotationLineage(steps);
    FindsTheRow(Run(steps), id);
    assert (steps + [read])[..|steps + [read]| - 1] == steps;
  }

  /**
   Presenting a revoked token costs its user every active token, whatever other clients do
   between the read that noticed and the revocation that answers.
   */
  lemma ReuseRevokesEverything(steps: seq<Step>, read: Step, between: seq<Step>, finish: Step, id: Id)
    requires read.BeginRotate? && id in Run(steps).rows && Run(steps).rows[id].tokenHash == read.hash
    requires Run(steps).rows[id].revokedAt.Some?
    requires forall i :: 0 <= i < |between| ==> !IsBy(between[i], read.client)
    requires finish.FinishRotate? && finish.client == read.client
    ensures ActiveOf(Run(steps + [read] + between + [finish]), Run(steps).rows[id].userId) == {}
  {
    var before := steps + [read] + between;
    ReadDecides(steps, read, id);
    PhasePersists(steps + [read], between, read.client);
    assert (before + [finish])[..|before + [finish]| - 1] == before;
    RevokeAllShape(Run(before), finish);
  }

  // ----- When a rotation commits -----

  lemma StepKeepsToken(s: State, step: Step, id: Id)
    requires Inv(s) && id in s.origins
    ensures id in Next(s, step).origins
    ensures id in Next(s, step).rows ==> id in s.rows && SameToken(s.rows[id], Next(s, step).rows[id])
  {
    if Issues(s, step) {
      IssueShape(s, step);
    } else if Rotates(s, step) {
      RotateShape(s, step);
    } else if Revoking(s, step).Some? {
      RevokeAllShape(s, step);
    } else {
      OtherShape(s, step);
    }
  }

  /** A row that is still there later is the same token: its hash, user and expiry never change. */
  lemma {:induction false} TokenPersists(steps: seq<Step>, more: seq<Step>, id: Id)
    requires id in Run(steps).rows
    ensures id in Run(steps + more).origins
    ensures id in Run(steps + more).rows ==> SameToken(Run(steps).rows[id], Run(steps + more).rows[id])
  {
    hide Next;
    if more == [] {
      assert steps + more == steps;
      RotationLineage(steps);
    } else {
      var init, last := more[..|more| - 1], more[|more| - 1];
      assert (steps + more)[..|steps + more| - 1] == steps + init;
      TokenPersists(steps, init, id);
      RotationLineage(steps + init);
      StepKeepsToken(Run(steps + init), last, id);
    }
  }

  /**
   Whatever others do between the two halves of `rotate`, the second commits exactly when the
   token was unrevoked and unexpired at the read and is still there and unrevoked at the
   commit, and the new hash is free. The time of the commit plays no part: it renews a token
   that has expired since the read exactly when, besides, it runs after the expiry.
   */
  lemma RotationCommitsExactlyWhen(steps: seq<Step>, read: Step, between: seq<Step>, finish: Step, id: Id)
    requires read.BeginRotate? && id in Run(steps).rows && Run(steps).rows[id].tokenHash == read.hash
    requires forall i :: 0 <= i < |between| ==> !IsBy(between[i], read.client)
    requires finish.FinishRotate? && finish.client == read.client
    ensures var row, s := Run(steps).rows[id], Run(steps + [read] + between);
            var commits := row.revokedAt.None? && row.expiresAt >= read.now && Active(s, id) && !HashTaken(s.rows, finish.newHash);
            && (Rotates(s, finish) <==> commits)
            && (Rotates(s, finish) && s.rows[s.clients[read.client].id].expiresAt < finish.now <==>
                commits && row.expiresAt < finish.now)
  {
    hide Next;
    ReadDecides(steps, read, id);
    PhasePersists(steps + [read], between, read.client);
    assert steps + ([read] + between) == steps + [read] + between;
    TokenPersists(steps, [read] + between, id);
  }

  /** A token read at the very end of its life is renewed one millisecond later, when it has expired. */
  lemma RotationCanCommitAfterExpiry(userId: string)
    ensures var issued := [Step.Issue(userId, 1, 0)];
            var read, finish := Step.BeginRotate(0, 1, REFRESH_TTL_MS), Step.FinishRotate(0, 2, REFRESH_TTL_MS + 1);
            var s := Run(issued + [read] + []);
            Rotates(s, finish) && s.clients[0] == Committing(0, userId) && s.rows[0].expiresAt < finish.now
  {
    var issue := Step.Issue(userId, 1, 0);
    var read, finish := Step.BeginRotate(0, 1, REFRESH_TTL_MS), Step.FinishRotate(0, 2, REFRESH_TTL_MS + 1);
    assert [issue][..0] == [];
    assert Run([]) == EMPTY && !HashTaken(EMPTY.rows, 1);
    assert Run([issue]) == Next(EMPTY, issue);
    assert Run([issue]).rows == map[0 := TokenRow(userId, 1, REFRESH_TTL_MS, None, None)];
    ReadDecides([issue], read, 0);
    assert [issue] + [read] + [] == [issue] + [read];
    assert ([issue] + [read])[..1] == [issue];
    assert Run([issue] + [read]).rows == Run([issue]).rows;
  }

  /**
   The service over its table. `clients` stands for the suspended `rotate` calls: one entry
   per call that is between its read and its transaction. The ghost fields are the history
   the guarantees speak of.
   */
  class RefreshTokenService {
    var rows: map<Id, TokenRow>
    var nextId: Id
    var clients: map<nat, Phase>
    ghost var origins: map<Id, Origin>
    ghost var lastRevokeAll: map<string, nat>
    ghost var clock: nat

    ghost function View(): State
      reads this
    {
      State(rows, nextId, clients, origins, lastRevokeAll, clock)
    }

    ghost predicate Valid()
      reads this
    {
      UniqueHashes(rows) && nextId !in rows
    }

    constructor ()
      ensures View() == EMPTY && Valid()
    {
      rows, nextId, clients := map[], 0, map[];
      origins, lastRevokeAll, clock := map[], map[], 0;
    }

    /** `create`: nothing, when the unique hash column refuses the row. */
    method Create(userId: string, hash: int, now: int, ghost origin: Origin) returns (id: Option<Id>)
      requires Valid() && (forall k :: k in rows ==> k < nextId)
      modifies `rows, `nextId, `origins
      ensures Valid() && (forall k :: k in rows ==> k < nextId)
      ensures id == if HashTaken(old(rows), hash) then None else Some(old(nextId))
      ensures View() == if id.None? then old(View()) else Created(old(View()), userId, hash, now, origin)
    {
      if exists k :: k in rows && rows[k].tokenHash == hash {
        return None;
      }
      id := Some(nextId);
      rows := rows[nextId := TokenRow(userId, hash, now + REFRESH_TTL_MS, None, None)];
      origins := origins[nextId := origin];
      nextId := nextId + 1;
    }

    method Issue(userId: string, hash: int, now: int) returns (id: Option<Id>)
      requires Valid() && (forall k :: k in rows ==> k < nextId)
      modifies this
      ensures Valid() && (forall k :: k in rows ==> k < nextId)
      ensures View() == Next(old(View()), Step.Issue(userId, hash, now))
      ensures id.Some? ==> Active(View(), id.value) && rows[id.value].userId == userId
    {
      id := Create(userId, hash, now, Issued(userId, clock));
      clock := clock + 1;
    }

    /** The first half of `rotate`: look the row up, and refuse, or suspend with what is left to do. */
    method BeginRotate(client: nat, hash: int, now: int)
      requires Valid()
      modifies `clients, `clock
      ensures Valid() && View() == Next(old(View()), Step.BeginRotate(client, hash, now))
    {
      var phase: Option<Phase> := None;
      if exists k :: k in rows && rows[k].tokenHash == hash {
        var id :| id in rows && rows[id].tokenHash == hash;
        phase := NextPhase(rows[id], id, now);
      }
      clients := if phase.Some? then clients[client := phase.value] else clients - {client};
      clock := clock + 1;
    }

    /** The second half: one transaction that creates the successor and retires the row, or leaves no trace. */
    method FinishRotate(client: nat, newHash: int, now: int) returns (successor: Option<Id>)
      requires Valid() && (forall k :: k in rows ==> k < nextId)
      modifies this
      ensures Valid() && (forall k :: k in rows ==> k < nextId)
      ensures View() == Next(old(View()), Step.FinishRotate(client, newHash, now))
      ensures successor.Some? <==> Rotates(old(View()), Step.FinishRotate(client, newHash, now))
    {
      successor := None;
      if client in clients {
        var phase := clients[client];
        clients := clients - {client};
        match phase {
          case Punishing(userId) =>
            RevokeRowsOf(userId, now);
          case Committing(id, userId) =>
            if id in rows && rows[id].revokedAt.None? {
              successor := Create(userId, newHash, now, RotatedFrom(id, clock));
              if successor.Some? {
                rows := rows[id := rows[id].(revokedAt := Some(now), replacedById := successor)];
              }
            }
        }
      }
      clock := clock + 1;
    }

    method RevokeRowsOf(userId: string, now: int)
      requires Valid()
      modifies `rows, `lastRevokeAll
      ensures Valid() && rows.Keys == old(rows).Keys
      ensures View() == AllRevoked(old(View()), userId, now)
    {
      rows := RevokedWhere(rows, OfUser(rows, userId), now);
      lastRevokeAll := lastRevokeAll[userId := clock];
    }

    method RevokeAllForUser(userId: string, now: int)
      requires Valid()
      modifies this
      ensures Valid() && View() == Next(old(View()), Step.RevokeAllForUser(userId, now))
    {
      RevokeRowsOf(userId, now);
      clock := clock + 1;
    }

    method Revoke(hash: int, now: int)
      requires Valid()
      modifies `rows, `clock
      ensures Valid() && View() == Next(old(View()), Step.Revoke(hash, now))
    {
      rows := RevokedWhere(rows, WithHash(rows, hash), now);
      clock := clock + 1;
    }

    method CleanupExpired(now: int) returns (count: nat)
      requires Valid()
      modifies `rows, `clock
      ensures Valid() && View() == Next(old(View()), Step.CleanupExpired(now))
      ensures count == |set k | k in old(rows) && old(rows)[k].expiresAt < now|
    {
      count := |set k | k in rows && rows[k].expiresAt < now|;
      rows := Unexpired(rows, now);
      clock := clock + 1;
    }
  }
}
