/** The link store: the `linked_accounts` and `pending_links` tables, each
    keyed by the player's uuid, so each holds at most one row per uuid.

    Only `isLinked` and `savePendingCode` have bodies in the repository; the
    other operations the listeners call (claimPending, addLink, getDiscordId,
    findByUsername, findByDiscordId, removeLinkByDiscordId, updateUsername)
    are given the plain single-step map meaning written on each of them here.
    Those meanings are assumptions of the model, not facts of the code. */
module LinkStore {
  import opened Common
  import opened DiscordModel

  /** A player's uuid in its canonical text form, the tables' key. */
  type Uuid = string

  /** A `linked_accounts` row without its key. The username column is not in
      the table definition of `initTables`, yet updateUsername and
      findByUsername use it; it is null until the first refresh. */
  datatype LinkRow = LinkRow(discordId: DiscordId, username: Option<string>)

  /** A `pending_links` row without its key. */
  datatype PendingRow = PendingRow(code: string, createdAt: int)

  /** What findByUsername and findByDiscordId return. */
  datatype LinkInfo = LinkInfo(uuid: Uuid, discordId: DiscordId, username: Option<string>)

  /** The contents of both tables as one value. */
  datatype Store = Store(linked: map<Uuid, LinkRow>, pending: map<Uuid, PendingRow>)
  {
    /** A `linked_accounts` row exists for `u`. */
    predicate IsLinked(u: Uuid)
    {
      u in linked
    }

    /** getDiscordId: the bound discord id, null when `u` has no row. */
    function DiscordIdOf(u: Uuid): Option<DiscordId>
    {
      if u in linked then Some(linked[u].discordId) else None
    }

    /** Some row binds discord id `id`. */
    predicate Binds(id: DiscordId)
    {
      exists u :: u in linked && linked[u].discordId == id
    }

    /** Some pending row holds `code`. */
    predicate HoldsCode(code: string)
    {
      exists u :: u in pending && pending[u].code == code
    }

    /** savePendingCode's upsert. */
    function WithPendingCode(u: Uuid, code: string, now: int): Store
    {
      this.(pending := pending[u := PendingRow(code, now)])
    }

    /** removeLinkByDiscordId: every row bound to `id` is deleted. */
    function WithoutDiscordId(id: DiscordId): Store
    {
      this.(linked := map u | u in linked && linked[u].discordId != id :: linked[u])
    }

    /** updateUsername: an UPDATE by key, which touches no row when `u` is not linked. */
    function WithUsername(u: Uuid, name: string): Store
    {
      if u in linked then this.(linked := linked[u := linked[u].(username := Some(name))]) else this
    }

    /** addLink's precondition for inserting: the uuid key is free and the discord
        id is bound to no one. */
    predicate CanLink(u: Uuid, id: DiscordId)
    {
      u !in linked && !Binds(id)
    }

    /** addLink's insert. */
    function WithLink(u: Uuid, id: DiscordId): Store
    {
      this.(linked := linked[u := LinkRow(id, None)])
    }
  }

  /** No discord id is bound to two uuids. The table definition does not
      declare `discord_id` unique, so this holds only as long as every insert
      goes through addLink. */
  ghost predicate UniqueDiscordIds(s: Store)
  {
    forall u, v :: u in s.linked && v in s.linked && s.linked[u].discordId == s.linked[v].discordId ==> u == v
  }

  /** What claimPending(code) may do: return a uuid whose pending row holds
      `code` and delete that row, or return null and change nothing when no
      row holds it. Which row is taken when several hold the code is not fixed. */
  ghost predicate Claims(s: Store, code: string, r: Option<Uuid>, s': Store)
  {
    match r
    case None => !s.HoldsCode(code) && s' == s
    case Some(u) => u in s.pending && s.pending[u].code == code && s' == s.(pending := s.pending - {u})
  }

  class DatabaseManager {
    var linked: map<Uuid, LinkRow>
    var pending: map<Uuid, PendingRow>

    /** Both tables as one value. */
    function State(): Store
      reads this
    {
      Store(linked, pending)
    }

    /** isLinked: a SELECT on the key. A query failure is logged and reported as
        "not linked". */
    method IsLinked(uuid: Uuid, queryFails: bool) returns (found: bool)
      ensures found <==> !queryFails && uuid in linked
    {
      if queryFails {
        return false;
      }
      found := uuid in linked;
    }

    /** savePendingCode: INSERT ... ON DUPLICATE KEY UPDATE, so the uuid ends up
        with exactly one pending row holding `code`; a query failure is logged
        and swallowed, leaving the tables as they were. */
    method SavePendingCode(uuid: Uuid, code: string, now: int, queryFails: bool)
      modifies this
      ensures linked == old(linked)
      ensures pending == if queryFails then old(pending) else old(pending)[uuid := PendingRow(code, now)]
    {
      if !queryFails {
        pending := pending[uuid := PendingRow(code, now)];
      }
    }

    /** claimPending (assumed): find a pending row holding `code`, delete it and
        return its uuid; null when there is none. */
    method ClaimPending(code: string) returns (claimed: Option<Uuid>)
      modifies this
      ensures Claims(old(State()), code, claimed, State())
    {
      if u :| u in pending && pending[u].code == code {
        pending := pending - {u};
        claimed := Some(u);
      } else {
        claimed := None;
      }
    }

    /** addLink (assumed): insert (uuid, discordId) unless the uuid is already
        linked or the discord id already bound; report whether it inserted. */
    method AddLink(uuid: Uuid, discordId: DiscordId) returns (added: bool)
      modifies this
      ensures added == old(State()).CanLink(uuid, discordId)
      ensures State() == if added then old(State()).WithLink(uuid, discordId) else old(State())
    {
      added := State().CanLink(uuid, discordId);
      if added {
        linked := linked[uuid := LinkRow(discordId, None)];
      }
    }

    /** getDiscordId (assumed): the bound discord id, null when not linked. */
    method GetDiscordId(uuid: Uuid) returns (id: Option<DiscordId>)
      ensures id.Some? <==> uuid in linked
      ensures id.Some? ==> id.value == linked[uuid].discordId
    {
      id := if uuid in linked then Some(linked[uuid].discordId) else None;
    }

    /** findByUsername (assumed): some row whose username is `name`, empty when
        there is none. */
    method FindByUsername(name: string) returns (info: Option<LinkInfo>)
      ensures info.None? <==> forall u :: u in linked ==> linked[u].username != Some(name)
      ensures info.Some? ==> info.value.uuid in linked && linked[info.value.uuid] == LinkRow(info.value.discordId, Some(name))
    {
      if u :| u in linked && linked[u].username == Some(name) {
        info := Some(LinkInfo(u, linked[u].discordId, linked[u].username));
      } else {
        info := None;
      }
    }

    /** findByDiscordId (assumed): some row bound to `id`, empty when there is none. */
    method FindByDiscordId(id: DiscordId) returns (info: Option<LinkInfo>)
      ensures info.None? <==> !State().Binds(id)
      ensures info.Some? ==> info.value.uuid in linked && linked[info.value.uuid] == LinkRow(id, info.value.username)
      ensures info.Some? ==> info.value.discordId == id
    {
      if u :| u in linked && linked[u].discordId == id {
        info := Some(LinkInfo(u, id, linked[u].username));
      } else {
        info := None;
      }
    }

    /** removeLinkByDiscordId (assumed): delete every row bound to `id`; report
        whether any was deleted. */
    method RemoveLinkByDiscordId(id: DiscordId) returns (removed: bool)
      modifies this
      ensures removed == old(State()).Binds(id)
      ensures State() == old(State()).WithoutDiscordId(id)
    {
      removed := State().Binds(id);
      linked := map u | u in linked && linked[u].discordId != id :: linked[u];
    }

    /** updateUsername (assumed): set the username of `uuid`'s row, if it has one. */
    method UpdateUsername(uuid: Uuid, name: string)
      modifies this
      ensures State() == old(State()).WithUsername(uuid, name)
    {
      if uuid in linked {
        linked := linked[uuid := linked[uuid].(username := Some(name))];
      }
    }
  }

  /** After savePendingCode(u, c) the pending code for u is c whether or not a
      row existed; no other uuid's pending row changes and `linked_accounts` is
      untouched. */
  lemma SavePendingCodeUpserts(s: Store, u: Uuid, c: string, now: int)
    ensures s.WithPendingCode(u, c, now).pending[u].code == c
    ensures s.WithPendingCode(u, c, now).pending.Keys == s.pending.Keys + {u}
    ensures forall v :: v != u && v in s.pending ==> s.WithPendingCode(u, c, now).pending[v] == s.pending[v]
    ensures s.WithPendingCode(u, c, now).linked == s.linked
  {
  }

  /** Repeated saves for one uuid leave one row, holding the last code. */
  lemma SavePendingCodeLastWins(s: Store, u: Uuid, c1: string, t1: int, c2: string, t2: int)
    ensures s.WithPendingCode(u, c1, t1).WithPendingCode(u, c2, t2) == s.WithPendingCode(u, c2, t2)
  {
  }

  /** removeLinkByDiscordId deletes exactly the rows bound to the id. */
  lemma RemoveDeletesExactlyBoundRows(s: Store, id: DiscordId)
    ensures !s.WithoutDiscordId(id).Binds(id)
    ensures forall u :: u in s.linked && s.linked[u].discordId != id ==>
      u in s.WithoutDiscordId(id).linked && s.WithoutDiscordId(id).linked[u] == s.linked[u]
    ensures s.WithoutDiscordId(id).linked.Keys <= s.linked.Keys
    ensures s.WithoutDiscordId(id).pending == s.pending
  {
  }

  /** Every store step the listeners use keeps discord ids unique, under the
      addLink assumption above. */
  lemma StepsKeepDiscordIdsUnique(s: Store, u: Uuid, id: DiscordId, name: string, code: string, now: int)
    requires UniqueDiscordIds(s)
    ensures s.CanLink(u, id) ==> UniqueDiscordIds(s.WithLink(u, id))
    ensures UniqueDiscordIds(s.WithoutDiscordId(id))
    ensures UniqueDiscordIds(s.WithUsername(u, name))
    ensures UniqueDiscordIds(s.WithPendingCode(u, code, now))
  {
    if s.CanLink(u, id) {
      assert forall w :: w in s.linked ==> s.linked[w].discordId != id;
    }
  }

  /** A code saved for `u` that no other uuid holds can only be claimed back by
      `u`, and the claim consumes that row and no other. */
  lemma SavedCodeClaimsBack(s: Store, u: Uuid, code: string, now: int, r: Option<Uuid>, s': Store)
    requires forall v :: v in s.pending && v != u ==> s.pending[v].code != code
    requires Claims(s.WithPendingCode(u, code, now), code, r, s')
    ensures r == Some(u)
    ensures s'.pending == s.pending - {u} && s'.linked == s.linked
  {
    var saved := s.WithPendingCode(u, code, now);
    assert u in saved.pending && saved.pending[u].code == code;
    assert saved.pending - {u} == s.pending - {u};
  }

  /** A code that was claimed is gone: no second claim of it can succeed unless
      another uuid also held it. */
  lemma ClaimIsOnce(s: Store, code: string, u: Uuid, s': Store, r: Option<Uuid>, s'': Store)
    requires forall v :: v in s.pending && v != u ==> s.pending[v].code != code
    requires Claims(s, code, Some(u), s')
    requires Claims(s', code, r, s'')
    ensures r == None && s'' == s'
  {
    forall v | v in s'.pending ensures s'.pending[v].code != code {
      assert v != u && v in s.pending;
    }
  }
}
