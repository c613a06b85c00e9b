/** The membership oracle: is a bound discord identity still in a guild the
    bot can see, and does it hold the quarantine role. Both questions have a
    clean-up side effect: an identity the lookup cannot find is treated as
    having left Discord and its link rows are deleted. */
module Checker {
  import opened Common
  import opened DiscordModel
  import opened LinkStore

  /** isUserStillInDiscord as a value: the answer and the store afterwards.
      `rosterFails` stands for an error while enumerating the guilds, which the
      method catches and answers with "still there"; `lookupFails` holds the
      guilds whose member request throws, which the method skips. */
  function PresenceOutcome(guilds: seq<Guild>, discordId: Option<DiscordId>, rosterFails: bool, lookupFails: set<nat>, s: Store): (r: (bool, Store))
    ensures r.0 ==> discordId.Some? && r.1 == s
  {
    if discordId.None? then (false, s)
    else if rosterFails then (true, s)
    else if RetrievedAnywhere(guilds, discordId.value, lookupFails) then (true, s)
    else (false, s.WithoutDiscordId(discordId.value))
  }

  /** isQuarantined as a value: the answer and the store afterwards.
      `rosterFails` stands for an error outside the member lookup, which the
      method catches and answers with "not quarantined"; `lookupFails` holds
      the guilds whose member request throws, which the method treats like a
      missing member. */
  function QuarantineOutcome(guilds: seq<Guild>, roleId: Option<RoleId>, discordId: DiscordId, rosterFails: bool, lookupFails: set<nat>, s: Store): (r: (bool, Store))
    ensures r.0 ==> r.1 == s
  {
    if NullOrBlank(roleId) || rosterFails then (false, s)
    else match FirstRoleGuild(guilds, roleId.value)
      case None => (false, s)
      case Some(gi) =>
        if Retrieves(guilds, gi, discordId, lookupFails) then (roleId.value in guilds[gi].members[discordId], s)
        else (false, s.WithoutDiscordId(discordId))
  }

  class QuarantineChecker {
    const db: DatabaseManager
    const jda: Jda
    const quarantineRoleId: Option<RoleId>

    constructor(db: DatabaseManager, jda: Jda, quarantineRoleId: Option<RoleId>)
      ensures this.db == db && this.jda == jda && this.quarantineRoleId == quarantineRoleId
    {
      this.db := db;
      this.jda := jda;
      this.quarantineRoleId := quarantineRoleId;
    }

    /** isQuarantined: find the first guild that has the quarantine role, look
        the member up there only, and answer whether they hold the role. When
        that lookup fails, whether because the member is missing or because the
        request throws, the link is removed and the answer is "not quarantined". */
    method IsQuarantined(discordId: DiscordId, rosterFails: bool, lookupFails: set<nat>) returns (quarantined: bool)
      modifies db
      ensures (quarantined, db.State()) == QuarantineOutcome(jda.guilds, quarantineRoleId, discordId, rosterFails, lookupFails, old(db.State()))
    {
      if NullOrBlank(quarantineRoleId) {
        return false;
      }
      if rosterFails {
        return false;
      }
      var target := FindRoleGuild(jda.guilds, quarantineRoleId.value);
      if target.None? {
        return false;
      }
      var guild := jda.guilds[target.value];
      if discordId in guild.members && target.value !in lookupFails {
        return quarantineRoleId.value in guild.members[discordId];
      }
      var _ := db.RemoveLinkByDiscordId(discordId);
      return false;
    }

    /** isUserStillInDiscord: try every guild in order and answer true at the
        first whose member lookup succeeds; when none does, unlink and answer
        false. */
    method IsUserStillInDiscord(discordId: Option<DiscordId>, rosterFails: bool, lookupFails: set<nat>) returns (present: bool)
      modifies db
      ensures (present, db.State()) == PresenceOutcome(jda.guilds, discordId, rosterFails, lookupFails, old(db.State()))
    {
      if discordId.None? {
        return false;
      }
      if rosterFails {
        return true;
      }
      var i := 0;
      while i < |jda.guilds|
        invariant 0 <= i <= |jda.guilds|
        invariant forall j :: 0 <= j < i ==> !Retrieves(jda.guilds, j, discordId.value, lookupFails)
      {
        if discordId.value in jda.guilds[i].members && i !in lookupFails {
          assert Retrieves(jda.guilds, i, discordId.value, lookupFails);
          return true;
        }
        i := i + 1;
      }
      var _ := db.RemoveLinkByDiscordId(discordId.value);
      return false;
    }
  }

  /** With no quarantine role configured (null or blank) the check is off:
      never quarantined, store untouched. */
  lemma QuarantineDisabledWithoutRole(guilds: seq<Guild>, roleId: Option<RoleId>, id: DiscordId, fails: bool, lookupFails: set<nat>, s: Store)
    requires NullOrBlank(roleId)
    ensures QuarantineOutcome(guilds, roleId, id, fails, lookupFails, s) == (false, s)
  {
  }

  /** Fail-open defaults: when no guild has the role, or the roster cannot be
      read, the answer is "not quarantined" and the store is untouched. */
  lemma QuarantineFailsOpen(guilds: seq<Guild>, roleId: Option<RoleId>, id: DiscordId, fails: bool, lookupFails: set<nat>, s: Store)
    requires fails || (roleId.Some? && forall j :: 0 <= j < |guilds| ==> roleId.value !in guilds[j].roles)
    ensures QuarantineOutcome(guilds, roleId, id, fails, lookupFails, s) == (false, s)
  {
    if roleId.Some? {
      FirstRoleGuildIsFirst(guilds, roleId.value);
    }
  }

  /** The first guild in order that has the role decides. When the member
      lookup there succeeds, the answer is exactly whether their roles contain
      the quarantine role, and the store is untouched. When it fails (the
      member is missing, or the request throws), they are unlinked and reported
      not quarantined, whatever the later guilds hold. */
  lemma QuarantineFirstGuildDecides(guilds: seq<Guild>, roleId: RoleId, id: DiscordId, lookupFails: set<nat>, s: Store, gi: nat)
    requires !IsBlank(roleId)
    requires gi < |guilds| && roleId in guilds[gi].roles
    requires forall j :: 0 <= j < gi ==> roleId !in guilds[j].roles
    ensures Retrieves(guilds, gi, id, lookupFails) ==>
      QuarantineOutcome(guilds, Some(roleId), id, false, lookupFails, s) == (roleId in guilds[gi].members[id], s)
    ensures !Retrieves(guilds, gi, id, lookupFails) ==>
      QuarantineOutcome(guilds, Some(roleId), id, false, lookupFails, s) == (false, s.WithoutDiscordId(id))
  {
    FirstRoleGuildIsFirst(guilds, roleId);
    var fg := FirstRoleGuild(guilds, roleId).value;
    assert !(fg < gi) && !(gi < fg);
  }

  /** Only the target guild is consulted for the member: two rosters that agree
      on the guilds' roles up to the target and on the target guild itself give
      the same answer and the same store. */
  lemma QuarantineConsultsOnlyTargetGuild(guilds: seq<Guild>, other: seq<Guild>, roleId: RoleId, id: DiscordId, lookupFails: set<nat>, s: Store, gi: nat)
    requires FirstRoleGuild(guilds, roleId) == Some(gi)
    requires gi < |other| && other[gi] == guilds[gi]
    requires forall j :: 0 <= j < gi ==> j < |guilds| && other[j].roles == guilds[j].roles
    ensures QuarantineOutcome(other, Some(roleId), id, false, lookupFails, s) == QuarantineOutcome(guilds, Some(roleId), id, false, lookupFails, s)
  {
    FirstRoleGuildLocal(guilds, other, roleId, gi);
  }

  /** "Quarantined" is reported only for a member of the target guild, found by
      a lookup that succeeded, who holds the role, and never together with a
      store change. */
  lemma QuarantinedMeansHoldsRole(guilds: seq<Guild>, roleId: Option<RoleId>, id: DiscordId, fails: bool, lookupFails: set<nat>, s: Store)
    requires QuarantineOutcome(guilds, roleId, id, fails, lookupFails, s).0
    ensures roleId.Some? && !IsBlank(roleId.value) && !fails
    ensures exists gi :: 0 <= gi < |guilds| && Retrieves(guilds, gi, id, lookupFails) && roleId.value in guilds[gi].members[id]
    ensures QuarantineOutcome(guilds, roleId, id, fails, lookupFails, s).1 == s
  {
    var gi := FirstRoleGuild(guilds, roleId.value).value;
    assert Retrieves(guilds, gi, id, lookupFails);
  }

  /** isUserStillInDiscord: true without touching the store as soon as a member
      lookup succeeds in some guild (or the roster cannot be read); otherwise
      false, and every link bound to the id is gone. */
  lemma PresenceUnlinksOnlyTheAbsent(guilds: seq<Guild>, id: DiscordId, fails: bool, lookupFails: set<nat>, s: Store)
    ensures fails || RetrievedAnywhere(guilds, id, lookupFails) ==> PresenceOutcome(guilds, Some(id), fails, lookupFails, s) == (true, s)
    ensures !fails && !RetrievedAnywhere(guilds, id, lookupFails) ==>
      var r := PresenceOutcome(guilds, Some(id), fails, lookupFails, s);
      !r.0 && !r.1.Binds(id) && r.1 == s.WithoutDiscordId(id)
  {
    RemoveDeletesExactlyBoundRows(s, id);
  }

  /** A failing member request is read as "left Discord": a member who is in
      the guilds, but whose lookups throw in every guild (for presence) or in
      the role's guild (for quarantine), is unlinked and answered false by
      both questions. */
  lemma LookupFailureUnlinksPresentMember(guilds: seq<Guild>, roleId: RoleId, id: DiscordId, lookupFails: set<nat>, s: Store, gi: nat)
    requires !IsBlank(roleId)
    requires FirstRoleGuild(guilds, roleId) == Some(gi)
    requires id in guilds[gi].members
    ensures (forall j :: 0 <= j < |guilds| ==> j in lookupFails) ==>
      InAnyGuild(guilds, id) && PresenceOutcome(guilds, Some(id), false, lookupFails, s) == (false, s.WithoutDiscordId(id))
    ensures gi in lookupFails ==>
      QuarantineOutcome(guilds, Some(roleId), id, false, lookupFails, s) == (false, s.WithoutDiscordId(id))
    ensures s.Binds(id) && gi in lookupFails ==>
      s.WithoutDiscordId(id) != s
  {
    if s.Binds(id) {
      var u :| u in s.linked && s.linked[u].discordId == id;
      assert u !in s.WithoutDiscordId(id).linked;
    }
  }

  /** A user who is in no guild is reported absent and not quarantined by both
      questions, whichever requests throw, and both delete the user's links. */
  lemma AbsentEverywhere(guilds: seq<Guild>, roleId: RoleId, id: DiscordId, lookupFails: set<nat>, s: Store)
    requires !IsBlank(roleId) && !InAnyGuild(guilds, id)
    requires exists j :: 0 <= j < |guilds| && roleId in guilds[j].roles
    ensures PresenceOutcome(guilds, Some(id), false, lookupFails, s) == (false, s.WithoutDiscordId(id))
    ensures QuarantineOutcome(guilds, Some(roleId), id, false, lookupFails, s) == (false, s.WithoutDiscordId(id))
  {
    FirstRoleGuildIsFirst(guilds, roleId);
    var gi := FirstRoleGuild(guilds, roleId).value;
    assert id !in guilds[gi].members;
  }
}
