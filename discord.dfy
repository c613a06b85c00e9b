/** The Discord side as the bot sees it: the guilds it is in, each guild's
    roles and each member's roles, and the slash-command events it receives.
    Role and member lookups that the bot performs through the Discord API
    become look-ups in these values. */
module DiscordModel {
  import opened Common

  type DiscordId = string
  type RoleId = string

  /** One guild: the ids of its roles (`getRoleById` finds exactly these) and
      its members with their role sets (`retrieveMemberById` can find only
      these; for any other id it fails, and it may fail for these too, see
      `Retrieves`). */
  datatype Guild = Guild(roles: set<RoleId>, members: map<DiscordId, set<RoleId>>)

  /** A slash-command interaction: the command name, its single string option
      (null when absent), the invoking user, and the guild and member it was
      invoked from (null in a direct message). */
  datatype SlashCommand = SlashCommand(
    name: string,
    option: Option<string>,
    userId: DiscordId,
    guild: Option<Guild>,
    member: Option<set<RoleId>>)

  /** The bot's connection: the guilds it is in, in `getGuilds` order. Role
      grants and revocations change them in place. */
  class Jda {
    var guilds: seq<Guild>

    constructor(guilds: seq<Guild>)
      ensures this.guilds == guilds
    {
      this.guilds := guilds;
    }

    /** Guild.addRoleToMember, once the request has succeeded. */
    method AddRoleToMember(gi: nat, id: DiscordId, role: RoleId)
      requires gi < |guilds| && id in guilds[gi].members
      modifies this
      ensures guilds == WithMemberRoles(old(guilds), gi, id, old(guilds)[gi].members[id] + {role})
    {
      guilds := WithMemberRoles(guilds, gi, id, guilds[gi].members[id] + {role});
    }

    /** Guild.removeRoleFromMember, once the request has succeeded. */
    method RemoveRoleFromMember(gi: nat, id: DiscordId, role: RoleId)
      requires gi < |guilds| && id in guilds[gi].members
      modifies this
      ensures guilds == WithMemberRoles(old(guilds), gi, id, old(guilds)[gi].members[id] - {role})
    {
      guilds := WithMemberRoles(guilds, gi, id, guilds[gi].members[id] - {role});
    }
  }

  /** The roster with member `id` of guild `gi` holding exactly `roles`. */
  function WithMemberRoles(guilds: seq<Guild>, gi: nat, id: DiscordId, roles: set<RoleId>): seq<Guild>
    requires gi < |guilds|
  {
    guilds[gi := guilds[gi].(members := guilds[gi].members[id := roles])]
  }

  /** Index of the first guild, in `getGuilds` order, that has role `role`:
      the guild the quarantine role is looked up in. */
  function FirstRoleGuild(guilds: seq<Guild>, role: RoleId): (r: Option<nat>)
    ensures r.Some? ==> r.value < |guilds| && role in guilds[r.value].roles
  {
    if |guilds| == 0 then None
    else if role in guilds[0].roles then Some(0)
    else match FirstRoleGuild(guilds[1..], role)
      case None => None
      case Some(i) => Some(i + 1)
  }

  /** `id` is a member of at least one guild. */
  predicate InAnyGuild(guilds: seq<Guild>, id: DiscordId)
  {
    exists i :: 0 <= i < |guilds| && id in guilds[i].members
  }

  /** `retrieveMemberById(id).complete()` returns a member in guild `gi`: the
      id is a member there and the request does not throw. `lookupFails` holds
      the guild indices whose request throws (an HTTP error, a rate limit, a
      timeout), whether or not the member is there. */
  predicate Retrieves(guilds: seq<Guild>, gi: nat, id: DiscordId, lookupFails: set<nat>)
    requires gi < |guilds|
  {
    id in guilds[gi].members && gi !in lookupFails
  }

  /** The member lookup succeeds in at least one guild. */
  predicate RetrievedAnywhere(guilds: seq<Guild>, id: DiscordId, lookupFails: set<nat>)
  {
    exists i :: 0 <= i < |guilds| && Retrieves(guilds, i, id, lookupFails)
  }

  /** When no request throws, a lookup succeeds exactly where the member is. */
  lemma RetrievedWithoutFailures(guilds: seq<Guild>, id: DiscordId)
    ensures RetrievedAnywhere(guilds, id, {}) <==> InAnyGuild(guilds, id)
  {
    if InAnyGuild(guilds, id) {
      var i :| 0 <= i < |guilds| && id in guilds[i].members;
      assert Retrieves(guilds, i, id, {});
    }
  }

  /** The role set after one toggle: the role is removed when held, added otherwise. */
  function Toggled(roles: set<RoleId>, role: RoleId): set<RoleId>
  {
    if role in roles then roles - {role} else roles + {role}
  }

  /** The roster after toggling `role` on member `id` of guild `gi`. */
  function ToggleRole(guilds: seq<Guild>, gi: nat, id: DiscordId, role: RoleId): seq<Guild>
    requires gi < |guilds| && id in guilds[gi].members
  {
    WithMemberRoles(guilds, gi, id, Toggled(guilds[gi].members[id], role))
  }

  /** FirstRoleGuild is the first match: it names a guild that has the role and
      no earlier guild has it; it is None exactly when no guild has it. */
  lemma {:induction false} FirstRoleGuildIsFirst(guilds: seq<Guild>, role: RoleId)
    ensures FirstRoleGuild(guilds, role).None? <==> forall j :: 0 <= j < |guilds| ==> role !in guilds[j].roles
    ensures FirstRoleGuild(guilds, role).Some? ==>
      var gi := FirstRoleGuild(guilds, role).value;
      gi < |guilds| && role in guilds[gi].roles &&
      forall j :: 0 <= j < gi ==> role !in guilds[j].roles
  {
    if |guilds| > 0 && role !in guilds[0].roles {
      FirstRoleGuildIsFirst(guilds[1..], role);
      assert forall j :: 1 <= j < |guilds| ==> guilds[j] == guilds[1..][j - 1];
    }
  }

  /** Only the guilds up to and including the first one with the role matter:
      two rosters that agree there pick the same guild. */
  lemma {:induction false} FirstRoleGuildLocal(guilds: seq<Guild>, other: seq<Guild>, role: RoleId, gi: nat)
    requires FirstRoleGuild(guilds, role) == Some(gi)
    requires gi < |other| && forall j :: 0 <= j <= gi ==> j < |guilds| && other[j].roles == guilds[j].roles
    ensures FirstRoleGuild(other, role) == Some(gi)
  {
    FirstRoleGuildIsFirst(guilds, role);
    if gi > 0 {
      FirstRoleGuildLocal(guilds[1..], other[1..], role, gi - 1);
    }
  }

  /** The search as the listeners write it: walk the guilds in order and stop at
      the first whose `getRoleById(role)` is not null. */
  method FindRoleGuild(guilds: seq<Guild>, role: RoleId) returns (target: Option<nat>)
    ensures target == FirstRoleGuild(guilds, role)
  {
    FirstRoleGuildIsFirst(guilds, role);
    target := None;
    var i := 0;
    while i < |guilds|
      invariant 0 <= i <= |guilds|
      invariant forall j :: 0 <= j < i ==> role !in guilds[j].roles
    {
      if role in guilds[i].roles {
        target := Some(i);
        break;
      }
      i := i + 1;
    }
    if target.Some? {
      ghost var fg := FirstRoleGuild(guilds, role).value;
      assert !(fg < target.value) && !(target.value < fg);
    }
  }

  /** Toggling twice restores the roster: two successful quarantine commands on
      the same member undo each other. */
  lemma ToggleTwiceRestores(guilds: seq<Guild>, gi: nat, id: DiscordId, role: RoleId)
    requires gi < |guilds| && id in guilds[gi].members
    ensures ToggleRole(ToggleRole(guilds, gi, id, role), gi, id, role) == guilds
  {
    var once := ToggleRole(guilds, gi, id, role);
    var roles := guilds[gi].members[id];
    assert Toggled(Toggled(roles, role), role) == roles;
    assert once[gi].members[id := roles] == guilds[gi].members;
  }

  /** A toggle changes no guild's role list, so the next command resolves the
      same target guild. */
  lemma ToggleKeepsRoleGuild(guilds: seq<Guild>, gi: nat, id: DiscordId, role: RoleId, q: RoleId)
    requires gi < |guilds| && id in guilds[gi].members
    ensures FirstRoleGuild(ToggleRole(guilds, gi, id, role), q) == FirstRoleGuild(guilds, q)
  {
    RolesUnchangedSameFirst(guilds, ToggleRole(guilds, gi, id, role), q);
  }

  lemma {:induction false} RolesUnchangedSameFirst(a: seq<Guild>, b: seq<Guild>, q: RoleId)
    requires |a| == |b| && forall j :: 0 <= j < |a| ==> a[j].roles == b[j].roles
    ensures FirstRoleGuild(a, q) == FirstRoleGuild(b, q)
  {
    if |a| > 0 {
      RolesUnchangedSameFirst(a[1..], b[1..], q);
    }
  }
}
