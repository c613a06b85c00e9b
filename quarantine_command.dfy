/** The /quarantine slash command: a staff member names a player (by Discord
    mention or Minecraft username); the handler toggles the quarantine role on
    that member in the guild that has the role, and on adding it disconnects
    the player's proxy session, if any. */
module QuarantineCommand {
  import opened Common
  import opened DiscordModel
  import opened LinkStore
  import opened Checker
  import opened Login

  /** The kind of message the handler sends. */
  datatype QuarantineReply =
    | NoReply
    | NotConfigured
    | NoPermission
    | UserRequired
    | RoleNotFound
    | NoLinkedAccount(username: string)
    | UserNotFound
    | RoleRemoved
    | RemoveFailed
    | RoleAdded
    | AddFailed
    | CommandError

  /** How the `user` option is read. */
  datatype Target = Mention(discordId: DiscordId) | Username(name: string)

  /** Outcomes of the asynchronous and failing calls, as inputs: whether the
      deferral is acknowledged (the callback runs only then), whether
      findByUsername throws into the callback's catch-all, whether the member
      request in the role's guild throws (read as "user not found"), whether
      the role grant or revocation succeeds, and whether the kick's own lookup
      throws into kickPlayerIfOnline's catch-all. */
  datatype CommandOutcomes = CommandOutcomes(
    deferOk: bool,
    usernameLookupThrows: bool,
    memberLookupThrows: bool,
    roleChangeOk: bool,
    kickThrows: bool)

  /** One forced disconnect and the message shown. */
  datatype Kick = Kick(uuid: Uuid, message: string)

  /** The proxy's session directory: who is online, and the disconnects made. */
  class ProxyServer {
    var online: set<Uuid>
    var kicks: seq<Kick>

    /** Player.disconnect. */
    method Disconnect(uuid: Uuid, message: string)
      requires uuid in online
      modifies this
      ensures online == old(online) - {uuid}
      ensures kicks == old(kicks) + [Kick(uuid, message)]
    {
      online := online - {uuid};
      kicks := kicks + [Kick(uuid, message)];
    }
  }

  predicate IsMentionChar(c: char)
  {
    c == '<' || c == '@' || c == '!' || c == '>'
  }

  /** `replaceAll("[<@!>]", "")`. */
  function StripMentionChars(s: string): string
  {
    if s == [] then []
    else (if IsMentionChar(s[0]) then [] else [s[0]]) + StripMentionChars(s[1..])
  }

  /** Input that starts with "<@" and ends with ">" is a mention, whose id is the
      input without its mention characters; anything else is a username. */
  function ParseTarget(input: string): Target
  {
    if StartsWith(input, "<@") && EndsWith(input, ">") then Mention(StripMentionChars(input))
    else Username(input)
  }

  lemma {:induction false} StripConcat(a: string, b: string)
    ensures StripMentionChars(a + b) == StripMentionChars(a) + StripMentionChars(b)
  {
    if a == [] {
      assert a + b == b;
    } else {
      assert (a + b)[0] == a[0] && (a + b)[1..] == a[1..] + b;
      StripConcat(a[1..], b);
    }
  }

  /** The stripped text keeps every other character and drops every mention
      character: it holds none, and text without them comes back unchanged. */
  lemma {:induction false} StripRemovesExactlyMentionChars(s: string)
    ensures forall i :: 0 <= i < |StripMentionChars(s)| ==> !IsMentionChar(StripMentionChars(s)[i])
    ensures |StripMentionChars(s)| <= |s|
    ensures (forall i :: 0 <= i < |s| ==> !IsMentionChar(s[i])) ==> StripMentionChars(s) == s
  {
    if s != [] {
      StripRemovesExactlyMentionChars(s[1..]);
    }
  }

  /** Both mention forms Discord writes, <@id> and <@!id>, parse back to the id. */
  lemma MentionRoundTrip(id: DiscordId)
    requires forall i :: 0 <= i < |id| ==> !IsMentionChar(id[i])
    ensures ParseTarget("<@" + id + ">") == Mention(id)
    ensures ParseTarget("<@!" + id + ">") == Mention(id)
  {
    StripRemovesExactlyMentionChars(id);
    StripConcat("<@", id + ">");
    StripConcat(id, ">");
    StripConcat("<@!", id + ">");
    assert "<@" + id + ">" == "<@" + (id + ">");
    assert "<@!" + id + ">" == "<@!" + (id + ">");
    assert StartsWith("<@!" + id + ">", "<@");
  }

  /** A Minecraft username (letters, digits, underscore) is always looked up
      as a username. */
  lemma MinecraftNameIsUsername(name: string)
    requires forall i :: 0 <= i < |name| ==> 'a' <= name[i] <= 'z' || 'A' <= name[i] <= 'Z' || '0' <= name[i] <= '9' || name[i] == '_'
    ensures ParseTarget(name) == Username(name)
  {
    if |name| > 0 {
      assert name[0] != '<';
    }
  }

  /** A configured staff role id that is non-blank, names a role of the guild,
      and is held by the invoking member. */
  predicate GrantsStaff(roleId: Option<RoleId>, guild: Guild, memberRoles: set<RoleId>)
  {
    roleId.Some? && !IsBlank(roleId.value) && roleId.value in guild.roles && roleId.value in memberRoles
  }

  /** Staff permission: a non-empty staff list, a guild and a member, and some
      staff id that resolves to a role the member holds. */
  predicate StaffAuthorized(staffRoles: Option<seq<Option<RoleId>>>, guild: Option<Guild>, member: Option<set<RoleId>>)
  {
    && staffRoles.Some? && |staffRoles.value| > 0
    && guild.Some? && member.Some?
    && exists i :: 0 <= i < |staffRoles.value| && GrantsStaff(staffRoles.value[i], guild.value, member.value)
  }

  /** The callback target `input` names Discord user `id` in store `s`: the
      mention's id, or the discord id of a row carrying that username. */
  ghost predicate Resolves(s: Store, input: string, id: DiscordId)
  {
    match ParseTarget(input)
    case Mention(m) => id == m
    case Username(n) => exists u :: u in s.linked && s.linked[u] == LinkRow(id, Some(n))
  }

  /** Unconfigured staff roles fail shut. */
  lemma NoStaffRolesNoPermission(staffRoles: Option<seq<Option<RoleId>>>, guild: Option<Guild>, member: Option<set<RoleId>>)
    requires staffRoles.None? || staffRoles.value == [] || guild.None? || member.None?
    ensures !StaffAuthorized(staffRoles, guild, member)
  {
  }

  class QuarantineCommandListener {
    const db: DatabaseManager
    const quarantineRoleId: Option<RoleId>
    const staffRoles: Option<seq<Option<RoleId>>>
    const proxy: ProxyServer
    const quarantineMessage: string

    constructor(db: DatabaseManager, quarantineRoleId: Option<RoleId>, staffRoles: Option<seq<Option<RoleId>>>,
                proxy: ProxyServer, quarantineMessage: string)
      ensures this.db == db && this.quarantineRoleId == quarantineRoleId && this.staffRoles == staffRoles
      ensures this.proxy == proxy && this.quarantineMessage == quarantineMessage
    {
      this.db := db;
      this.quarantineRoleId := quarantineRoleId;
      this.staffRoles := staffRoles;
      this.proxy := proxy;
      this.quarantineMessage := quarantineMessage;
    }

    /** The command passes the configuration and permission checks and carries
        its `user` option. */
    predicate Admitted(ev: SlashCommand)
    {
      && ev.name == "quarantine" && !NullOrBlank(quarantineRoleId)
      && StaffAuthorized(staffRoles, ev.guild, ev.member) && ev.option.Some?
    }

    /** hasStaffPermission: walk the staff ids in order, answering true at the
        first non-blank one that is a role of the guild held by the member. */
    method HasStaffPermission(ev: SlashCommand) returns (ok: bool)
      ensures ok == StaffAuthorized(staffRoles, ev.guild, ev.member)
    {
      if staffRoles.None? || |staffRoles.value| == 0 {
        return false;
      }
      if ev.guild.None? {
        return false;
      }
      if ev.member.None? {
        return false;
      }
      var roles := staffRoles.value;
      var i := 0;
      while i < |roles|
        invariant 0 <= i <= |roles|
        invariant forall j :: 0 <= j < i ==> !GrantsStaff(roles[j], ev.guild.value, ev.member.value)
      {
        var staffRoleId := roles[i];
        if staffRoleId.Some? && !IsBlank(staffRoleId.value) {
          if staffRoleId.value in ev.guild.value.roles && staffRoleId.value in ev.member.value {
            return true;
          }
        }
        i := i + 1;
      }
      return false;
    }

    /** onSlashCommandInteraction for /quarantine. `jda` is the event's bot
        connection; `target` names the Discord user the command acted on, once
        one was resolved. The store is only read: unlike the checker, this
        handler never removes a link. */
    method OnSlashCommand(ev: SlashCommand, jda: Jda, out: CommandOutcomes) returns (reply: QuarantineReply, ghost target: Option<DiscordId>)
      modifies jda, proxy
      ensures ev.name != "quarantine" ==> reply == NoReply
      ensures ev.name == "quarantine" && NullOrBlank(quarantineRoleId) ==> reply == NotConfigured
      ensures ev.name == "quarantine" && !NullOrBlank(quarantineRoleId) && !StaffAuthorized(staffRoles, ev.guild, ev.member) ==>
        reply == NoPermission
      ensures ev.name == "quarantine" && !NullOrBlank(quarantineRoleId) && StaffAuthorized(staffRoles, ev.guild, ev.member) && ev.option.None? ==>
        reply == UserRequired
      ensures Admitted(ev) && !out.deferOk ==> reply == NoReply
      ensures Admitted(ev) && out.deferOk && FirstRoleGuild(old(jda.guilds), quarantineRoleId.value).None? ==> reply == RoleNotFound
      ensures Admitted(ev) && out.deferOk && FirstRoleGuild(old(jda.guilds), quarantineRoleId.value).Some? ==>
        match ParseTarget(ev.option.value)
        case Username(n) =>
          if out.usernameLookupThrows then reply == CommandError
          else if forall u :: u in db.linked ==> db.linked[u].username != Some(n) then reply == NoLinkedAccount(n)
          else target.Some?
        case Mention(_) => target.Some?
      ensures reply == RoleAdded || reply == RoleRemoved || reply == UserNotFound ==> target.Some?
      ensures target.Some? ==>
        && Admitted(ev) && out.deferOk && FirstRoleGuild(old(jda.guilds), quarantineRoleId.value).Some?
        && Resolves(db.State(), ev.option.value, target.value)
      ensures target.Some? ==>
        var gi := FirstRoleGuild(old(jda.guilds), quarantineRoleId.value).value;
        var role := quarantineRoleId.value;
        var g := old(jda.guilds)[gi];
        if target.value !in g.members || out.memberLookupThrows then reply == UserNotFound
        else if role in g.members[target.value] then reply == (if out.roleChangeOk then RoleRemoved else RemoveFailed)
        else reply == (if out.roleChangeOk then RoleAdded else AddFailed)
      ensures jda.guilds ==
        if reply == RoleAdded || reply == RoleRemoved then
          ToggleRole(old(jda.guilds), FirstRoleGuild(old(jda.guilds), quarantineRoleId.value).value, target.value, quarantineRoleId.value)
        else old(jda.guilds)
      ensures reply != RoleAdded ==> proxy.online == old(proxy.online) && proxy.kicks == old(proxy.kicks)
      ensures reply == RoleAdded ==> KickEffect(old(proxy.online), old(proxy.kicks), target.value, out.kickThrows)
    {
      target := None;
      if ev.name != "quarantine" {
        return NoReply, target;
      }
      if NullOrBlank(quarantineRoleId) {
        return NotConfigured, target;
      }
      var permitted := HasStaffPermission(ev);
      if !permitted {
        return NoPermission, target;
      }
      if ev.option.None? {
        return UserRequired, target;
      }
      var userInput := ev.option.value;
      if !out.deferOk {
        // the deferral failed: the callback never runs
        return NoReply, target;
      }

      // the deferred callback
      var role := quarantineRoleId.value;
      var found := FindRoleGuild(jda.guilds, role);
      if found.None? {
        return RoleNotFound, target;
      }
      var gi := found.value;

      var discordId: DiscordId;
      match ParseTarget(userInput) {
        case Mention(m) =>
          discordId := m;
        case Username(n) =>
          if out.usernameLookupThrows {
            return CommandError, target;
          }
          var info := db.FindByUsername(n);
          if info.None? {
            return NoLinkedAccount(n), target;
          }
          discordId := info.value.discordId;
      }
      target := Some(discordId);

      if discordId !in jda.guilds[gi].members || out.memberLookupThrows {
        // retrieveMemberById(...).complete() throws: the member is missing or the request failed
        return UserNotFound, target;
      }
      if role in jda.guilds[gi].members[discordId] {
        if !out.roleChangeOk {
          return RemoveFailed, target;
        }
        jda.RemoveRoleFromMember(gi, discordId, role);
        return RoleRemoved, target;
      } else {
        if !out.roleChangeOk {
          return AddFailed, target;
        }
        jda.AddRoleToMember(gi, discordId, role);
        KickPlayerIfOnline(discordId, out.kickThrows);
        return RoleAdded, target;
      }
    }

    /** What kickPlayerIfOnline may do to the session directory: nothing, when
        its lookup throws, no row binds the id, or the bound player is offline;
        otherwise disconnect that player, once, with the quarantine message. */
    ghost predicate KickEffect(online0: set<Uuid>, kicks0: seq<Kick>, discordId: DiscordId, throws: bool)
      reads this, proxy, db
    {
      if throws || !db.State().Binds(discordId) then proxy.online == online0 && proxy.kicks == kicks0
      else exists u ::
        && u in db.linked && db.linked[u].discordId == discordId
        && (if u in online0 then proxy.online == online0 - {u} && proxy.kicks == kicks0 + [Kick(u, quarantineMessage)]
            else proxy.online == online0 && proxy.kicks == kicks0)
    }

    /** kickPlayerIfOnline: find the uuid bound to the discord id and, when that
        player has a session, disconnect it with the quarantine message. */
    method KickPlayerIfOnline(discordId: DiscordId, throws: bool)
      modifies proxy
      ensures KickEffect(old(proxy.online), old(proxy.kicks), discordId, throws)
    {
      if throws {
        return;
      }
      var info := db.FindByDiscordId(discordId);
      if info.None? {
        return;
      }
      var uuid := info.value.uuid;
      if uuid in proxy.online {
        proxy.Disconnect(uuid, quarantineMessage);
      }
    }
  }

  /** With discord ids unique, kickPlayerIfOnline's effect is determined: the
      one player bound to the quarantined user is disconnected, once and with
      the quarantine message, if they were online, and nothing changes if they
      were not. */
  lemma KickHitsOnlyTheBoundPlayer(l: QuarantineCommandListener, online0: set<Uuid>, kicks0: seq<Kick>, id: DiscordId, u: Uuid)
    requires UniqueDiscordIds(l.db.State())
    requires u in l.db.linked && l.db.linked[u].discordId == id
    requires l.KickEffect(online0, kicks0, id, false)
    ensures u in online0 ==>
      l.proxy.online == online0 - {u} && l.proxy.kicks == kicks0 + [Kick(u, l.quarantineMessage)]
    ensures u !in online0 ==> l.proxy.online == online0 && l.proxy.kicks == kicks0
  {
    assert l.db.State().Binds(id);
    var w :| && w in l.db.linked && l.db.linked[w].discordId == id
             && (if w in online0 then l.proxy.online == online0 - {w} && l.proxy.kicks == kicks0 + [Kick(w, l.quarantineMessage)]
                 else l.proxy.online == online0 && l.proxy.kicks == kicks0);
    assert w == u;
  }

  /** A successful toggle flips the checker's answer for that member: the role
      guild stays the same, and the member's holding of the role is inverted;
      neither answer touches the store. */
  lemma ToggleFlipsQuarantine(guilds: seq<Guild>, gi: nat, id: DiscordId, role: RoleId, lookupFails: set<nat>, s: Store)
    requires !IsBlank(role)
    requires FirstRoleGuild(guilds, role) == Some(gi)
    requires Retrieves(guilds, gi, id, lookupFails)
    ensures QuarantineOutcome(ToggleRole(guilds, gi, id, role), Some(role), id, false, lookupFails, s) ==
      (!QuarantineOutcome(guilds, Some(role), id, false, lookupFails, s).0, s)
    ensures QuarantineOutcome(guilds, Some(role), id, false, lookupFails, s).1 == s
  {
    ToggleKeepsRoleGuild(guilds, gi, id, role, role);
    var after := ToggleRole(guilds, gi, id, role);
    assert after[gi].members[id] == Toggled(guilds[gi].members[id], role);
  }

  /** Quarantining a linked player keeps them out: once /quarantine has added
      the role to their Discord member, their next login is refused with the
      quarantine message and nothing is written. */
  lemma QuarantineThenLoginRefused(cfg: Config, a: Attempt, guilds: seq<Guild>, gi: nat, role: RoleId,
                                   code: string, now: int, s: Store)
    requires !IsBlank(role)
    requires FirstRoleGuild(guilds, role) == Some(gi)
    requires !BypassMatch(HostString(a.virtualHost), cfg.bypassServers)
    requires s.IsLinked(a.uuid)
    requires s.linked[a.uuid].discordId in guilds[gi].members
    requires role !in guilds[gi].members[s.linked[a.uuid].discordId]
    ensures var after := ToggleRole(guilds, gi, s.linked[a.uuid].discordId, role);
      LoginOutcome(cfg, a, Some(OracleView(after, Some(role))), code, now, NoFaults, s) ==
        (Denied(Quarantine(cfg.quarantineMessage)), s)
  {
    var id := s.linked[a.uuid].discordId;
    var after := ToggleRole(guilds, gi, id, role);
    ToggleFlipsQuarantine(guilds, gi, id, role, {}, s);
    assert Retrieves(after, gi, id, {});
    assert !QuarantineOutcome(guilds, Some(role), id, false, {}, s).0;
  }
}
