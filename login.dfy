/** The login gate: on every proxy login the listener decides, by a
    first-match rule chain, whether the player may enter, and may rotate a
    link code or refresh the stored username on the way. */
module Login {
  import opened Common
  import opened DiscordModel
  import opened LinkStore
  import opened Checker

  /** The configuration the listener reads: the bypass virtual hosts and the
      text shown to quarantined players. */
  datatype Config = Config(bypassServers: seq<string>, quarantineMessage: string)

  /** One login: the player's uuid and name and the virtual host they used, if any. */
  datatype Attempt = Attempt(uuid: Uuid, username: string, virtualHost: Option<string>)

  /** Why a login was refused. The two code-carrying kinds embed the code the
      player must type into /link. */
  datatype Denial =
    | Relink(code: string)        // linked, but the Discord user has gone
    | Quarantine(message: string) // the configured quarantine message
    | ContactAdmin                // not linked, yet a discord id is stored
    | NotLinked(code: string)     // not linked: a new code was issued
    | ServerError                 // an exception reached the catch-all

  datatype Decision = Allowed | Denied(reason: Denial)

  /** The store calls inside the listener's try block. */
  datatype StoreCall = LinkCheck | DiscordIdLookup | CodeSave | UsernameRefresh

  /** What can go wrong in one login, as inputs: `throwing` holds the store
      calls that raise an unexpected exception if they are made (before
      changing anything); `linkQueryFails` and `saveQueryFails` are SQL
      failures that isLinked and savePendingCode catch themselves; the two
      roster flags are Discord errors that the checker's methods catch; the
      two lookup sets hold the guilds whose member request throws during the
      presence check and during the quarantine check. */
  datatype Faults = Faults(
    throwing: set<StoreCall>,
    linkQueryFails: bool,
    saveQueryFails: bool,
    presenceRosterFails: bool,
    quarantineRosterFails: bool,
    presenceLookupFails: set<nat>,
    quarantineLookupFails: set<nat>)

  /** No fault at all. */
  const NoFaults := Faults({}, false, false, false, false, {}, {})

  /** What the login chain sees of the quarantine checker, when there is one:
      the bot's guilds and the configured quarantine role id. */
  datatype OracleView = OracleView(guilds: seq<Guild>, quarantineRoleId: Option<RoleId>)

  function View(checker: Option<QuarantineChecker>): Option<OracleView>
    reads if checker.Some? then {checker.value.jda} else {}
  {
    if checker.Some? then Some(OracleView(checker.value.jda.guilds, checker.value.quarantineRoleId)) else None
  }

  predicate IsHexDigit(c: char)
  {
    '0' <= c <= '9' || 'a' <= c <= 'f' || 'A' <= c <= 'F'
  }

  /** The 8-4-4-4-12 hex-digit text form of a UUID (section 3 of RFC 4122). */
  predicate IsCanonicalUuid(s: string)
  {
    |s| == 36 &&
    forall i :: 0 <= i < 36 ==> if i in {8, 13, 18, 23} then s[i] == '-' else IsHexDigit(s[i])
  }

  /** A link code: six upper-case hexadecimal digits. */
  predicate IsLinkCode(s: string)
  {
    |s| == 6 && forall i :: 0 <= i < 6 ==> '0' <= s[i] <= '9' || 'A' <= s[i] <= 'F'
  }

  /** generateCode: the first six characters of a random UUID's text form,
      upper-cased. `random` is that text form. */
  function GenerateCode(random: string): (code: string)
    requires IsCanonicalUuid(random)
    ensures IsLinkCode(code)
    ensures ToLower(code) == ToLower(random[..6])
  {
    ToUpper(random[..6])
  }

  /** The virtual host as a string: `getVirtualHost().map(getHostString).orElse("")`. */
  function HostString(virtualHost: Option<string>): string
  {
    if virtualHost.Some? then virtualHost.value else ""
  }

  /** A non-empty host whose lower-case form contains some bypass entry's
      lower-case form. */
  predicate BypassMatch(host: string, servers: seq<string>)
  {
    host != "" && exists i :: 0 <= i < |servers| && Contains(ToLower(host), ToLower(servers[i]))
  }

  /** None of the store calls in `calls` throws. */
  predicate Completes(f: Faults, calls: set<StoreCall>)
  {
    f.throwing !! calls
  }

  /** onLogin as a value: the decision and the store afterwards, for the given
      configuration, attempt, checker (absent until the Discord bot is ready),
      freshly generated code, clock reading and faults. */
  function LoginOutcome(cfg: Config, a: Attempt, oracle: Option<OracleView>, code: string, now: int, f: Faults, s: Store): (Decision, Store)
  {
    if BypassMatch(HostString(a.virtualHost), cfg.bypassServers) then (Allowed, s)
    else if LinkCheck in f.throwing then (Denied(ServerError), s)
    else if !f.linkQueryFails && s.IsLinked(a.uuid) then LinkedOutcome(cfg, a, oracle, code, now, f, s)
    else if DiscordIdLookup in f.throwing then (Denied(ServerError), s)
    else if s.DiscordIdOf(a.uuid).Some? then (Denied(ContactAdmin), s)
    else IssueCode(a.uuid, NotLinked(code), code, now, f, s)
  }

  /** The linked branch of onLogin. */
  function LinkedOutcome(cfg: Config, a: Attempt, oracle: Option<OracleView>, code: string, now: int, f: Faults, s: Store): (Decision, Store)
  {
    if DiscordIdLookup in f.throwing then (Denied(ServerError), s)
    else if oracle.None? then RefreshOutcome(a, f, s)
    else
      var id := s.DiscordIdOf(a.uuid);
      var (present, s1) := PresenceOutcome(oracle.value.guilds, id, f.presenceRosterFails, f.presenceLookupFails, s);
      if !present then IssueCode(a.uuid, Relink(code), code, now, f, s1)
      else
        var (quarantined, s2) := QuarantineOutcome(oracle.value.guilds, oracle.value.quarantineRoleId, id.value, f.quarantineRosterFails, f.quarantineLookupFails, s1);
        if quarantined then (Denied(Quarantine(cfg.quarantineMessage)), s2)
        else RefreshOutcome(a, f, s2)
  }

  /** Save `code` as the player's pending code and refuse with `denial`. */
  function IssueCode(u: Uuid, denial: Denial, code: string, now: int, f: Faults, s: Store): (Decision, Store)
  {
    if CodeSave in f.throwing then (Denied(ServerError), s)
    else (Denied(denial), if f.saveQueryFails then s else s.WithPendingCode(u, code, now))
  }

  /** Refresh the stored username and let the player in. */
  function RefreshOutcome(a: Attempt, f: Faults, s: Store): (Decision, Store)
  {
    if UsernameRefresh in f.throwing then (Denied(ServerError), s)
    else (Allowed, s.WithUsername(a.uuid, a.username))
  }

  class LoginListener {
    const db: DatabaseManager
    const config: Config

    constructor(db: DatabaseManager, config: Config)
      ensures this.db == db && this.config == config
    {
      this.db := db;
      this.config := config;
    }

    /** onLogin. `random` is the text of the random UUID generateCode would
        draw; `checker` is the Discord manager's quarantine checker, absent
        while there is no manager or it is not ready. */
    method OnLogin(a: Attempt, checker: Option<QuarantineChecker>, random: string, now: int, f: Faults) returns (d: Decision)
      requires IsCanonicalUuid(random)
      requires checker.Some? ==> checker.value.db == db
      modifies db
      ensures (d, db.State()) == LoginOutcome(config, a, View(checker), GenerateCode(random), now, f, old(db.State()))
    {
      var host := HostString(a.virtualHost);
      if host != "" {
        var i := 0;
        while i < |config.bypassServers|
          invariant 0 <= i <= |config.bypassServers|
          invariant forall j :: 0 <= j < i ==> !Contains(ToLower(host), ToLower(config.bypassServers[j]))
        {
          if Contains(ToLower(host), ToLower(config.bypassServers[i])) {
            return Allowed;
          }
          i := i + 1;
        }
      }

      if LinkCheck in f.throwing {
        return Denied(ServerError);
      }
      var linked := db.IsLinked(a.uuid, f.linkQueryFails);
      if linked {
        if DiscordIdLookup in f.throwing {
          return Denied(ServerError);
        }
        var discordId := db.GetDiscordId(a.uuid);
        if checker.Some? {
          var still := IsDiscordUserStillInServer(checker.value, discordId, f.presenceRosterFails, f.presenceLookupFails);
          if !still {
            var code := GenerateCode(random);
            if CodeSave in f.throwing {
              return Denied(ServerError);
            }
            db.SavePendingCode(a.uuid, code, now, f.saveQueryFails);
            return Denied(Relink(code));
          }
          var quarantined := checker.value.IsQuarantined(discordId.value, f.quarantineRosterFails, f.quarantineLookupFails);
          if quarantined {
            return Denied(Quarantine(config.quarantineMessage));
          }
        }
        if UsernameRefresh in f.throwing {
          return Denied(ServerError);
        }
        db.UpdateUsername(a.uuid, a.username);
        return Allowed;
      } else {
        if DiscordIdLookup in f.throwing {
          return Denied(ServerError);
        }
        var discordId := db.GetDiscordId(a.uuid);
        if discordId.Some? {
          return Denied(ContactAdmin);
        }
        var code := GenerateCode(random);
        if CodeSave in f.throwing {
          return Denied(ServerError);
        }
        db.SavePendingCode(a.uuid, code, now, f.saveQueryFails);
        return Denied(NotLinked(code));
      }
    }

    /** isDiscordUserStillInServer: false for a null id, otherwise the
        checker's answer. */
    method IsDiscordUserStillInServer(checker: QuarantineChecker, discordId: Option<DiscordId>, rosterFails: bool, lookupFails: set<nat>) returns (present: bool)
      requires checker.db == db
      modifies db
      ensures (present, db.State()) == PresenceOutcome(checker.jda.guilds, discordId, rosterFails, lookupFails, old(db.State()))
    {
      if discordId.None? {
        return false;
      }
      present := checker.IsUserStillInDiscord(discordId, rosterFails, lookupFails);
    }
  }

  /** A non-empty virtual host matching a bypass entry is let in whatever the
      store, the checker and the faults: no store call is made. */
  lemma BypassAllows(cfg: Config, a: Attempt, oracle: Option<OracleView>, code: string, now: int, f: Faults, s: Store, i: nat)
    requires HostString(a.virtualHost) != ""
    requires i < |cfg.bypassServers|
    requires Contains(ToLower(HostString(a.virtualHost)), ToLower(cfg.bypassServers[i]))
    ensures LoginOutcome(cfg, a, oracle, code, now, f, s) == (Allowed, s)
  {
  }

  /** An empty virtual host, including an absent one, never bypasses. */
  lemma EmptyHostNeverBypasses(cfg: Config, a: Attempt)
    requires a.virtualHost.None? || a.virtualHost == Some("")
    ensures !BypassMatch(HostString(a.virtualHost), cfg.bypassServers)
  {
  }

  /** An empty string among the bypass entries lets every non-empty host in,
      since every string contains the empty string. */
  lemma EmptyBypassEntryOpensEveryHost(host: string, servers: seq<string>)
    requires host != "" && "" in servers
    ensures BypassMatch(host, servers)
  {
    var i :| 0 <= i < |servers| && servers[i] == "";
    ContainsEmpty(ToLower(host));
    assert ToLower(servers[i]) == "";
  }

  /** A linked player whose Discord user no guild returns (absent everywhere,
      or every request throws) is refused with a freshly saved code that the
      refusal embeds, and the stale link is gone. */
  lemma StaleLinkRotatesCode(cfg: Config, a: Attempt, view: OracleView, code: string, now: int, f: Faults, s: Store)
    requires !BypassMatch(HostString(a.virtualHost), cfg.bypassServers)
    requires Completes(f, {LinkCheck, DiscordIdLookup, CodeSave}) && !f.linkQueryFails && !f.presenceRosterFails
    requires s.IsLinked(a.uuid) && !RetrievedAnywhere(view.guilds, s.linked[a.uuid].discordId, f.presenceLookupFails)
    ensures var (d, s') := LoginOutcome(cfg, a, Some(view), code, now, f, s);
      && d == Denied(Relink(code))
      && !s'.IsLinked(a.uuid) && !s'.Binds(s.linked[a.uuid].discordId)
      && (!f.saveQueryFails ==> a.uuid in s'.pending && s'.pending[a.uuid] == PendingRow(code, now))
  {
    RemoveDeletesExactlyBoundRows(s, s.linked[a.uuid].discordId);
  }

  /** A linked, present player whom the checker reports quarantined is refused
      with the configured message, and nothing is written: in particular the
      username is not refreshed. */
  lemma QuarantinedDenied(cfg: Config, a: Attempt, view: OracleView, code: string, now: int, f: Faults, s: Store)
    requires !BypassMatch(HostString(a.virtualHost), cfg.bypassServers)
    requires Completes(f, {LinkCheck, DiscordIdLookup}) && !f.linkQueryFails && s.IsLinked(a.uuid)
    requires f.presenceRosterFails || RetrievedAnywhere(view.guilds, s.linked[a.uuid].discordId, f.presenceLookupFails)
    requires QuarantineOutcome(view.guilds, view.quarantineRoleId, s.linked[a.uuid].discordId, f.quarantineRosterFails, f.quarantineLookupFails, s).0
    ensures LoginOutcome(cfg, a, Some(view), code, now, f, s) == (Denied(Quarantine(cfg.quarantineMessage)), s)
  {
  }

  /** A quarantine refusal happens only to a linked player whose Discord
      member holds the configured quarantine role. */
  lemma QuarantineDenialMeansRoleHeld(cfg: Config, a: Attempt, oracle: Option<OracleView>, code: string, now: int, f: Faults, s: Store)
    requires LoginOutcome(cfg, a, oracle, code, now, f, s).0.Denied?
    requires LoginOutcome(cfg, a, oracle, code, now, f, s).0.reason.Quarantine?
    ensures oracle.Some? && s.IsLinked(a.uuid) && !f.linkQueryFails
    ensures var role := oracle.value.quarantineRoleId;
      var id := s.linked[a.uuid].discordId;
      role.Some? && exists gi :: 0 <= gi < |oracle.value.guilds| && id in oracle.value.guilds[gi].members && role.value in oracle.value.guilds[gi].members[id]
    ensures LoginOutcome(cfg, a, oracle, code, now, f, s).1 == s
  {
    var id := s.linked[a.uuid].discordId;
    QuarantinedMeansHoldsRole(oracle.value.guilds, oracle.value.quarantineRoleId, id, f.quarantineRosterFails, f.quarantineLookupFails, s);
  }

  /** Without a checker a linked player is let in after the username refresh,
      with no presence or quarantine check. */
  lemma NoCheckerAllowsLinked(cfg: Config, a: Attempt, code: string, now: int, f: Faults, s: Store)
    requires !BypassMatch(HostString(a.virtualHost), cfg.bypassServers)
    requires Completes(f, {LinkCheck, DiscordIdLookup, UsernameRefresh}) && !f.linkQueryFails && s.IsLinked(a.uuid)
    ensures LoginOutcome(cfg, a, None, code, now, f, s) == (Allowed, s.WithUsername(a.uuid, a.username))
    ensures s.WithUsername(a.uuid, a.username).linked[a.uuid].username == Some(a.username)
  {
  }

  /** A Discord error while the presence check enumerates the guilds reads as
      "still there": with the quarantine check failing open as well, a linked
      player is let in whatever the roster holds, even one in no guild. */
  lemma RosterErrorAdmitsLinked(cfg: Config, a: Attempt, view: OracleView, code: string, now: int, f: Faults, s: Store)
    requires !BypassMatch(HostString(a.virtualHost), cfg.bypassServers)
    requires Completes(f, {LinkCheck, DiscordIdLookup, UsernameRefresh}) && !f.linkQueryFails && s.IsLinked(a.uuid)
    requires f.presenceRosterFails && f.quarantineRosterFails
    ensures LoginOutcome(cfg, a, Some(view), code, now, f, s) == (Allowed, s.WithUsername(a.uuid, a.username))
  {
  }

  /** Outside the bypass, a player is let in only when they were linked, every
      store call on the way completed, and, if they are still linked, their
      row now carries the name they logged in with. */
  lemma AllowedOnlyAfterRefresh(cfg: Config, a: Attempt, oracle: Option<OracleView>, code: string, now: int, f: Faults, s: Store)
    requires !BypassMatch(HostString(a.virtualHost), cfg.bypassServers)
    requires LoginOutcome(cfg, a, oracle, code, now, f, s).0 == Allowed
    ensures s.IsLinked(a.uuid) && !f.linkQueryFails
    ensures Completes(f, {LinkCheck, DiscordIdLookup, UsernameRefresh})
    ensures var s' := LoginOutcome(cfg, a, oracle, code, now, f, s).1;
      a.uuid in s'.linked ==> s'.linked[a.uuid].username == Some(a.username)
  {
  }

  /** The "contact an administrator" refusal happens exactly when isLinked's
      query failed for a player who does have a link row, and it writes nothing. */
  lemma ContactAdminOnlyAfterFailedLinkCheck(cfg: Config, a: Attempt, oracle: Option<OracleView>, code: string, now: int, f: Faults, s: Store)
    ensures LoginOutcome(cfg, a, oracle, code, now, f, s).0 == Denied(ContactAdmin) <==>
      && !BypassMatch(HostString(a.virtualHost), cfg.bypassServers)
      && Completes(f, {LinkCheck, DiscordIdLookup})
      && f.linkQueryFails && s.IsLinked(a.uuid)
    ensures LoginOutcome(cfg, a, oracle, code, now, f, s).0 == Denied(ContactAdmin) ==>
      LoginOutcome(cfg, a, oracle, code, now, f, s).1 == s
  {
  }

  /** An unlinked player is refused with a new code, and exactly that code is
      their one pending row; no other row changes. */
  lemma UnlinkedGetsCode(cfg: Config, a: Attempt, oracle: Option<OracleView>, code: string, now: int, f: Faults, s: Store)
    requires !BypassMatch(HostString(a.virtualHost), cfg.bypassServers)
    requires Completes(f, {LinkCheck, DiscordIdLookup, CodeSave}) && !f.saveQueryFails
    requires !s.IsLinked(a.uuid)
    ensures LoginOutcome(cfg, a, oracle, code, now, f, s) == (Denied(NotLinked(code)), s.WithPendingCode(a.uuid, code, now))
  {
  }

  /** The code an unlinked player is shown redeems to that player: when no
      other player holds the same code, every claim of it returns this uuid. */
  lemma UnlinkedCodeRedeemsToPlayer(cfg: Config, a: Attempt, oracle: Option<OracleView>, code: string, now: int, f: Faults, s: Store, r: Option<Uuid>, s'': Store)
    requires !BypassMatch(HostString(a.virtualHost), cfg.bypassServers)
    requires Completes(f, {LinkCheck, DiscordIdLookup, CodeSave}) && !f.saveQueryFails
    requires !s.IsLinked(a.uuid)
    requires forall v :: v in s.pending && v != a.uuid ==> s.pending[v].code != code
    requires Claims(LoginOutcome(cfg, a, oracle, code, now, f, s).1, code, r, s'')
    ensures r == Some(a.uuid)
    ensures s''.pending == s.pending - {a.uuid} && s''.linked == s.linked
  {
    UnlinkedGetsCode(cfg, a, oracle, code, now, f, s);
    SavedCodeClaimsBack(s, a.uuid, code, now, r, s'');
  }

  /** Fail-closed: outside the bypass, an exception from any store call of the
      chain refuses the login. isLinked and getDiscordId are made on every
      path, so their exceptions always give the server error with nothing
      written; savePendingCode and updateUsername are made on some paths
      only, and an exception from them never lets the player in or shows a
      code. A server-error refusal only ever comes from an exception. */
  lemma FailClosed(cfg: Config, a: Attempt, oracle: Option<OracleView>, code: string, now: int, f: Faults, s: Store)
    ensures !BypassMatch(HostString(a.virtualHost), cfg.bypassServers) && LinkCheck in f.throwing ==>
      LoginOutcome(cfg, a, oracle, code, now, f, s) == (Denied(ServerError), s)
    ensures !BypassMatch(HostString(a.virtualHost), cfg.bypassServers) && DiscordIdLookup in f.throwing ==>
      LoginOutcome(cfg, a, oracle, code, now, f, s) == (Denied(ServerError), s)
    ensures !BypassMatch(HostString(a.virtualHost), cfg.bypassServers) && UsernameRefresh in f.throwing ==>
      LoginOutcome(cfg, a, oracle, code, now, f, s).0 != Allowed
    ensures !BypassMatch(HostString(a.virtualHost), cfg.bypassServers) && CodeSave in f.throwing ==>
      var d := LoginOutcome(cfg, a, oracle, code, now, f, s).0;
      !(d.Denied? && (d.reason.NotLinked? || d.reason.Relink?))
    ensures LoginOutcome(cfg, a, oracle, code, now, f, s).0 == Denied(ServerError) ==> f.throwing != {}
  {
  }

  /** As written, a linked player who is in some guild but not in the guild
      that holds the quarantine role passes the presence check, is unlinked by
      the quarantine check, and is still let in. */
  lemma OutsideQuarantineGuildUnlinkedButAllowed(cfg: Config, a: Attempt, view: OracleView, code: string, now: int, s: Store, gi: nat)
    requires !BypassMatch(HostString(a.virtualHost), cfg.bypassServers)
    requires s.IsLinked(a.uuid)
    requires !NullOrBlank(view.quarantineRoleId)
    requires FirstRoleGuild(view.guilds, view.quarantineRoleId.value) == Some(gi)
    requires s.linked[a.uuid].discordId !in view.guilds[gi].members
    requires InAnyGuild(view.guilds, s.linked[a.uuid].discordId)
    ensures var (d, s') := LoginOutcome(cfg, a, Some(view), code, now, NoFaults, s);
      d == Allowed && !s'.IsLinked(a.uuid) && s' == s.WithoutDiscordId(s.linked[a.uuid].discordId)
  {
    RetrievedWithoutFailures(view.guilds, s.linked[a.uuid].discordId);
  }

  /** As written, a quarantined player is let in when the member request in
      the role's guild throws: the quarantine check reads the failure as
      "not a member", deletes the link and answers "not quarantined", though
      the member holds the role. */
  lemma QuarantinedLetInOnLookupFailure(cfg: Config, a: Attempt, view: OracleView, code: string, now: int, s: Store, gi: nat)
    requires !BypassMatch(HostString(a.virtualHost), cfg.bypassServers)
    requires s.IsLinked(a.uuid)
    requires !NullOrBlank(view.quarantineRoleId)
    requires FirstRoleGuild(view.guilds, view.quarantineRoleId.value) == Some(gi)
    requires s.linked[a.uuid].discordId in view.guilds[gi].members
    requires view.quarantineRoleId.value in view.guilds[gi].members[s.linked[a.uuid].discordId]
    ensures var (d, s') := LoginOutcome(cfg, a, Some(view), code, now, NoFaults.(quarantineLookupFails := {gi}), s);
      d == Allowed && !s'.IsLinked(a.uuid) && s' == s.WithoutDiscordId(s.linked[a.uuid].discordId)
  {
    assert Retrieves(view.guilds, gi, s.linked[a.uuid].discordId, {});
  }

  /** A Discord outage logs a linked player out of their link: a player whose
      member is in the guilds, but for whom every member request of the
      presence check throws, is refused with a new code and their link is
      deleted, exactly as if they had left Discord. */
  lemma LookupOutageRelinksPresentPlayer(cfg: Config, a: Attempt, view: OracleView, code: string, now: int, f: Faults, s: Store)
    requires !BypassMatch(HostString(a.virtualHost), cfg.bypassServers)
    requires Completes(f, {LinkCheck, DiscordIdLookup, CodeSave}) && !f.linkQueryFails && !f.presenceRosterFails
    requires s.IsLinked(a.uuid) && InAnyGuild(view.guilds, s.linked[a.uuid].discordId)
    requires forall j :: 0 <= j < |view.guilds| ==> j in f.presenceLookupFails
    ensures var (d, s') := LoginOutcome(cfg, a, Some(view), code, now, f, s);
      && d == Denied(Relink(code))
      && !s'.IsLinked(a.uuid) && !s'.Binds(s.linked[a.uuid].discordId)
  {
    StaleLinkRotatesCode(cfg, a, view, code, now, f, s);
  }
}
