# Sentinel: login gate and account linking, modelled in Dafny

Sentinel is a Velocity proxy plugin that gates Minecraft logins on Discord.
Outside the bypass virtual hosts, it admits a player only when their account
is linked to a Discord user who is still in the community's Discord guilds
and does not hold the quarantine role. That rule has fail-open exceptions,
each stated by a lemma below:

- a bypass host admits anyone (`BypassAllows`);
- before the Discord bot is ready there is no checker, and a linked player is
  let in unchecked (`NoCheckerAllowsLinked`);
- a roster error in the presence check answers "still there"
  (`RosterErrorAdmitsLinked`);
- the quarantine check answers "not quarantined" when no guild has the role or
  Discord errs (`QuarantineFailsOpen`);
- a player whose link the quarantine check has just deleted is still let in:
  one missing from the role's guild (`OutsideQuarantineGuildUnlinkedButAllowed`),
  and one who holds the role but whose member request there throws
  (`QuarantinedLetInOnLookupFailure`).

The pieces modelled here are:

- An unlinked player is refused at login with a six-character code.
- Typing `/link <code>` in Discord binds the player's uuid to that Discord user.
- Staff can toggle the quarantine role with `/quarantine <user>`. Adding the
  role kicks the player off the proxy.
- When a linked Discord user can no longer be found, the link is deleted.

The external services become data:

- **Link store.** The `linked_accounts` and `pending_links` tables are two
  maps keyed by uuid, held in the `DatabaseManager` class.
- **Discord roster.** The guilds the bot is in form a sequence in `getGuilds`
  order. Each guild holds its role ids and its members with their role sets,
  and lives in the `Jda` class.
- **Proxy session directory.** A set of online uuids plus the list of forced
  disconnects, held in `ProxyServer`.

Several inputs are parameters of the operations:

- exceptions and SQL failures;
- the success or failure of asynchronous Discord calls;
- the random UUID behind a link code;
- the clock.

Modules:

- `Common`: `Option`, plus Java's `isBlank`, case mapping and `contains` on strings.
- `DiscordModel`: guilds, slash-command events, `Jda`, the first-guild-with-role search and the role toggle.
- `LinkStore`: the two tables, `DatabaseManager` and its operations.
- `Checker`: `QuarantineChecker` (isQuarantined, isUserStillInDiscord).
- `Login`: `LoginListener` (onLogin, isDiscordUserStillInServer, generateCode).
- `LinkCommand`: the `/link` handler.
- `QuarantineCommand`: the `/quarantine` handler, the staff check, target parsing and the kick.

The methods that change state are specified in one of two ways:

- **By an outcome function.** `onLogin`, `isQuarantined`,
  `isUserStillInDiscord` and the deterministic store steps are tied to a
  function of the old state, `(result, db.State()) == Outcome(..., old(db.State()))`.
  The lemmas state the behaviour of those functions.
- **By a ghost relation.** Where the source leaves a choice open, the method
  is tied to a relation that every admissible result satisfies:
  - `Claims` for `claimPending`, which picks some row holding the code;
  - `LinkStep` for the `/link` handler, built on `Claims`;
  - `KickEffect` for `kickPlayerIfOnline`, which disconnects some player bound
    to the discord id. The `/quarantine` handler uses it after adding the role.
  - `FindByUsername` and `FindByDiscordId` return some matching row, which
    their postconditions characterize.

Member lookups in Discord can fail for a member who is present (an HTTP
error, a rate limit, a timeout). The model takes the set of guilds whose
request throws as an input, and the source reads such a failure as "left
Discord".

## Model

| member | source | states |
|---|---|---|
| Common.ContainsIffOccurs | src/main/java/com/confect1on/sentinel/listener/LoginListener.java:41 | `contains` holds exactly when the needle occurs at some index of the host string |
| DiscordModel.FirstRoleGuild | src/main/java/com/confect1on/sentinel/discord/QuarantineChecker.java:43-50 | the chosen index names a guild that has the role |
| DiscordModel.FirstRoleGuildIsFirst | src/main/java/com/confect1on/sentinel/discord/QuarantineChecker.java:43-55 | the target guild is the first in order with the role; there is none exactly when no guild has it |
| DiscordModel.FirstRoleGuildLocal | src/main/java/com/confect1on/sentinel/discord/QuarantineChecker.java:43-50 | only the guilds up to the first match decide which guild is chosen |
| DiscordModel.RolesUnchangedSameFirst | src/main/java/com/confect1on/sentinel/discord/QuarantineCommandListener.java:79-86 | rosters with the same role lists choose the same target guild |
| DiscordModel.RetrievedWithoutFailures | src/main/java/com/confect1on/sentinel/discord/QuarantineChecker.java:97-104 | when no request throws, some member lookup succeeds exactly when the user is a member of some guild |
| DiscordModel.FindRoleGuild | src/main/java/com/confect1on/sentinel/discord/QuarantineCommandListener.java:79-86 | the loop with `break` finds exactly the first guild with the role |
| DiscordModel.Jda.AddRoleToMember | src/main/java/com/confect1on/sentinel/discord/QuarantineCommandListener.java:143 | after a successful grant, the member's role set is the old one plus the role; nothing else changes |
| DiscordModel.Jda.RemoveRoleFromMember | src/main/java/com/confect1on/sentinel/discord/QuarantineCommandListener.java:131 | after a successful revocation, the member's role set is the old one minus the role; nothing else changes |
| DiscordModel.ToggleTwiceRestores | src/main/java/com/confect1on/sentinel/discord/QuarantineCommandListener.java:127-156 | two successful toggles of the same member restore the roster |
| DiscordModel.ToggleKeepsRoleGuild | src/main/java/com/confect1on/sentinel/discord/QuarantineCommandListener.java:127-156 | a toggle changes no guild's role list, so the next command targets the same guild |
| LinkStore.DatabaseManager.IsLinked | src/main/java/com/confect1on/sentinel/db/DatabaseManager.java:73-85 | true iff a `linked_accounts` row exists for the uuid and the query did not fail; a failure reads as "not linked" |
| LinkStore.DatabaseManager.SavePendingCode | src/main/java/com/confect1on/sentinel/db/DatabaseManager.java:87-103 | upsert of the uuid's pending row; a failure is swallowed and leaves both tables unchanged |
| LinkStore.DatabaseManager.ClaimPending | src/main/java/com/confect1on/sentinel/discord/LinkCommandListener.java:49-53 | assumed: returns some uuid whose pending row holds the code and deletes that row, or null with no change when no row holds it |
| LinkStore.DatabaseManager.AddLink | src/main/java/com/confect1on/sentinel/discord/LinkCommandListener.java:54-57 | assumed: inserts and returns true iff the uuid is unlinked and the discord id unbound; otherwise no change |
| LinkStore.DatabaseManager.GetDiscordId | src/main/java/com/confect1on/sentinel/listener/LoginListener.java:52 | assumed: the bound discord id, null exactly when the uuid has no row |
| LinkStore.DatabaseManager.FindByUsername | src/main/java/com/confect1on/sentinel/discord/QuarantineCommandListener.java:105-111 | assumed: some row carrying that username, empty exactly when none does |
| LinkStore.DatabaseManager.FindByDiscordId | src/main/java/com/confect1on/sentinel/discord/QuarantineCommandListener.java:202-206 | assumed: some row bound to that id, empty exactly when none is |
| LinkStore.DatabaseManager.RemoveLinkByDiscordId | src/main/java/com/confect1on/sentinel/discord/QuarantineChecker.java:70 | assumed: deletes every row bound to the id and reports whether there was one |
| LinkStore.DatabaseManager.UpdateUsername | src/main/java/com/confect1on/sentinel/listener/LoginListener.java:86 | assumed: sets the username of the uuid's row, if it has one |
| LinkStore.SavePendingCodeUpserts | src/main/java/com/confect1on/sentinel/db/DatabaseManager.java:87-99 | after a save, the uuid's code is the new one whether or not a row existed; other uuids' rows and `linked_accounts` are untouched |
| LinkStore.SavePendingCodeLastWins | src/main/java/com/confect1on/sentinel/db/DatabaseManager.java:88-92 | repeated saves leave exactly one row, holding the last code |
| LinkStore.RemoveDeletesExactlyBoundRows | src/main/java/com/confect1on/sentinel/discord/QuarantineChecker.java:68-75 | the unlink leaves no row bound to the id, keeps every other row, and leaves pending codes alone |
| LinkStore.StepsKeepDiscordIdsUnique | src/main/java/com/confect1on/sentinel/db/DatabaseManager.java:49-54 | the schema does not make `discord_id` unique; every store step the listeners take keeps it unique anyway |
| LinkStore.SavedCodeClaimsBack | src/main/java/com/confect1on/sentinel/listener/LoginListener.java:103-105 | a saved code that no other uuid holds can be claimed only by its owner, consuming only that row |
| LinkStore.ClaimIsOnce | src/main/java/com/confect1on/sentinel/discord/LinkCommandListener.java:49-53 | once claimed, a code held by no other uuid cannot be claimed again |
| Checker.PresenceOutcome | src/main/java/com/confect1on/sentinel/discord/QuarantineChecker.java:90-117 | "still in Discord" is answered only for a non-null id and never together with a store change |
| Checker.QuarantineOutcome | src/main/java/com/confect1on/sentinel/discord/QuarantineChecker.java:33-81 | "quarantined" is never answered together with a store change |
| Checker.QuarantineChecker.IsQuarantined | src/main/java/com/confect1on/sentinel/discord/QuarantineChecker.java:33-81 | the answer and the new store are those of QuarantineOutcome on the old store |
| Checker.QuarantineChecker.IsUserStillInDiscord | src/main/java/com/confect1on/sentinel/discord/QuarantineChecker.java:90-117 | the answer and the new store are those of PresenceOutcome on the old store |
| Checker.QuarantineDisabledWithoutRole | src/main/java/com/confect1on/sentinel/discord/QuarantineChecker.java:33-36 | a null or blank role id means never quarantined, and the store is untouched |
| Checker.QuarantineFailsOpen | src/main/java/com/confect1on/sentinel/discord/QuarantineChecker.java:52-55 | no guild with the role, or an outer error, means not quarantined, and the store is untouched |
| Checker.QuarantineFirstGuildDecides | src/main/java/com/confect1on/sentinel/discord/QuarantineChecker.java:57-75 | the member lookup in the target guild succeeds: the answer is exactly whether they hold the role, with no store change. It fails (member missing, or the request throws): unlinked, and the answer is false |
| Checker.QuarantineConsultsOnlyTargetGuild | src/main/java/com/confect1on/sentinel/discord/QuarantineChecker.java:58-75 | only the target guild's members are consulted |
| Checker.QuarantinedMeansHoldsRole | src/main/java/com/confect1on/sentinel/discord/QuarantineChecker.java:59-66 | "quarantined" implies a configured role, no error, and a guild where the member holds the role |
| Checker.PresenceUnlinksOnlyTheAbsent | src/main/java/com/confect1on/sentinel/discord/QuarantineChecker.java:90-116 | a member lookup succeeds in some guild, or the roster fails: true with no store change. No lookup succeeds (missing or throwing everywhere): false, and no row binds the id |
| Checker.LookupFailureUnlinksPresentMember | src/main/java/com/confect1on/sentinel/discord/QuarantineChecker.java:58-75 | a member present in the guilds whose requests throw is unlinked and answered false: by the presence check when every guild throws, by the quarantine check when the role's guild throws |
| Checker.AbsentEverywhere | src/main/java/com/confect1on/sentinel/discord/QuarantineChecker.java:68-75 | a user in no guild is reported absent and not quarantined by both methods, whichever requests throw, and both unlink them |
| Login.GenerateCode | src/main/java/com/confect1on/sentinel/listener/LoginListener.java:137-139 | six upper-case hex digits, equal up to case to the first six characters of the random UUID |
| Login.LoginListener.OnLogin | src/main/java/com/confect1on/sentinel/listener/LoginListener.java:29-119 | the decision and the new store are those of the rule chain LoginOutcome |
| Login.LoginListener.IsDiscordUserStillInServer | src/main/java/com/confect1on/sentinel/listener/LoginListener.java:125-135 | false for a null id; otherwise the checker's presence answer and store change |
| Login.BypassAllows | src/main/java/com/confect1on/sentinel/listener/LoginListener.java:39-48 | a non-empty host whose lower-case form contains a lower-cased bypass entry is allowed, and the store is untouched |
| Login.EmptyHostNeverBypasses | src/main/java/com/confect1on/sentinel/listener/LoginListener.java:34-39 | an absent or empty virtual host never bypasses |
| Login.EmptyBypassEntryOpensEveryHost | src/main/java/com/confect1on/sentinel/listener/LoginListener.java:39-41 | an empty bypass entry matches every non-empty host |
| Login.StaleLinkRotatesCode | src/main/java/com/confect1on/sentinel/listener/LoginListener.java:57-73 | linked, but no guild returns the member (missing, or the request throws): denied with the code just saved as the uuid's pending code, and the stale link is gone |
| Login.QuarantinedDenied | src/main/java/com/confect1on/sentinel/listener/LoginListener.java:76-82 | linked, present and quarantined: denied with the configured message and nothing written (no username refresh) |
| Login.QuarantineDenialMeansRoleHeld | src/main/java/com/confect1on/sentinel/listener/LoginListener.java:76-82 | a quarantine denial implies a linked player whose member holds the quarantine role |
| Login.NoCheckerAllowsLinked | src/main/java/com/confect1on/sentinel/listener/LoginListener.java:55-89 | without a checker, a linked player is allowed after the username refresh, with no presence or quarantine check |
| Login.RosterErrorAdmitsLinked | src/main/java/com/confect1on/sentinel/discord/QuarantineChecker.java:113-116 | a roster error in the presence check answers "still there"; with the quarantine check also failing open, a linked player is let in after the username refresh whatever the roster holds |
| Login.AllowedOnlyAfterRefresh | src/main/java/com/confect1on/sentinel/listener/LoginListener.java:86-89 | outside the bypass, "allowed" implies linked, every store call completed, and the row carries the login name |
| Login.ContactAdminOnlyAfterFailedLinkCheck | src/main/java/com/confect1on/sentinel/listener/LoginListener.java:92-101 | the administrator denial happens iff isLinked's query failed for a player who has a row; nothing is written |
| Login.UnlinkedGetsCode | src/main/java/com/confect1on/sentinel/listener/LoginListener.java:103-111 | unlinked, no stray id: denied with the new code, which is saved as the uuid's one pending row |
| Login.UnlinkedCodeRedeemsToPlayer | src/main/java/com/confect1on/sentinel/listener/LoginListener.java:103-111 | the code shown redeems to that player when no one else holds it |
| Login.FailClosed | src/main/java/com/confect1on/sentinel/listener/LoginListener.java:113-118 | outside the bypass, an exception from isLinked or getDiscordId denies with a server error and writes nothing; one from updateUsername never allows; one from savePendingCode never shows a code; a server error arises only from an exception |
| Login.LookupOutageRelinksPresentPlayer | src/main/java/com/confect1on/sentinel/listener/LoginListener.java:57-72 | a linked player who is in the guilds, but for whom every presence request throws, is denied with a new code and loses the link |
| Login.OutsideQuarantineGuildUnlinkedButAllowed | src/main/java/com/confect1on/sentinel/listener/LoginListener.java:57-89 | a linked user in some guild but absent from the quarantine-role guild is unlinked by the quarantine check and still allowed |
| Login.QuarantinedLetInOnLookupFailure | src/main/java/com/confect1on/sentinel/discord/QuarantineChecker.java:57-75 | a linked player whose member holds the quarantine role is let in, and unlinked, when the member request in the role's guild throws |
| LinkCommand.LinkCommandListener.OnSlashCommand | src/main/java/com/confect1on/sentinel/discord/LinkCommandListener.java:34-61 | other commands, a missing option or a failed deferral: no reply and no store change. Otherwise the claim-then-addLink step `LinkStep`, in which a throwing claimPending or addLink ends the handler with no reply |
| LinkCommand.LinkedMeansBound | src/main/java/com/confect1on/sentinel/discord/LinkCommandListener.java:54-60 | success is reported only when the code's row was consumed and the user, previously unbound, is now bound to its uuid |
| LinkCommand.FailedLinkKeepsLinks | src/main/java/com/confect1on/sentinel/discord/LinkCommandListener.java:49-57 | an invalid code changes nothing; "already linked" changes no link row |
| LinkCommand.LinkKeepsDiscordIdsUnique | src/main/java/com/confect1on/sentinel/discord/LinkCommandListener.java:49-60 | every `/link` keeps each discord id bound to at most one uuid |
| LinkCommand.ThrowingAddLinkBurnsCode | src/main/java/com/confect1on/sentinel/discord/LinkCommandListener.java:49-57 | the store calls are not guarded: a throwing claimPending ends the handler with no reply and no change; a throwing addLink ends it with no reply after consuming a row holding the code, so no link row changes and a code no one else held is gone |
| LinkCommand.LoginLinkLogin | src/main/java/com/confect1on/sentinel/discord/LinkCommandListener.java:49-60 | first login denied with a code; `/link` with it binds the user; the next login is allowed unless the user is quarantined |
| QuarantineCommand.ProxyServer.Disconnect | src/main/java/com/confect1on/sentinel/discord/QuarantineCommandListener.java:209-213 | the player leaves the online set and one disconnect with the message is recorded |
| QuarantineCommand.StripConcat | src/main/java/com/confect1on/sentinel/discord/QuarantineCommandListener.java:99 | stripping mention characters distributes over concatenation |
| QuarantineCommand.StripRemovesExactlyMentionChars | src/main/java/com/confect1on/sentinel/discord/QuarantineCommandListener.java:99 | the stripped id holds no `<`, `@`, `!`, `>`, and text without them is unchanged |
| QuarantineCommand.MentionRoundTrip | src/main/java/com/confect1on/sentinel/discord/QuarantineCommandListener.java:97-99 | both `<@id>` and `<@!id>` parse back to the mention of `id` |
| QuarantineCommand.MinecraftNameIsUsername | src/main/java/com/confect1on/sentinel/discord/QuarantineCommandListener.java:100-102 | a name of letters, digits and underscores is always looked up as a username |
| QuarantineCommand.NoStaffRolesNoPermission | src/main/java/com/confect1on/sentinel/discord/QuarantineCommandListener.java:165-180 | a null or empty staff list, or no guild or member, means no permission |
| QuarantineCommand.QuarantineCommandListener.HasStaffPermission | src/main/java/com/confect1on/sentinel/discord/QuarantineCommandListener.java:165-193 | true iff the staff list is non-empty, there is a guild and member, and some non-blank staff id names a guild role the member holds |
| QuarantineCommand.QuarantineCommandListener.OnSlashCommand | src/main/java/com/confect1on/sentinel/discord/QuarantineCommandListener.java:48-163 | the replies in source order: ignored, not configured, no permission, user required, deferral failed, role not found, no linked account, error, user not found (member missing or the request throws), toggled or failed. The roster changes only by a successful toggle in the first role guild, a kick follows only a successful add, and the store is never written |
| QuarantineCommand.QuarantineCommandListener.KickPlayerIfOnline | src/main/java/com/confect1on/sentinel/discord/QuarantineCommandListener.java:199-221 | on an error, with no bound row, or with an offline player: no change. Otherwise the bound player is disconnected once with the quarantine message |
| QuarantineCommand.KickHitsOnlyTheBoundPlayer | src/main/java/com/confect1on/sentinel/discord/QuarantineCommandListener.java:202-217 | with unique discord ids, kickPlayerIfOnline's effect is determined: the bound player is disconnected once with the quarantine message if online, and nothing changes if not |
| QuarantineCommand.ToggleFlipsQuarantine | src/main/java/com/confect1on/sentinel/discord/QuarantineCommandListener.java:127-156 | a successful toggle inverts the checker's answer for that member, and the store is untouched |
| QuarantineCommand.QuarantineThenLoginRefused | src/main/java/com/confect1on/sentinel/discord/QuarantineCommandListener.java:141-150 | after `/quarantine` adds the role to a linked player's member, their next login is refused with the quarantine message |

## Left out

- **JDBC and the Hikari pool.** Connection setup, table creation and timeouts
  (`DatabaseManager.java:17-71, 105-107`) are out. SQL failures appear only as
  the flags `linkQueryFails` and `saveQueryFails`.
- **Store operations without bodies.** `claimPending`, `addLink`,
  `getDiscordId`, `findByUsername`, `findByDiscordId`, `removeLinkByDiscordId`
  and `updateUsername` are called by the listeners, but `DatabaseManager.java`
  defines only `isLinked` and `savePendingCode`. The others carry assumed
  single-step map meanings, stated on each method. No atomicity of the
  claim and no storage-level uniqueness of `discord_id` is claimed beyond
  that.
- **Concurrency, JDA `.queue` callbacks, deferral timing, the 3-second deadline.**
  The model is sequential. The outcome of each asynchronous call is an input:
  `deferOk`, `roleChangeOk`, and which lookups throw.
- **Message text, emoji and logging.** Only the kind of reply is modelled,
  plus the embedded code or quarantine message.
- **Sentinel.java, DiscordManager.java and SentinelConfig.java.** Bootstrap,
  command registration and config defaults are out. The checker's existence
  after `onReady` appears as an optional checker argument. Bypass hosts,
  quarantine message, role ids and staff ids are parameters.
- **RoleManager and WhoIsCommandListener** are not part of this model.
- **Randomness and the clock.** `UUID.randomUUID` becomes a parameter holding
  the UUID's canonical text. `Instant.now()` becomes an integer `now`.
  No code path in the repository reads `created_at`.
- **Case mapping.** `toLowerCase` and `toUpperCase` map ASCII letters only.
  Locale and non-ASCII case mappings are not modelled.
- **Snowflake parsing.** `getRoleById` and `retrieveMemberById` on a
  non-numeric id throw in JDA. The model treats every id as well-formed.
  A throw inside `hasStaffPermission` would escape the handler; that is not
  modelled. Failing member requests are modelled, as a set of guilds whose
  request throws.
- **The username column.** The `linked_accounts` definition in `initTables`
  has no username column, yet `updateUsername` and `findByUsername` use one.
  The model keeps an optional username per row.
- **Uniqueness of discord ids.** The table definition does not make
  `discord_id` unique. `UniqueDiscordIds` holds only because every insert goes
  through the assumed `addLink` check.
- **The linked-role grant after `/link`.** `DiscordManager.java:68-69`
  calls `linkListener.setRoleManager(roleManager)` so that new links get a
  role. `LinkCommandListener.java` has no such method and grants no role.
  The repository does not compile as it stands here, nor at `Sentinel.java:43`,
  which calls a two-argument `LoginListener` constructor that
  `LoginListener.java` does not declare. The model follows
  `LinkCommandListener.java`.
- **Code collisions.** A code may be held by several uuids. Which row
  `claimPending` then takes is left open, and the lemmas about redeeming a
  code assume that no other uuid holds it.
- **No code expiry.** The reply at `LinkCommandListener.java:51` speaks of an
  "invalid or expired code", but `DatabaseManager.java` does not define
  `claimPending`. The assumed `claimPending` does not check a code's age.
- QuarantineCommand.QuarantineCommandListener.OnSlashCommand: an exception
  from the role lookup inside the deferred callback (the `catch` at
  `QuarantineCommandListener.java:158-161`) is modelled only for the username
  lookup. A malformed role id that throws there is not modelled.
