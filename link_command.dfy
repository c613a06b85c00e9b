/** The /link slash command: a player types the code they were shown at login;
    the handler acknowledges first, then consumes the code and binds the
    invoking Discord user to the code's uuid. */
module LinkCommand {
  import opened Common
  import opened DiscordModel
  import opened LinkStore
  import opened Checker
  import opened Login

  /** The kind of follow-up message the handler sends. */
  datatype LinkReply = NoReply | InvalidCode | AlreadyLinked | Linked

  /** Which of the two store calls throws, as inputs. Neither call is guarded,
      so an exception leaves the handler with no follow-up message. A call
      that throws changes nothing itself, but a claim made before a throwing
      addLink stays made. */
  datatype LinkFaults = LinkFaults(claimThrows: bool, addLinkThrows: bool)

  /** Neither store call throws. */
  const NoLinkFaults := LinkFaults(false, false)

  /** The event is a /link command carrying its code option. */
  predicate IsLinkCommand(ev: SlashCommand)
  {
    ev.name == "link" && ev.option.Some?
  }

  /** One handled /link as a relation between the store before and after:
      the claim either finds no row holding the code, or consumes one row; the
      link is then added unless the uuid or the Discord user is already bound,
      in which case the consumed code stays consumed. A throwing claim ends the
      handler silently with nothing changed; a throwing addLink ends it
      silently after the claim has consumed the row. */
  ghost predicate LinkStep(s: Store, code: string, userId: DiscordId, lf: LinkFaults, reply: LinkReply, s': Store)
  {
    match reply
    case NoReply =>
      || (lf.claimThrows && s' == s)
      || (!lf.claimThrows && lf.addLinkThrows && exists u :: u in s.pending && Claims(s, code, Some(u), s'))
    case InvalidCode => !lf.claimThrows && Claims(s, code, None, s')
    case AlreadyLinked =>
      !lf.claimThrows && !lf.addLinkThrows &&
      exists u :: u in s.pending && Claims(s, code, Some(u), s') && !s.CanLink(u, userId)
    case Linked =>
      !lf.claimThrows && !lf.addLinkThrows &&
      exists u :: u in s.pending && s.pending[u].code == code && s.CanLink(u, userId) &&
        s' == s.(pending := s.pending - {u}).WithLink(u, userId)
  }

  class LinkCommandListener {
    const db: DatabaseManager

    constructor(db: DatabaseManager)
      ensures this.db == db
    {
      this.db := db;
    }

    /** onSlashCommandInteraction for /link. `deferOk` is whether the blocking
        deferReply succeeded; on failure the handler returns before any store
        work. `lf` says which of the unguarded store calls throws. */
    method OnSlashCommand(ev: SlashCommand, deferOk: bool, lf: LinkFaults) returns (reply: LinkReply)
      modifies db
      ensures !(IsLinkCommand(ev) && deferOk) ==> reply == NoReply && db.State() == old(db.State())
      ensures IsLinkCommand(ev) && deferOk ==> LinkStep(old(db.State()), ev.option.value, ev.userId, lf, reply, db.State())
    {
      if ev.name != "link" {
        return NoReply;
      }
      if ev.option.None? {
        // getOption("code").getAsString() throws before anything is sent
        return NoReply;
      }
      var code := ev.option.value;
      if !deferOk {
        return NoReply;
      }
      if lf.claimThrows {
        return NoReply;
      }
      var uuid := db.ClaimPending(code);
      if uuid.None? {
        return InvalidCode;
      }
      if lf.addLinkThrows {
        return NoReply;
      }
      ghost var claimed := db.State();
      var added := db.AddLink(uuid.value, ev.userId);
      if !added {
        assert claimed == db.State();
        return AlreadyLinked;
      }
      return Linked;
    }
  }

  /** "Linked" is reported only when both the claim and addLink succeeded: the
      code's row is consumed and the user is now bound to its uuid. */
  lemma LinkedMeansBound(s: Store, code: string, userId: DiscordId, lf: LinkFaults, s': Store)
    requires LinkStep(s, code, userId, lf, Linked, s')
    ensures exists u ::
      && u in s.pending && s.pending[u].code == code && u !in s'.pending
      && u in s'.linked && s'.linked[u].discordId == userId
    ensures s'.Binds(userId) && !s.Binds(userId)
  {
    var u :| u in s.pending && s.pending[u].code == code && s.CanLink(u, userId) &&
      s' == s.(pending := s.pending - {u}).WithLink(u, userId);
    assert u in s'.linked && s'.linked[u].discordId == userId;
  }

  /** An invalid code changes nothing; "already linked" changes no link row. */
  lemma FailedLinkKeepsLinks(s: Store, code: string, userId: DiscordId, lf: LinkFaults, reply: LinkReply, s': Store)
    requires LinkStep(s, code, userId, lf, reply, s')
    requires reply == InvalidCode || reply == AlreadyLinked
    ensures s'.linked == s.linked
    ensures reply == InvalidCode ==> s' == s && !s.HoldsCode(code)
  {
  }

  /** Every /link keeps discord ids unique. */
  lemma LinkKeepsDiscordIdsUnique(s: Store, code: string, userId: DiscordId, lf: LinkFaults, reply: LinkReply, s': Store)
    requires UniqueDiscordIds(s)
    requires LinkStep(s, code, userId, lf, reply, s')
    ensures UniqueDiscordIds(s')
  {
    if reply == Linked {
      var u :| u in s.pending && s.pending[u].code == code && s.CanLink(u, userId) &&
        s' == s.(pending := s.pending - {u}).WithLink(u, userId);
      StepsKeepDiscordIdsUnique(s.(pending := s.pending - {u}), u, userId, "", code, 0);
    }
  }

  /** An exception from addLink uses the code up: the handler sends nothing,
      no link row changes, and a row holding the code has been consumed, so
      a code that no other uuid held can no longer be redeemed. An exception
      from claimPending changes nothing. */
  lemma ThrowingAddLinkBurnsCode(s: Store, code: string, userId: DiscordId, lf: LinkFaults, reply: LinkReply, s': Store)
    requires LinkStep(s, code, userId, lf, reply, s')
    ensures lf.claimThrows ==> reply == NoReply && s' == s
    ensures !lf.claimThrows && lf.addLinkThrows && s.HoldsCode(code) ==>
      && reply == NoReply && s'.linked == s.linked
      && exists u :: u in s.pending && s.pending[u].code == code && s'.pending == s.pending - {u}
    ensures !lf.claimThrows && lf.addLinkThrows && (forall u, v :: u in s.pending && v in s.pending && s.pending[u].code == code && s.pending[v].code == code ==> u == v) ==>
      !s'.HoldsCode(code)
  {
    if !lf.claimThrows && lf.addLinkThrows && reply == NoReply {
      var u :| u in s.pending && Claims(s, code, Some(u), s');
      forall v | v in s'.pending ensures s'.pending[v].code != code || exists x :: x in s.pending && x != u && s.pending[x].code == code {
        assert v != u && v in s.pending;
      }
    }
  }

  /** The whole protocol for a new player: the first login is refused with a
      code; /link with that code by a Discord user who is not yet bound and who
      is in a guild succeeds; the next login is let in (unless the user is then
      quarantined). */
  lemma LoginLinkLogin(cfg: Config, a: Attempt, view: OracleView, random: string, now: int, s: Store,
                       userId: DiscordId, reply: LinkReply, s2: Store, code2: string, now2: int)
    requires IsCanonicalUuid(random)
    requires !BypassMatch(HostString(a.virtualHost), cfg.bypassServers)
    requires !s.IsLinked(a.uuid) && !s.Binds(userId)
    requires forall v :: v in s.pending && v != a.uuid ==> s.pending[v].code != GenerateCode(random)
    requires LinkStep(LoginOutcome(cfg, a, Some(view), GenerateCode(random), now, NoFaults, s).1, GenerateCode(random), userId, NoLinkFaults, reply, s2)
    requires InAnyGuild(view.guilds, userId)
    requires !QuarantineOutcome(view.guilds, view.quarantineRoleId, userId, false, {}, s2).0
    ensures LoginOutcome(cfg, a, Some(view), GenerateCode(random), now, NoFaults, s).0 == Denied(NotLinked(GenerateCode(random)))
    ensures reply == Linked
    ensures s2.IsLinked(a.uuid) && s2.linked[a.uuid].discordId == userId
    ensures LoginOutcome(cfg, a, Some(view), code2, now2, NoFaults, s2).0 == Allowed
  {
    var code := GenerateCode(random);
    RetrievedWithoutFailures(view.guilds, userId);
    var s1 := s.WithPendingCode(a.uuid, code, now);
    UnlinkedGetsCode(cfg, a, Some(view), code, now, NoFaults, s);
    assert a.uuid in s1.pending && s1.pending[a.uuid].code == code;
    assert s1.HoldsCode(code);
    forall v | v in s1.pending && s1.pending[v].code == code ensures v == a.uuid && s1.CanLink(v, userId) {
    }
    assert reply == Linked;
    var u :| u in s1.pending && s1.pending[u].code == code && s1.CanLink(u, userId) &&
      s2 == s1.(pending := s1.pending - {u}).WithLink(u, userId);
    assert u == a.uuid;
  }
}
