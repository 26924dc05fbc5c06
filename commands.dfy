/** The two administrative commands that touch the onboarding state: deleting
    a welcome channel, and the helper count reported by the status command. */
module Commands {
  import opened Options
  import opened Snapshot
  import opened Naming
  import opened Helpers
  import opened Onboarding

  datatype Channel = Channel(id: nat, name: string)

  /** `Deleted(c, announced)`: channel `c` is deleted, and a confirmation is sent
      to the invoking channel when `announced`. `Refused`: nothing is deleted and
      the refusal message is sent. */
  datatype DeleteReply = Deleted(channel: Channel, announced: bool) | Refused

  /** The channel the command is about: the one with the given id if a truthy id
      was passed (`bot.get_channel` answers from `known`, the channels of every
      guild the bot is in, not only the invoking one; an id of 0 counts
      as no id), otherwise the channel the command was typed in. */
  function CommandTarget(channelId: Option<int>, known: map<int, Channel>, current: Channel): (r: Option<Channel>)
    ensures channelId.None? || channelId == Some(0) ==> r == Some(current)
    ensures channelId.Some? && channelId.value != 0 ==> (r.Some? <==> channelId.value in known)
    ensures channelId.Some? && channelId.value != 0 && channelId.value in known ==>
              r == Some(known[channelId.value])
  {
    if channelId.Some? && channelId.value != 0 then
      if channelId.value in known then Some(known[channelId.value]) else None
    else Some(current)
  }

  /** The `채널삭제` command: only a channel that exists and carries the welcome
      prefix is deleted; the confirmation is sent only when the deleted channel is
      not the one the command was typed in. */
  function DeleteWelcomeChannel(channelId: Option<int>, known: map<int, Channel>, current: Channel): (r: DeleteReply)
    ensures r.Deleted? ==> IsWelcomeName(r.channel.name)
    ensures r.Deleted? ==> CommandTarget(channelId, known, current) == Some(r.channel)
    ensures r.Deleted? ==> (r.announced <==> r.channel.id != current.id)
  {
    match CommandTarget(channelId, known, current)
    case Some(c) =>
      if IsWelcomeName(c.name) then Deleted(c, c.id != current.id) else Refused
    case None => Refused
  }

  /** The guard in both directions: the command refuses exactly when the target
      does not exist or its name lacks the welcome prefix. */
  lemma DeleteRefusesNonWelcome(channelId: Option<int>, known: map<int, Channel>, current: Channel)
    ensures DeleteWelcomeChannel(channelId, known, current) == Refused <==>
      CommandTarget(channelId, known, current).None? ||
      !IsWelcomeName(CommandTarget(channelId, known, current).value.name)
  {
  }

  /** An id the bot does not know names no channel, so nothing is deleted, not
      even the channel the command was typed in. */
  lemma UnknownIdIsRefused(channelId: Option<int>, known: map<int, Channel>, current: Channel)
    requires channelId.Some? && channelId.value != 0 && channelId.value !in known
    ensures DeleteWelcomeChannel(channelId, known, current) == Refused
  {
  }

  /** A channel the join handler creates can later be removed with the delete
      command, typed inside it or named by its id. */
  lemma CreatedChannelIsDeletable(inFlight: set<string>, g: Guild, member: Member, roleName: string,
                                  today: Date, replies: Replies, created: Channel,
                                  channelId: Option<int>, known: map<int, Channel>, current: Channel)
    requires Decide(inFlight, g, member, roleName, today, replies).Created?
    requires created.name == Decide(inFlight, g, member, roleName, today, replies).request.name
    requires CommandTarget(channelId, known, current) == Some(created)
    ensures DeleteWelcomeChannel(channelId, known, current).Deleted?
    ensures DeleteWelcomeChannel(channelId, known, current).channel == created
  {
  }

  /** The `상태확인` command's helper count: `None` when the helper role does not
      exist, otherwise the number of non-bot holders of the role. */
  function StatusHelperCount(g: Guild, roleName: string): (r: Option<nat>)
    ensures r.None? <==> FindRole(g, roleName).None?
    ensures r.Some? ==> var ms := FindRole(g, roleName).value.members;
                        r.value == |set i: nat | i < |ms| && !ms[i].isBot|
  {
    match FindRole(g, roleName)
    case None => None
    case Some(role) => Some(NonBotCount(role.members))
  }

  /** When no holder of the role is online, the handler falls back to every
      non-bot holder, and the status command reports exactly that many helpers. */
  lemma StatusCountsFallbackHelpers(g: Guild, roleName: string)
    requires FindRole(g, roleName).Some?
    requires OnlineNonBots(FindRole(g, roleName).value.members) == []
    ensures StatusHelperCount(g, roleName) == Some(|SelectHelpers(FindRole(g, roleName).value.members)|)
  {
  }

  /** The status command and the join handler agree on the helper cohort: once
      the earlier checks pass, a join stops with `NoHelpers` exactly when the
      status command would report zero helpers. */
  lemma StatusAgreesWithJoin(inFlight: set<string>, g: Guild, member: Member, roleName: string,
                             today: Date, replies: Replies)
    requires !member.isBot && KeyOf(g.id, member.id) !in inFlight
    requires FindRole(g, roleName).Some?
    requires ChannelName(member.displayName, today) !in g.channelNames
    ensures Decide(inFlight, g, member, roleName, today, replies) == NoHelpers <==>
            StatusHelperCount(g, roleName) == Some(0)
  {
    var ms := FindRole(g, roleName).value.members;
    SelectHelpersSpec(ms);
    assert NonBots(ms) != [] ==> NonBots(ms)[0] in NonBots(ms);
  }
}
