/** The join handler: the decision it reaches from a guild snapshot, and the
    handler itself, which brackets that decision with the in-flight gate. */
module Onboarding {
  import opened Options
  import opened Snapshot
  import opened Naming
  import opened Helpers
  import opened Overwrites
  import opened Gate

  /** The helper role's name until an administrator sets another one; the
      handler takes the current name as a parameter. */
  const DefaultHelperRoleName: string := "도라도라미"

  /** The category new welcome channels are placed under, if the guild has it. */
  const WelcomeCategoryName: string := "신입환영"

  /** What the platform answers to the handler's calls: whether channel creation
      succeeded, and whether the first message to the new channel went out
      (if it raises, the second one is never attempted). */
  datatype Replies = Replies(createOk: bool, welcomeSent: bool)

  /** The two sends the handler attempts into a new channel: the welcome
      embed, then the plain-text ping of the helper role. An attempted send may
      still fail; `Replies.welcomeSent` says whether the first one did. */
  datatype Notice = WelcomeEmbed | HelperPing

  /** The arguments of `create_text_channel`, apart from the topic text. */
  datatype ChannelRequest = ChannelRequest(name: string, overwrites: map<Target, Perm>, category: Option<Category>)

  /** Exactly one of these is reached per join event. */
  datatype Outcome =
    | IgnoredBot
    | AlreadyProcessing
    | RoleMissing
    | ChannelExists(name: string)
    | NoHelpers
    | CreateFailed(request: ChannelRequest)
    | Created(request: ChannelRequest, notices: seq<Notice>)
  {
    predicate CreationAttempted() {
      CreateFailed? || Created?
    }
  }

  /** The body of the `try`, as written: the clock is read once for the
      existence check (`checkDay`) and again for the name the channel is
      created with (`createDay`). */
  function ProvisionAsWritten(g: Guild, member: Member, roleName: string,
                              checkDay: Date, createDay: Date, replies: Replies): (r: Outcome)
    ensures r.CreationAttempted() ==> FindRole(g, roleName).Some?
    ensures r.CreationAttempted() ==> ChannelName(member.displayName, checkDay) !in g.channelNames
    ensures r.CreationAttempted() ==>
              r.request == ChannelRequest(ChannelName(member.displayName, createDay),
                                          OverwriteTable(g.id, member.id, FindRole(g, roleName).value, g.meId),
                                          FindCategory(g, WelcomeCategoryName))
  {
    match FindRole(g, roleName)
    case None => RoleMissing
    case Some(role) =>
      var checked := ChannelName(member.displayName, checkDay);
      if checked in g.channelNames then ChannelExists(checked)
      else if SelectHelpers(role.members) == [] then NoHelpers
      else
        var request := ChannelRequest(ChannelName(member.displayName, createDay),
                                      OverwriteTable(g.id, member.id, role, g.meId),
                                      FindCategory(g, WelcomeCategoryName));
        if !replies.createOk then CreateFailed(request)
        else Created(request, if replies.welcomeSent then [WelcomeEmbed, HelperPing] else [WelcomeEmbed])
  }

  /** The whole handler as written, given the set of keys in flight when the event arrives. */
  function DecideAsWritten(inFlight: set<string>, g: Guild, member: Member, roleName: string,
                           checkDay: Date, createDay: Date, replies: Replies): (r: Outcome)
    ensures r.CreationAttempted() ==> !member.isBot && KeyOf(g.id, member.id) !in inFlight
    ensures r.CreationAttempted() ==> ChannelName(member.displayName, checkDay) !in g.channelNames
    ensures r.CreationAttempted() ==> r.request.name == ChannelName(member.displayName, createDay)
  {
    if member.isBot then IgnoredBot
    else if KeyOf(g.id, member.id) in inFlight then AlreadyProcessing
    else ProvisionAsWritten(g, member, roleName, checkDay, createDay, replies)
  }

  /** The handler with one clock reading used for both the check and the
      creation: a channel it asks for carries the computed name, which the guild
      does not already have and which has the welcome prefix, and is placed in
      the welcome category if the guild has one. */
  function Decide(inFlight: set<string>, g: Guild, member: Member, roleName: string,
                  today: Date, replies: Replies): (r: Outcome)
    ensures r.CreationAttempted() ==> r.request.name == ChannelName(member.displayName, today)
    ensures r.CreationAttempted() ==> r.request.category == FindCategory(g, WelcomeCategoryName)
    ensures r.CreationAttempted() ==> (r.Created? <==> replies.createOk)
    ensures r.CreationAttempted() ==> r.request.name !in g.channelNames
    ensures r.CreationAttempted() ==> IsWelcomeName(r.request.name)
  {
    ChannelNameIsWelcome(member.displayName, today);
    DecideAsWritten(inFlight, g, member, roleName, today, today, replies)
  }

  /** A channel is asked for exactly when the joiner is not a bot, the key is
      not in flight, the helper role exists, no channel has the computed name,
      and the role has at least one non-bot holder. */
  lemma CreationAttemptedIff(inFlight: set<string>, g: Guild, member: Member, roleName: string,
                             today: Date, replies: Replies)
    ensures Decide(inFlight, g, member, roleName, today, replies).CreationAttempted() <==>
      && !member.isBot
      && KeyOf(g.id, member.id) !in inFlight
      && FindRole(g, roleName).Some?
      && ChannelName(member.displayName, today) !in g.channelNames
      && exists m :: m in FindRole(g, roleName).value.members && !m.isBot
  {
    var found := FindRole(g, roleName);
    if found.Some? {
      var ms := found.value.members;
      SelectHelpersSpec(ms);
      if exists m :: m in ms && !m.isBot {
        var m :| m in ms && !m.isBot;
        assert m in NonBots(ms);
      }
      assert NonBots(ms) != [] ==> NonBots(ms)[0] in NonBots(ms);
    }
  }

  /** Each join reaches exactly one outcome, and which one is decided by the
      checks in main.py's order: bot, key in flight, helper role, existing
      name, non-bot holders, then the platform's answer to the create call. */
  lemma OutcomeByChecks(inFlight: set<string>, g: Guild, member: Member, roleName: string,
                        today: Date, replies: Replies)
    ensures var r := Decide(inFlight, g, member, roleName, today, replies);
            var role := FindRole(g, roleName);
            var reached := !member.isBot && KeyOf(g.id, member.id) !in inFlight;
            var named := reached && role.Some?;
            var absent := named && ChannelName(member.displayName, today) !in g.channelNames;
      && (r == IgnoredBot <==> member.isBot)
      && (r == AlreadyProcessing <==> !member.isBot && KeyOf(g.id, member.id) in inFlight)
      && (r == RoleMissing <==> reached && role.None?)
      && (r.ChannelExists? <==> named && ChannelName(member.displayName, today) in g.channelNames)
      && (r.ChannelExists? ==> r.name == ChannelName(member.displayName, today))
      && (r == NoHelpers <==> absent && forall m :: m in role.value.members ==> m.isBot)
      && (r.CreateFailed? <==> absent && (exists m :: m in role.value.members && !m.isBot) && !replies.createOk)
      && (r.Created? <==> absent && (exists m :: m in role.value.members && !m.isBot) && replies.createOk)
  {
    CreationAttemptedIff(inFlight, g, member, roleName, today, replies);
  }

  /** When a channel is asked for, its overwrites are exactly the table built
      from the helper role, so `OverwriteTableShape` says everything it holds:
      the default role is denied read (unless the helper role is
      the default role itself), and the joiner, the role, the bot and every
      non-bot holder of the role may read and send. */
  lemma RequestGrantsHelpers(inFlight: set<string>, g: Guild, member: Member, roleName: string,
                             today: Date, replies: Replies)
    requires Decide(inFlight, g, member, roleName, today, replies).CreationAttempted()
    ensures FindRole(g, roleName).Some?
    ensures Decide(inFlight, g, member, roleName, today, replies).request.overwrites ==
            OverwriteTable(g.id, member.id, FindRole(g, roleName).value, g.meId)
    ensures var role := FindRole(g, roleName).value;
            var t := Decide(inFlight, g, member, roleName, today, replies).request.overwrites;
      && (role.id != g.id ==> RoleTarget(g.id) in t && t[RoleTarget(g.id)] == DenyRead)
      && MemberTarget(member.id) in t && t[MemberTarget(member.id)] == ReadSend
      && RoleTarget(role.id) in t && t[RoleTarget(role.id)] == ReadSend
      && MemberTarget(g.meId) in t && t[MemberTarget(g.meId)] == ReadSend
      && forall m :: m in role.members && !m.isBot ==> MemberTarget(m.id) in t && t[MemberTarget(m.id)] == ReadSend
  {
    var role := FindRole(g, roleName).value;
    OverwriteTableShape(g.id, member.id, role, g.meId);
    var t := OverwriteTable(g.id, member.id, role, g.meId);
    forall m | m in role.members && !m.isBot
      ensures MemberTarget(m.id) in t && t[MemberTarget(m.id)] == ReadSend
    {
      assert m.id in HelperIds(role.members);
    }
  }

  /** A key in flight only refuses the same member of the same guild: with one
      handler in flight, a join by anyone else is not refused as a duplicate. */
  lemma InFlightBlocksOnlySameMember(g: Guild, member: Member, other: Guild, joiner: Member,
                                     roleName: string, today: Date, replies: Replies)
    requires other.id != g.id || joiner.id != member.id
    ensures Decide({KeyOf(g.id, member.id)}, other, joiner, roleName, today, replies) != AlreadyProcessing
  {
    KeyOfInjective(g.id, member.id, other.id, joiner.id);
  }

  /** Sends are attempted only into a channel that was created: the welcome
      embed first, then the helper ping exactly when the embed went out. */
  lemma NoticesOnlyAfterCreation(inFlight: set<string>, g: Guild, member: Member, roleName: string,
                                 today: Date, replies: Replies)
    ensures var r := Decide(inFlight, g, member, roleName, today, replies);
      (r.Created? ==> replies.createOk && 1 <= |r.notices| <= 2 && r.notices[0] == WelcomeEmbed)
      && (r.Created? && HelperPing in r.notices ==> replies.welcomeSent)
      && (!replies.createOk ==> !r.Created?)
      && (r.CreationAttempted() && replies.createOk ==> r.Created?)
      && (r.Created? && replies.welcomeSent ==> r.notices == [WelcomeEmbed, HelperPing])
      && (r.Created? && !replies.welcomeSent ==> r.notices == [WelcomeEmbed])
  {
  }

  /** As written, the existence check and the creation read the clock
      separately. A join handled across midnight from 31 December to 1 January
      checks for `환영-a-1231`, which does not exist, and then asks for
      `환영-a-0101`, which does: the guild ends with two channels of that name. */
  lemma MidnightDuplicateName()
    ensures var g := Guild(1, [Role(2, DefaultHelperRoleName, [Member(3, "h", false, Online)])], [], ["환영-a-0101"], 9);
            var r := DecideAsWritten({}, g, Member(4, "a", false, Online), DefaultHelperRoleName,
                                     Date(12, 31), Date(1, 1), Replies(true, true));
            r.Created? && r.request.name in g.channelNames
  {
    var g := Guild(1, [Role(2, DefaultHelperRoleName, [Member(3, "h", false, Online)])], [], ["환영-a-0101"], 9);
    var joiner := Member(4, "a", false, Online);
    assert ChannelName("a", Date(1, 1)) == "환영-a-0101";
    ChannelNameInjective("a", Date(12, 31), "a", Date(1, 1));
    assert FindRole(g, DefaultHelperRoleName) == Some(g.roles[0]);
    assert OnlineNonBots(g.roles[0].members)[0] == Member(3, "h", false, Online);
  }

  /** The `try` body: stop at the first check that fails, otherwise build the
      table with the loop and ask for the channel. */
  method Provision(g: Guild, member: Member, roleName: string, today: Date, replies: Replies)
    returns (outcome: Outcome)
    ensures outcome == ProvisionAsWritten(g, member, roleName, today, today, replies)
  {
    var found := FindRole(g, roleName);
    if found.None? {
      return RoleMissing;
    }
    var role := found.value;
    var name := ChannelName(member.displayName, today);
    if name in g.channelNames {
      return ChannelExists(name);
    }
    var helpers := SelectHelpers(role.members);
    if helpers == [] {
      return NoHelpers;
    }
    var table := BuildOverwrites(g.id, member.id, role, g.meId);
    var request := ChannelRequest(name, table, FindCategory(g, WelcomeCategoryName));
    if !replies.createOk {
      return CreateFailed(request);
    }
    var notices := [WelcomeEmbed];
    if replies.welcomeSent {
      notices := notices + [HelperPing];
    }
    return Created(request, notices);
  }

  /** `on_member_join`: bots are ignored before the gate is touched; a key in
      flight is refused and left in place for its own handler; otherwise the key
      is held for the duration of the body and released on every exit, so the
      set ends as it began whatever the outcome. */
  method OnMemberJoin(gate: JoinGate, g: Guild, member: Member, roleName: string,
                      today: Date, replies: Replies) returns (outcome: Outcome)
    modifies gate
    ensures gate.processing == old(gate.processing)
    ensures outcome == Decide(old(gate.processing), g, member, roleName, today, replies)
  {
    if member.isBot {
      return IgnoredBot;
    }
    var key := KeyOf(g.id, member.id);
    var admitted := gate.Begin(key);
    if !admitted {
      return AlreadyProcessing;
    }
    outcome := Provision(g, member, roleName, today, replies);
    gate.End(key);
  }
}
