/** The permission-overwrite table handed to channel creation: the default role
    may not read, the joiner, the helper role and the bot itself may read and
    send, and so may every non-bot holder of the helper role. */
module Overwrites {
  import opened Snapshot
  import opened Helpers

  /** discord.py hashes a Role or a Member by its id, but two keys are equal
      only when they are of the same class and have the same id, so a role and a
      member with the same id are different keys. */
  datatype Target = RoleTarget(id: nat) | MemberTarget(id: nat)

  /** One side of a `PermissionOverwrite`: set to allow, set to deny, or left unset. */
  datatype Setting = Allow | Deny | Unset

  datatype Perm = Perm(read: Setting, send: Setting)

  const DenyRead := Perm(Deny, Unset)
  const ReadSend := Perm(Allow, Allow)

  /** The dict literal: later entries replace earlier ones with the same key. */
  function BaseTable(guildId: nat, joinerId: nat, roleId: nat, meId: nat): map<Target, Perm> {
    map[RoleTarget(guildId) := DenyRead]
       [MemberTarget(joinerId) := ReadSend]
       [RoleTarget(roleId) := ReadSend]
       [MemberTarget(meId) := ReadSend]
  }

  /** The table after the per-member loop has visited `ms`, in order. */
  function GrantHelpers(table: map<Target, Perm>, ms: seq<Member>): map<Target, Perm>
    decreases |ms|
  {
    if ms == [] then table
    else
      var last := ms[|ms| - 1];
      var t := GrantHelpers(table, ms[..|ms| - 1]);
      if last.isBot then t else t[MemberTarget(last.id) := ReadSend]
  }

  function OverwriteTable(guildId: nat, joinerId: nat, role: Role, meId: nat): map<Target, Perm> {
    GrantHelpers(BaseTable(guildId, joinerId, role.id, meId), role.members)
  }

  /** The loop adds a read-and-send entry for exactly the non-bot members and
      leaves every other entry as it was. */
  lemma {:induction false} GrantHelpersAt(table: map<Target, Perm>, ms: seq<Member>, t: Target)
    ensures t in GrantHelpers(table, ms) <==> t in table || (t.MemberTarget? && t.id in HelperIds(ms))
    ensures t.MemberTarget? && t.id in HelperIds(ms) ==> GrantHelpers(table, ms)[t] == ReadSend
    ensures t in table && !(t.MemberTarget? && t.id in HelperIds(ms)) ==> GrantHelpers(table, ms)[t] == table[t]
  {
    if ms != [] {
      var init, last := ms[..|ms| - 1], ms[|ms| - 1];
      assert ms == init + [last];
      assert HelperIds(ms) == HelperIds(init) + (if last.isBot then {} else {last.id}) by {
        forall m | m in ms ensures m in init || m == last { }
      }
      GrantHelpersAt(table, init, t);
    }
  }

  /** The whole table: which targets have an entry, and what each entry says. */
  lemma OverwriteTableShape(guildId: nat, joinerId: nat, role: Role, meId: nat)
    ensures var t := OverwriteTable(guildId, joinerId, role, meId);
      && (forall id :: RoleTarget(id) in t <==> id == guildId || id == role.id)
      && (forall id :: MemberTarget(id) in t <==> id == joinerId || id == meId || id in HelperIds(role.members))
      && t[RoleTarget(guildId)] == (if role.id == guildId then ReadSend else DenyRead)
      && (forall x :: x in t && x != RoleTarget(guildId) ==> t[x] == ReadSend)
  {
    var base := BaseTable(guildId, joinerId, role.id, meId);
    forall x ensures x in OverwriteTable(guildId, joinerId, role, meId) <==>
                       x in base || (x.MemberTarget? && x.id in HelperIds(role.members))
    {
      GrantHelpersAt(base, role.members, x);
    }
    forall x | x in base || (x.MemberTarget? && x.id in HelperIds(role.members))
      ensures OverwriteTable(guildId, joinerId, role, meId)[x] ==
              (if x == RoleTarget(guildId) && role.id != guildId then DenyRead else ReadSend)
    {
      GrantHelpersAt(base, role.members, x);
    }
  }

  /** The handler's table, in the cases the source means: the default role is
      denied read; the joiner, the helper role and the bot may read and send;
      every non-bot holder of the role, online or not, has its own entry, and a
      bot holder gets none unless it is the joiner or the bot itself. */
  lemma OverwriteTableGuarantees(guildId: nat, joiner: Member, role: Role, meId: nat)
    requires role.id != guildId
    ensures var t := OverwriteTable(guildId, joiner.id, role, meId);
      && RoleTarget(guildId) in t && t[RoleTarget(guildId)] == DenyRead
      && MemberTarget(joiner.id) in t && t[MemberTarget(joiner.id)] == ReadSend
      && RoleTarget(role.id) in t && t[RoleTarget(role.id)] == ReadSend
      && MemberTarget(meId) in t && t[MemberTarget(meId)] == ReadSend
      && (forall m :: m in role.members && !m.isBot ==> MemberTarget(m.id) in t && t[MemberTarget(m.id)] == ReadSend)
      && (forall m :: (m in role.members && m.isBot && m.id != joiner.id && m.id != meId &&
                       m.id !in HelperIds(role.members)) ==> MemberTarget(m.id) !in t)
  {
    OverwriteTableShape(guildId, joiner.id, role, meId);
    var t := OverwriteTable(guildId, joiner.id, role, meId);
    forall m | m in role.members && !m.isBot
      ensures MemberTarget(m.id) in t && t[MemberTarget(m.id)] == ReadSend
    {
      assert m.id in HelperIds(role.members);
    }
  }

  /** main.py's loop: start from the literal, then add an entry per non-bot holder. */
  method BuildOverwrites(guildId: nat, joinerId: nat, role: Role, meId: nat) returns (table: map<Target, Perm>)
    ensures table == OverwriteTable(guildId, joinerId, role, meId)
  {
    table := BaseTable(guildId, joinerId, role.id, meId);
    for i := 0 to |role.members|
      invariant table == GrantHelpers(BaseTable(guildId, joinerId, role.id, meId), role.members[..i])
    {
      var helper := role.members[i];
      assert role.members[..i + 1][..i] == role.members[..i];
      if !helper.isBot {
        table := table[MemberTarget(helper.id) := ReadSend];
      }
    }
    assert role.members[..|role.members|] == role.members;
  }
}
