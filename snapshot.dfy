/** A read-only snapshot of the guild state that the join handler consults.
    Ids are Discord snowflakes (non-negative integers). */
module Snapshot {
  import opened Options

  /** Presence as the bot sees it; `Offline` also covers invisible members. */
  datatype Status = Online | Idle | DoNotDisturb | Offline

  datatype Member = Member(id: nat, displayName: string, isBot: bool, status: Status)

  datatype Role = Role(id: nat, name: string, members: seq<Member>)

  datatype Category = Category(id: nat, name: string)

  /** `roles` and `categories` are in the platform's order; `channelNames` holds
      the name of every channel of the guild, categories included; `meId` is the
      bot's own member id. The default role (@everyone) has the guild's id. */
  datatype Guild = Guild(
    id: nat,
    roles: seq<Role>,
    categories: seq<Category>,
    channelNames: seq<string>,
    meId: nat)

  /** `discord.utils.get(xs, name=n)`: the first element whose name is `n`. */
  function FirstNamed<T>(xs: seq<T>, nameOf: T -> string, n: string): (r: Option<T>)
    ensures r.Some? ==> exists i :: 0 <= i < |xs| && xs[i] == r.value && nameOf(xs[i]) == n
                                    && forall j :: 0 <= j < i ==> nameOf(xs[j]) != n
    ensures r.None? <==> forall j :: 0 <= j < |xs| ==> nameOf(xs[j]) != n
  {
    if xs == [] then None
    else if nameOf(xs[0]) == n then Some(xs[0])
    else
      var rest := FirstNamed(xs[1..], nameOf, n);
      assert forall j :: 1 <= j < |xs| ==> xs[j] == xs[1..][j - 1];
      rest
  }

  function FindRole(g: Guild, n: string): Option<Role> {
    FirstNamed(g.roles, (r: Role) => r.name, n)
  }

  function FindCategory(g: Guild, n: string): Option<Category> {
    FirstNamed(g.categories, (c: Category) => c.name, n)
  }
}
