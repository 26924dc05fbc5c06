/** Helper selection (the online non-bot holders of the helper role, falling
    back to every non-bot holder) and the non-bot count that the status
    command reports. */
module Helpers {
  import opened Snapshot

  /** A list comprehension `[m for m in ms if keep(m)]`: the kept members are
      appended in the order the loop visits them. */
  function Filter(ms: seq<Member>, keep: Member -> bool): (r: seq<Member>)
    ensures |r| <= |ms|
    ensures forall m :: m in r <==> m in ms && keep(m)
  {
    if ms == [] then []
    else
      var init, last := ms[..|ms| - 1], ms[|ms| - 1];
      var kept := Filter(init, keep);
      assert ms == init + [last];
      if keep(last) then kept + [last] else kept
  }

  /** The positions of `ms` whose member satisfies `keep`. */
  function KeptPositions(ms: seq<Member>, keep: Member -> bool): set<nat> {
    set i: nat | i < |ms| && keep(ms[i])
  }

  /** The comprehension has one element per position whose member is kept. */
  lemma {:induction false} FilterLength(ms: seq<Member>, keep: Member -> bool)
    ensures |Filter(ms, keep)| == |KeptPositions(ms, keep)|
  {
    if ms == [] {
      assert KeptPositions(ms, keep) == {};
    } else {
      var init, last := ms[..|ms| - 1], ms[|ms| - 1];
      FilterLength(init, keep);
      var before, now := KeptPositions(init, keep), KeptPositions(ms, keep);
      var extra: set<nat> := if keep(last) then {|init|} else {};
      assert now == before + extra by {
        forall i: nat | i in now ensures i in before + extra {
          if i < |init| { assert init[i] == ms[i]; }
        }
        forall i: nat | i in before + extra ensures i in now {
          if i < |init| { assert init[i] == ms[i]; }
        }
      }
      assert before * extra == {};
      assert |Filter(ms, keep)| == |Filter(init, keep)| + |extra|;
    }
  }

  function NonBots(ms: seq<Member>): seq<Member> {
    Filter(ms, (m: Member) => !m.isBot)
  }

  /** `m.status != discord.Status.offline and not m.bot` */
  function OnlineNonBots(ms: seq<Member>): seq<Member> {
    Filter(ms, (m: Member) => m.status != Offline && !m.isBot)
  }

  function SelectHelpers(ms: seq<Member>): seq<Member> {
    var online := OnlineNonBots(ms);
    if online != [] then online else NonBots(ms)
  }

  /** The selection never holds a bot; it is the online non-bot holders when
      there are any and every non-bot holder otherwise; and it is empty exactly
      when the role has no non-bot holder at all. */
  lemma SelectHelpersSpec(ms: seq<Member>)
    ensures forall m :: m in SelectHelpers(ms) ==> m in ms && !m.isBot
    ensures OnlineNonBots(ms) != [] ==> SelectHelpers(ms) == OnlineNonBots(ms)
    ensures OnlineNonBots(ms) == [] ==> SelectHelpers(ms) == NonBots(ms)
    ensures SelectHelpers(ms) == [] <==> NonBots(ms) == []
  {
    var online := OnlineNonBots(ms);
    if online != [] {
      assert online[0] in online;
      assert online[0] in NonBots(ms);
    }
  }

  /** Ids of the non-bot members of `ms`: the members that the overwrite loop
      grants an entry of their own. */
  function HelperIds(ms: seq<Member>): set<nat> {
    set m | m in ms && !m.isBot :: m.id
  }

  /** `len([m for m in role.members if not m.bot])`: the number of positions of
      the role's member list that hold a non-bot. */
  function NonBotCount(ms: seq<Member>): (n: nat)
    ensures n == |set i: nat | i < |ms| && !ms[i].isBot|
    ensures n <= |ms|
    ensures n == 0 <==> forall m :: m in ms ==> m.isBot
  {
    var r := NonBots(ms);
    assert r != [] ==> r[0] in r;
    FilterLength(ms, (m: Member) => !m.isBot);
    assert KeptPositions(ms, (m: Member) => !m.isBot) == set i: nat | i < |ms| && !ms[i].isBot;
    |r|
  }
}
