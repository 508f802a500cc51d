/** The host's event instance, reduced to what the event scripts use of it
    (src/main/java/scripting/event/EventInstanceManager.java), and the eviction code
    that the event scripts share.

    The roster is kept in the order in which getPlayers() lists it. Unregistrations, warps
    made by scripts, timer restarts and calls of dispose() are recorded, so that "exactly
    once" can be stated. Handlers are atomic. */
module Events {
  import opened Basics

  datatype Instance = Instance(
    roster: seq<Player>,
    gone: seq<Player>,            // unregistered players, in order
    warps: seq<(Player, int)>,    // (player, map) warps made by the script
    leader: Player,
    cleared: bool,
    disposals: nat,               // calls of dispose()
    deadline: Option<int>,        // when scheduledTimeout is due, in milliseconds
    restarts: nat)                // calls of restartEventTimer()
  {
    predicate Disposed() {
      disposals > 0
    }
  }

  function Without(s: seq<Player>, p: Player): (r: seq<Player>)
    ensures p !in s ==> r == s
    ensures forall q :: q in r ==> q in s
  {
    if s == [] then [] else if s[0] == p then s[1..] else [s[0]] + Without(s[1..], p)
  }

  lemma {:induction false} WithoutRemovesOne(s: seq<Player>, p: Player)
    requires Distinct(s) && p in s
    ensures var r := Without(s, p);
            Distinct(r) && p !in r && |r| == |s| - 1 && multiset(r) == multiset(s) - multiset{p}
  {
    SplitHead(s);
    if s[0] != p {
      WithoutRemovesOne(s[1..], p);
      var t := Without(s[1..], p);
      PrependFresh(s[0], t);
    }
  }

  lemma {:induction false} WithoutKeeps(s: seq<Player>, p: Player, q: Player)
    requires q in s && q != p
    ensures q in Without(s, p)
  {
    if s[0] != p && s[0] != q {
      WithoutKeeps(s[1..], p, q);
    }
  }

  lemma SplitHead(s: seq<Player>)
    requires s != [] && Distinct(s)
    ensures Distinct(s[1..]) && s[0] !in s[1..] && multiset(s) == multiset{s[0]} + multiset(s[1..])
  {
    assert s == [s[0]] + s[1..];
  }

  lemma WithoutHead(s: seq<Player>)
    requires s != []
    ensures Without(s, s[0]) == s[1..]
  {
  }

  lemma PrependFresh(p: Player, t: seq<Player>)
    requires Distinct(t) && p !in t
    ensures Distinct([p] + t) && multiset([p] + t) == multiset{p} + multiset(t)
  {
  }

  /** Whether losing the quitter would leave the event without its team. */
  ghost predicate TeamLacks(v: Instance, leavingEventMap: bool, minPlayers: nat, quitter: Player) {
    if v.cleared then leavingEventMap && |v.roster| <= 1
    else (leavingEventMap && v.leader == quitter) || |v.roster| <= minPlayers
  }

  /** It would exactly if too few stay behind: nobody once the event is cleared, fewer than
      the minimum, or a team without its leader, before. */
  lemma TeamLacksIff(v: Instance, minPlayers: nat, quitter: Player)
    requires Distinct(v.roster) && quitter in v.roster
    ensures var rest := Without(v.roster, quitter);
            TeamLacks(v, true, minPlayers, quitter)
            <==> if v.cleared then rest == [] else quitter == v.leader || |rest| < minPlayers
  {
    WithoutRemovesOne(v.roster, quitter);
  }

  ghost function Unregistered(v: Instance, p: Player): Instance {
    v.(roster := Without(v.roster, p), gone := v.gone + [p])
  }

  /** The script's playerExit: unregister first, warp afterwards, so the warp is not reported back. */
  ghost function Exited(v: Instance, p: Player, exitMap: int): Instance {
    Unregistered(v, p).(warps := v.warps + [(p, exitMap)])
  }

  ghost function Restarted(v: Instance, due: int): Instance {
    v.(deadline := Some(due), restarts := v.restarts + 1)
  }

  ghost function DisposedOf(v: Instance): Instance {
    v.(roster := [], deadline := None, disposals := v.disposals + 1)
  }

  ghost function Everyone(roster: seq<Player>, map_: int): (w: seq<(Player, int)>)
    ensures |w| == |roster| && forall i :: 0 <= i < |w| ==> w[i] == (roster[i], map_)
  {
    seq(|roster|, i requires 0 <= i < |roster| => (roster[i], map_))
  }

  /** The script's end: everyone still in is evicted once, in order, then the event is disposed. */
  ghost function Ended(v: Instance, exitMap: int): Instance {
    v.(roster := [], gone := v.gone + v.roster, warps := v.warps + Everyone(v.roster, exitMap),
       deadline := None, disposals := v.disposals + 1)
  }

  /** From v to w, each of who has in order been unregistered and warped to the map, nobody is
      left, and the event has been disposed of. */
  ghost predicate Evicted(v: Instance, w: Instance, who: seq<Player>, map_: int) {
    var n := |v.warps|;
    && |w.warps| == n + |who| && w.warps[..n] == v.warps
    && (forall i :: 0 <= i < |who| ==> w.warps[n + i] == (who[i], map_))
    && w.roster == [] && w.gone == v.gone + who
    && w.disposals == v.disposals + 1 && w.deadline == None
  }

  lemma EndedEvicts(v: Instance, exitMap: int)
    ensures Evicted(v, Ended(v, exitMap), v.roster, exitMap)
  {
    assert (v.warps + Everyone(v.roster, exitMap))[..|v.warps|] == v.warps;
  }

  /** What changedMap and playerRevive do with a member who quits. */
  ghost function Dropped(v: Instance, p: Player, minPlayers: nat, exitMap: int): Instance {
    var w := Unregistered(v, p);
    if TeamLacks(v, true, minPlayers, p) then Ended(w, exitMap) else w
  }

  lemma DroppedEvicts(v: Instance, p: Player, minPlayers: nat, exitMap: int)
    requires !v.Disposed()
    ensures var w := Dropped(v, p, minPlayers, exitMap);
            if w.Disposed() then Evicted(v.(gone := v.gone + [p]), w, Without(v.roster, p), exitMap)
            else w == Unregistered(v, p)
  {
    EndedEvicts(Unregistered(v, p), exitMap);
  }

  /** The state of end after i members have left. */
  ghost function PartlyExited(v: Instance, party: seq<Player>, i: nat, exitMap: int): Instance
    requires i <= |party|
  {
    v.(roster := party[i..], gone := v.gone + party[..i], warps := v.warps + Everyone(party[..i], exitMap))
  }

  lemma ExitNext(v: Instance, party: seq<Player>, i: nat, exitMap: int)
    requires i < |party|
    ensures Exited(PartlyExited(v, party, i, exitMap), party[i], exitMap) == PartlyExited(v, party, i + 1, exitMap)
  {
  }

  lemma ExtendEveryone(w: seq<(Player, int)>, party: seq<Player>, i: nat, m: int)
    requires i < |party|
    ensures w + Everyone(party[..i], m) + [(party[i], m)] == w + Everyone(party[..i + 1], m)
  {
  }

  // ----- a leader who disconnects -----

  /** A party member on the map of the one who disconnects. */
  datatype Companion = Companion(id: Player, level: int)

  ghost predicate Accompanied(p: Player, beside: seq<Companion>) {
    exists c :: c in beside && c.id != p
  }

  /** The companion who gets the lead: the last one of the highest level. */
  ghost function Heir(p: Player, beside: seq<Companion>): (r: Option<Companion>)
    ensures r.Some? <==> Accompanied(p, beside)
  {
    if beside == [] then None
    else
      var n := |beside| - 1;
      assert beside == beside[..n] + [beside[n]];
      var h := Heir(p, beside[..n]);
      if beside[n].id != p && (h.None? || h.value.level <= beside[n].level) then Some(beside[n]) else h
  }

  lemma {:induction false} HeirIsHighest(p: Player, beside: seq<Companion>)
    ensures Accompanied(p, beside) ==>
              var h := Heir(p, beside).value;
              && h.id != p && (forall c :: c in beside && c.id != p ==> c.level <= h.level)
              && exists k :: 0 <= k < |beside| && beside[k] == h
                   && forall j :: k < j < |beside| && beside[j].id != p ==> beside[j].level < h.level
  {
    if beside != [] {
      var n := |beside| - 1;
      HeirIsHighest(p, beside[..n]);
      assert beside == beside[..n] + [beside[n]];
    }
  }

  /** The host's loop over the party, for a leader who goes offline. */
  method FindHeir(p: Player, beside: seq<Companion>) returns (heir: Option<Companion>)
    ensures heir == Heir(p, beside)
  {
    heir := None;
    for i := 0 to |beside|
      invariant heir == Heir(p, beside[..i])
    {
      assert beside[..i + 1][..i] == beside[..i];
      if beside[i].id != p && (heir.None? || heir.value.level <= beside[i].level) {
        heir := Some(beside[i]);
      }
    }
    assert beside[..|beside|] == beside;
  }

  /** The lead passes on before the disconnection is reported. */
  ghost function HandedOver(v: Instance, p: Player, beside: seq<Companion>): Instance {
    if p == v.leader && Heir(p, beside).Some? then v.(leader := Heir(p, beside).value.id) else v
  }

  // ----- nobody is lost -----

  ghost function Players(warps: seq<(Player, int)>): (s: seq<Player>)
    ensures |s| == |warps|
  {
    seq(|warps|, i requires 0 <= i < |warps| => warps[i].0)
  }

  /** Each member of the team is registered or was unregistered once, and only unregistered
      ones were warped out, each at most once. */
  ghost predicate Conserved(team: seq<Player>, v: Instance) {
    && Distinct(v.roster)
    && multiset(v.roster) + multiset(v.gone) == multiset(team)
    && multiset(Players(v.warps)) <= multiset(v.gone)
  }

  /** The event runs with a full enough team under a timer, or is cleared with somebody
      still in, or has been disposed of once with everybody out. */
  ghost predicate Sound(team: seq<Player>, minPlayers: nat, v: Instance) {
    && Conserved(team, v)
    && v.disposals <= 1
    && if v.Disposed() then v.roster == []
       else if v.cleared then v.roster != []
       else |v.roster| >= minPlayers && v.deadline.Some?
  }

  lemma PlayersOfEveryone(v: Instance, m: int)
    ensures multiset(Players(v.warps + Everyone(v.roster, m))) == multiset(Players(v.warps)) + multiset(v.roster)
  {
    assert Players(v.warps + Everyone(v.roster, m)) == Players(v.warps) + v.roster;
  }

  lemma EndingIsSound(team: seq<Player>, minPlayers: nat, v: Instance, exitMap: int)
    requires Conserved(team, v) && !v.Disposed()
    ensures Sound(team, minPlayers, Ended(v, exitMap))
  {
    PlayersOfEveryone(v, exitMap);
  }

  lemma UnregisteringConserves(team: seq<Player>, v: Instance, p: Player, exitMap: int)
    requires Conserved(team, v) && p in v.roster
    ensures Conserved(team, Unregistered(v, p)) && Conserved(team, Exited(v, p, exitMap))
    ensures |Without(v.roster, p)| == |v.roster| - 1 && p !in Without(v.roster, p)
  {
    WithoutRemovesOne(v.roster, p);
    assert Players(v.warps + [(p, exitMap)]) == Players(v.warps) + [p];
  }

  lemma DroppingIsSound(team: seq<Player>, minPlayers: nat, v: Instance, p: Player, exitMap: int)
    requires Sound(team, minPlayers, v) && !v.Disposed() && p in v.roster
    ensures Sound(team, minPlayers, Dropped(v, p, minPlayers, exitMap))
  {
    UnregisteringConserves(team, v, p, exitMap);
    EndingIsSound(team, minPlayers, Unregistered(v, p), exitMap);
  }

  class EventInstance {
    var roster: seq<Player>
    var gone: seq<Player>
    var warps: seq<(Player, int)>
    var leader: Player
    var cleared: bool
    var disposals: nat
    var deadline: Option<int>
    var restarts: nat

    ghost function View(): Instance
      reads this
    {
      Instance(roster, gone, warps, leader, cleared, disposals, deadline, restarts)
    }

    constructor (team: seq<Player>, leader: Player)
      ensures View() == Instance(team, [], [], leader, false, 0, None, 0)
    {
      roster, gone, warps, this.leader := team, [], [], leader;
      cleared, disposals, deadline, restarts := false, 0, None, 0;
    }

    predicate IsEventTeamLackingNow(leavingEventMap: bool, minPlayers: nat, quitter: Player)
      reads this
      ensures IsEventTeamLackingNow(leavingEventMap, minPlayers, quitter)
              <==> TeamLacks(View(), leavingEventMap, minPlayers, quitter)
    {
      if cleared then
        leavingEventMap && |roster| <= 1
      else
        (leavingEventMap && leader == quitter) || |roster| <= minPlayers
    }

    method UnregisterPlayer(p: Player)
      modifies this
      ensures View() == Unregistered(old(View()), p)
    {
      roster := Without(roster, p);
      gone := gone + [p];
    }

    method StartEventTimer(now: int, time: int)
      modifies `deadline
      ensures View() == old(View()).(deadline := Some(now + time))
    {
      deadline := Some(now + time);
    }

    method StopEventTimer()
      modifies `deadline
      ensures View() == old(View()).(deadline := None)
    {
      deadline := None;
    }

    method RestartEventTimer(now: int, time: int)
      modifies `deadline, `restarts
      ensures View() == Restarted(old(View()), now + time)
    {
      StopEventTimer();
      StartEventTimer(now, time);
      restarts := restarts + 1;
    }

    method Dispose()
      modifies this
      ensures View() == DisposedOf(old(View()))
    {
      roster, deadline, disposals := [], None, disposals + 1;
    }

    method PlayerExit(p: Player, exitMap: int)
      modifies this
      ensures View() == Exited(old(View()), p, exitMap)
    {
      UnregisterPlayer(p);
      warps := warps + [(p, exitMap)];
    }

    method End(exitMap: int)
      requires Distinct(roster)
      modifies this
      ensures View() == Ended(old(View()), exitMap)
    {
      var party := roster;
      ghost var before := View();
      for i := 0 to |party|
        invariant View() == PartlyExited(before, party, i, exitMap)
      {
        ExitNext(before, party, i, exitMap);
        PlayerExit(party[i], exitMap);
      }
      assert party[..|party|] == party;
      Dispose();
    }

    method Drop(p: Player, minPlayers: nat, exitMap: int)
      requires Distinct(roster) && p in roster
      modifies this
      ensures View() == Dropped(old(View()), p, minPlayers, exitMap)
    {
      WithoutRemovesOne(roster, p);
      if IsEventTeamLackingNow(true, minPlayers, p) {
        UnregisterPlayer(p);
        End(exitMap);
      } else {
        UnregisterPlayer(p);
      }
    }
  }
}
